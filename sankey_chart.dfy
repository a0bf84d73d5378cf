/** The client's application-flow chart (client/src/components/SankeyChart.tsx): seven
    fixed nodes, ten counters incremented per job by an if-chain on the status, and a
    link list built by pushing each counter that is positive. */
module SankeyChart {
  import J = JobModel
  import opened FlowGraph

  const Nodes: seq<Stage> := [Applied, Interviewing, OfferReceived, Accepted, Rejected, Withdrawn, Pending]

  /** The path the chart infers for a job. A job still at Applied goes to Pending; for
      Rejected and Withdrawn, offer evidence is checked before interview evidence;
      any other status (Not Applied) takes no step. */
  function ClientPath(x: Snapshot): seq<Stage> {
    if x.status.Applied? then [Applied, Pending]
    else if x.status.Interviewing? then [Applied, Interviewing]
    else if x.status.OfferReceived? then [Applied, Interviewing, OfferReceived]
    else if x.status.Accepted? then [Applied, Interviewing, OfferReceived, Accepted]
    else if x.status.Rejected? then
      (if x.hasOffer then [Applied, Interviewing, OfferReceived, Rejected]
       else if x.hasInterviews then [Applied, Interviewing, Rejected]
       else [Applied, Rejected])
    else if x.status.Withdrawn? then
      (if x.hasOffer then [Applied, Interviewing, OfferReceived, Withdrawn]
       else if x.hasInterviews then [Applied, Interviewing, Withdrawn]
       else [Applied, Withdrawn])
    else []
  }

  function ClientCounts(jobs: seq<J.Job>): Counters {
    Counts(jobs, ClientPath)
  }

  /** The links the chart draws: the ten counters in emission order, each pushed only
      when positive. */
  function ClientLinks(c: Counters): seq<Link> {
    Emitted(c, |ClientEdgeOrder|)
  }

  /** The effect of `fetchData` once the jobs are loaded: the node list and the links. */
  method BuildFlow(jobs: seq<J.Job>) returns (nodes: seq<Stage>, links: seq<Link>)
    ensures nodes == Nodes
    ensures links == ClientLinks(ClientCounts(jobs))
  {
    nodes := [Applied, Interviewing, OfferReceived, Accepted, Rejected, Withdrawn, Pending];
    var counts := Zero;
    for i := 0 to |jobs|
      invariant counts == ClientCounts(jobs[..i])
    {
      counts := CountJob(counts, jobs[i]);
      assert jobs[..i + 1][..i] == jobs[..i];
    }
    assert jobs[..|jobs|] == jobs;
    links := EmitLinks(counts);
  }

  /** The body of `jobs.forEach`: the status if-chain, incrementing counters. */
  method CountJob(c: Counters, job: J.Job) returns (d: Counters)
    ensures d == BumpPath(c, ClientPath(SnapshotOf(job)))
  {
    d := c;
    var hasInterviews := |job.interviews| > 0;
    var hasOffer := job.offer.Some? && job.offer.value.baseSalary.Some? && job.offer.value.baseSalary.value != 0.0;
    if job.status == J.Applied {
      d := d.(stillInApplied := d.stillInApplied + 1);
    } else if job.status == J.Interviewing {
      d := d.(appliedToInterviewing := d.appliedToInterviewing + 1);
    } else if job.status == J.OfferReceived {
      d := d.(appliedToInterviewing := d.appliedToInterviewing + 1);
      d := d.(interviewingToOfferReceived := d.interviewingToOfferReceived + 1);
    } else if job.status == J.Accepted {
      d := d.(appliedToInterviewing := d.appliedToInterviewing + 1);
      d := d.(interviewingToOfferReceived := d.interviewingToOfferReceived + 1);
      d := d.(offerReceivedToAccepted := d.offerReceivedToAccepted + 1);
    } else if job.status == J.Rejected {
      if hasOffer {
        d := d.(appliedToInterviewing := d.appliedToInterviewing + 1);
        d := d.(interviewingToOfferReceived := d.interviewingToOfferReceived + 1);
        d := d.(offerReceivedToRejected := d.offerReceivedToRejected + 1);
      } else if hasInterviews {
        d := d.(appliedToInterviewing := d.appliedToInterviewing + 1);
        d := d.(interviewingToRejected := d.interviewingToRejected + 1);
      } else {
        d := d.(appliedToRejected := d.appliedToRejected + 1);
      }
    } else if job.status == J.Withdrawn {
      if hasOffer {
        d := d.(appliedToInterviewing := d.appliedToInterviewing + 1);
        d := d.(interviewingToOfferReceived := d.interviewingToOfferReceived + 1);
        d := d.(offerReceivedToWithdrawn := d.offerReceivedToWithdrawn + 1);
      } else if hasInterviews {
        d := d.(appliedToInterviewing := d.appliedToInterviewing + 1);
        d := d.(interviewingToWithdrawn := d.interviewingToWithdrawn + 1);
      } else {
        d := d.(appliedToWithdrawn := d.appliedToWithdrawn + 1);
      }
    }
    BumpPathShort(c, ClientPath(SnapshotOf(job)));
  }

  /** The chain of `links.push` calls, one per positive counter, Pending last. */
  method EmitLinks(c: Counters) returns (links: seq<Link>)
    ensures links == ClientLinks(c)
  {
    links := [];
    links := PushIfPositive(links, Applied, Interviewing, c.appliedToInterviewing, c, 1);
    links := PushIfPositive(links, Applied, Rejected, c.appliedToRejected, c, 2);
    links := PushIfPositive(links, Applied, Withdrawn, c.appliedToWithdrawn, c, 3);
    links := PushIfPositive(links, Interviewing, OfferReceived, c.interviewingToOfferReceived, c, 4);
    links := PushIfPositive(links, Interviewing, Rejected, c.interviewingToRejected, c, 5);
    links := PushIfPositive(links, Interviewing, Withdrawn, c.interviewingToWithdrawn, c, 6);
    links := PushIfPositive(links, OfferReceived, Accepted, c.offerReceivedToAccepted, c, 7);
    links := PushIfPositive(links, OfferReceived, Rejected, c.offerReceivedToRejected, c, 8);
    links := PushIfPositive(links, OfferReceived, Withdrawn, c.offerReceivedToWithdrawn, c, 9);
    links := PushIfPositive(links, Applied, Pending, c.stillInApplied, c, 10);
  }

  /** `if (value > 0) links.push({ source, target, value })` for the `k`-th counter of
      the emission order. */
  method PushIfPositive(links: seq<Link>, s: Stage, t: Stage, value: int, ghost c: Counters, ghost k: nat)
    returns (links': seq<Link>)
    requires 1 <= k <= 10 && ClientEdgeOrder[k - 1] == (s, t) && value == EdgeValue(c, s, t)
    requires links == Emitted(c, k - 1)
    ensures links' == Emitted(c, k)
    ensures value > 0 ==> links' == links + [Link(s, t, value)]
    ensures value == 0 ==> links' == links
  {
    links' := links;
    if value > 0 {
      links' := links' + [Link(s, t, value)];
    }
  }

  /** The links the chart emits from the first `k` counters of the emission order. */
  function Emitted(c: Counters, k: nat): seq<Link>
    requires k <= |ClientEdgeOrder|
  {
    if k == 0 then []
    else
      var (s, u) := ClientEdgeOrder[k - 1];
      Emitted(c, k - 1) + Keep(Link(s, u, EdgeValue(c, s, u)))
  }

  lemma {:induction false} EmittedIsFiltered(c: Counters, k: nat)
    requires k <= |ClientEdgeOrder|
    ensures Emitted(c, k) == Positive(Table(ClientEdgeOrder, c)[..k])
  {
    if k > 0 {
      EmittedIsFiltered(c, k - 1);
      PositivePrefix(Table(ClientEdgeOrder, c), k);
    }
  }

  /** The pushes emit exactly the table of the ten counters with the zeros filtered
      out, in table order. */
  lemma ClientLinksFiltered(c: Counters)
    ensures ClientLinks(c) == Positive(Table(ClientEdgeOrder, c))
  {
    EmittedIsFiltered(c, 10);
    assert Table(ClientEdgeOrder, c)[..10] == Table(ClientEdgeOrder, c);
  }

  // ---------------------------------------------------------------------------
  // What one job adds

  /** Counting one more job raises exactly the links of its inferred path. */
  lemma ClientAdds(jobs: seq<J.Job>, j: J.Job)
    ensures Adds(ClientCounts(jobs), ClientCounts(jobs + [j]), Hops(ClientPath(SnapshotOf(j))))
  {
    CountsAppend(jobs, j, ClientPath);
    BumpPathAdds(ClientCounts(jobs), ClientPath(SnapshotOf(j)));
  }

  /** A job still at Applied raises only the Applied to Pending link. */
  lemma AppliedAddsOnlyPending(jobs: seq<J.Job>, j: J.Job)
    requires j.status == J.Applied
    ensures Adds(ClientCounts(jobs), ClientCounts(jobs + [j]), [(Applied, Pending)])
  {
    ClientAdds(jobs, j);
    HopsShort(ClientPath(SnapshotOf(j)));
    assert Hops(ClientPath(SnapshotOf(j))) == [(Applied, Pending)];
  }

  /** An Accepted job raises the three links of the successful path and nothing else. */
  lemma AcceptedAddsSuccessPath(jobs: seq<J.Job>, j: J.Job)
    requires j.status == J.Accepted
    ensures Adds(ClientCounts(jobs), ClientCounts(jobs + [j]),
                 [(Applied, Interviewing), (Interviewing, OfferReceived), (OfferReceived, Accepted)])
  {
    ClientAdds(jobs, j);
    HopsShort(ClientPath(SnapshotOf(j)));
    assert Hops(ClientPath(SnapshotOf(j)))
        == [(Applied, Interviewing), (Interviewing, OfferReceived), (OfferReceived, Accepted)];
  }

  /** For a Rejected job offer evidence wins over interview evidence; with neither the
      job only raises Applied to Rejected. */
  lemma RejectedOfferFirst(jobs: seq<J.Job>, j: J.Job)
    requires j.status == J.Rejected
    ensures J.OfferEvidence(j) ==> Adds(ClientCounts(jobs), ClientCounts(jobs + [j]),
              [(Applied, Interviewing), (Interviewing, OfferReceived), (OfferReceived, Rejected)])
    ensures !J.OfferEvidence(j) && J.InterviewEvidence(j) ==> Adds(ClientCounts(jobs), ClientCounts(jobs + [j]),
              [(Applied, Interviewing), (Interviewing, Rejected)])
    ensures !J.OfferEvidence(j) && !J.InterviewEvidence(j) ==> Adds(ClientCounts(jobs), ClientCounts(jobs + [j]),
              [(Applied, Rejected)])
  {
    ClientAdds(jobs, j);
    HopsShort(ClientPath(SnapshotOf(j)));
    var h := Hops(ClientPath(SnapshotOf(j)));
    if J.OfferEvidence(j) {
      assert h == [(Applied, Interviewing), (Interviewing, OfferReceived), (OfferReceived, Rejected)];
    } else if J.InterviewEvidence(j) {
      assert h == [(Applied, Interviewing), (Interviewing, Rejected)];
    } else {
      assert h == [(Applied, Rejected)];
    }
  }

  /** Withdrawn takes the same three-way branch, ending at Withdrawn. */
  lemma WithdrawnOfferFirst(jobs: seq<J.Job>, j: J.Job)
    requires j.status == J.Withdrawn
    ensures J.OfferEvidence(j) ==> Adds(ClientCounts(jobs), ClientCounts(jobs + [j]),
              [(Applied, Interviewing), (Interviewing, OfferReceived), (OfferReceived, Withdrawn)])
    ensures !J.OfferEvidence(j) && J.InterviewEvidence(j) ==> Adds(ClientCounts(jobs), ClientCounts(jobs + [j]),
              [(Applied, Interviewing), (Interviewing, Withdrawn)])
    ensures !J.OfferEvidence(j) && !J.InterviewEvidence(j) ==> Adds(ClientCounts(jobs), ClientCounts(jobs + [j]),
              [(Applied, Withdrawn)])
  {
    ClientAdds(jobs, j);
    HopsShort(ClientPath(SnapshotOf(j)));
    var h := Hops(ClientPath(SnapshotOf(j)));
    if J.OfferEvidence(j) {
      assert h == [(Applied, Interviewing), (Interviewing, OfferReceived), (OfferReceived, Withdrawn)];
    } else if J.InterviewEvidence(j) {
      assert h == [(Applied, Interviewing), (Interviewing, Withdrawn)];
    } else {
      assert h == [(Applied, Withdrawn)];
    }
  }

  /** A Not Applied job changes no counter. */
  lemma UntrackedAddsNothing(jobs: seq<J.Job>, j: J.Job)
    requires j.status == J.NotApplied
    ensures ClientCounts(jobs + [j]) == ClientCounts(jobs)
  {
    CountsAppend(jobs, j, ClientPath);
  }

  // ---------------------------------------------------------------------------
  // Conservation

  /** The steps of one inferred path: one step out of Applied for a tracked job, and a
      step out of Interviewing (Offer Received) for every step into it, except for the
      job that stops there. */
  lemma PathBalance(x: Snapshot)
    ensures var h := Hops(ClientPath(x));
      Occurrences(h, (Applied, Interviewing)) + Occurrences(h, (Applied, Rejected)) + Occurrences(h, (Applied, Withdrawn))
        + Occurrences(h, (Applied, Pending)) == (if x.status != J.NotApplied then 1 else 0)
      && Occurrences(h, (Applied, Interviewing)) - Occurrences(h, (Interviewing, OfferReceived))
        - Occurrences(h, (Interviewing, Rejected)) - Occurrences(h, (Interviewing, Withdrawn))
         == (if x.status == J.Interviewing then 1 else 0)
      && Occurrences(h, (Interviewing, OfferReceived)) - Occurrences(h, (OfferReceived, Accepted))
        - Occurrences(h, (OfferReceived, Rejected)) - Occurrences(h, (OfferReceived, Withdrawn))
         == (if x.status == J.OfferReceived then 1 else 0)
  {
    var h := Hops(ClientPath(x));
    HopsShort(ClientPath(x));
    forall e { OccurrencesShort(h, e); }
    if x.status.Applied? {
      assert h == [(Applied, Pending)];
    } else if x.status.Interviewing? {
      assert h == [(Applied, Interviewing)];
    } else if x.status.OfferReceived? {
      assert h == [(Applied, Interviewing), (Interviewing, OfferReceived)];
    } else if x.status.Accepted? {
      assert h == [(Applied, Interviewing), (Interviewing, OfferReceived), (OfferReceived, Accepted)];
    } else if x.status.Rejected? {
      if x.hasOffer {
        assert h == [(Applied, Interviewing), (Interviewing, OfferReceived), (OfferReceived, Rejected)];
      } else if x.hasInterviews {
        assert h == [(Applied, Interviewing), (Interviewing, Rejected)];
      } else {
        assert h == [(Applied, Rejected)];
      }
    } else if x.status.Withdrawn? {
      if x.hasOffer {
        assert h == [(Applied, Interviewing), (Interviewing, OfferReceived), (OfferReceived, Withdrawn)];
      } else if x.hasInterviews {
        assert h == [(Applied, Interviewing), (Interviewing, Withdrawn)];
      } else {
        assert h == [(Applied, Withdrawn)];
      }
    } else {
      assert h == [];
    }
  }

  /** Counting one job along its client path keeps the three balances. */
  lemma StepBalance(c: Counters, d: Counters, x: Snapshot)
    requires Adds(c, d, Hops(ClientPath(x)))
    ensures OutOfApplied(d) == OutOfApplied(c) + (if x.status != J.NotApplied then 1 else 0)
    ensures d.appliedToInterviewing - OutOfInterviewing(d) - (if x.status == J.Interviewing then 1 else 0)
         == c.appliedToInterviewing - OutOfInterviewing(c)
    ensures d.interviewingToOfferReceived - OutOfOffer(d) - (if x.status == J.OfferReceived then 1 else 0)
         == c.interviewingToOfferReceived - OutOfOffer(c)
  {
    AddsFields(c, d, Hops(ClientPath(x)));
    PathBalance(x);
  }

  /** Counting the last job of a list raises exactly the links of its path. */
  lemma ClientAddsLast(jobs: seq<J.Job>)
    requires jobs != []
    ensures Adds(ClientCounts(jobs[..|jobs| - 1]), ClientCounts(jobs),
                 Hops(ClientPath(SnapshotOf(jobs[|jobs| - 1]))))
  {
    BumpPathAdds(ClientCounts(jobs[..|jobs| - 1]), ClientPath(SnapshotOf(jobs[|jobs| - 1])));
  }

  /** The balances of a list follow from those of the list without its last job. */
  lemma BalancedLast(jobs: seq<J.Job>)
    requires jobs != []
    requires var init := jobs[..|jobs| - 1];
      Balanced(ClientCounts(init), TrackedCount(init),
               StatusCount(init, J.Interviewing), StatusCount(init, J.OfferReceived))
    ensures Balanced(ClientCounts(jobs), TrackedCount(jobs),
                     StatusCount(jobs, J.Interviewing), StatusCount(jobs, J.OfferReceived))
  {
    ClientAddsLast(jobs);
    StepBalance(ClientCounts(jobs[..|jobs| - 1]), ClientCounts(jobs), SnapshotOf(jobs[|jobs| - 1]));
  }

  /** The client counters of any job list are balanced. */
  lemma {:induction false} ClientFlowBalance(jobs: seq<J.Job>)
    ensures Balanced(ClientCounts(jobs), TrackedCount(jobs),
                     StatusCount(jobs, J.Interviewing), StatusCount(jobs, J.OfferReceived))
    decreases |jobs|
  {
    if jobs != [] {
      ClientFlowBalance(jobs[..|jobs| - 1]);
      BalancedLast(jobs);
    }
  }

  lemma {:induction false} ClientCountsNonNegative(jobs: seq<J.Job>)
    ensures NonNegative(ClientCounts(jobs))
    decreases |jobs|
  {
    if jobs != [] {
      ClientCountsNonNegative(jobs[..|jobs| - 1]);
      ClientAddsLast(jobs);
      AddsNonNegative(ClientCounts(jobs[..|jobs| - 1]), ClientCounts(jobs),
                      Hops(ClientPath(SnapshotOf(jobs[|jobs| - 1]))));
    }
  }

  /** Balanced, non-negative counters have a positive link exactly when some job is
      tracked: every link leads back to a step out of Applied. */
  lemma SomeLinkIffTracked(c: Counters, tracked: int, interviewing: int, offered: int)
    requires Balanced(c, tracked, interviewing, offered) && NonNegative(c)
    requires interviewing >= 0 && offered >= 0
    ensures (exists i :: 0 <= i < |ClientEdgeOrder|
               && EdgeValue(c, ClientEdgeOrder[i].0, ClientEdgeOrder[i].1) > 0)
        <==> tracked > 0
  {
    if tracked > 0 {
      var i := if c.appliedToInterviewing > 0 then 0
               else if c.appliedToRejected > 0 then 1
               else if c.appliedToWithdrawn > 0 then 2
               else 9;
      assert EdgeValue(c, ClientEdgeOrder[i].0, ClientEdgeOrder[i].1) > 0;
    } else {
      forall i | 0 <= i < |ClientEdgeOrder|
        ensures EdgeValue(c, ClientEdgeOrder[i].0, ClientEdgeOrder[i].1) <= 0
      {
      }
    }
  }

  /** The chart has data exactly when some job has one of the six tracked statuses. */
  lemma HasDataIffTracked(jobs: seq<J.Job>)
    ensures HasData(ClientLinks(ClientCounts(jobs))) <==> TrackedCount(jobs) > 0
  {
    var c := ClientCounts(jobs);
    ClientLinksFiltered(c);
    PositiveTable(ClientEdgeOrder, c);
    ClientFlowBalance(jobs);
    ClientCountsNonNegative(jobs);
    StatusCountNonNegative(jobs, J.Interviewing);
    StatusCountNonNegative(jobs, J.OfferReceived);
    SomeLinkIffTracked(c, TrackedCount(jobs), StatusCount(jobs, J.Interviewing),
                       StatusCount(jobs, J.OfferReceived));
  }

  /** When jobs are still at Applied, the Pending link is the last one emitted. */
  lemma PendingLast(c: Counters)
    requires c.stillInApplied > 0
    ensures var links := ClientLinks(c);
      |links| > 0 && links[|links| - 1] == Link(Applied, Pending, c.stillInApplied)
  {
  }
}
