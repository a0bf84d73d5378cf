/** Where the two copies of the flow reconstruction disagree: the client sends a job
    still at Applied to Pending where the server counts nothing, and a Rejected job
    with an offer but no recorded interviews takes the offer path on the client and the
    direct Applied to Rejected link on the server. Everything else is counted alike. */
module FlowComparison {
  import J = JobModel
  import opened FlowGraph
  import opened SankeyChart
  import opened Analytics

  /** A Rejected job with offer evidence but no interview evidence. */
  predicate Divergent(x: Snapshot) {
    x.status.Rejected? && x.hasOffer && !x.hasInterviews
  }

  /** The two inferred paths differ exactly for jobs at Applied and divergent jobs. */
  lemma PathsDiffer(x: Snapshot)
    ensures ClientPath(x) != ServerPath(x) <==> x.status.Applied? || Divergent(x)
  {
  }

  /** The number of divergent jobs of a list. */
  function DivergentCount(jobs: seq<J.Job>): int
    decreases |jobs|
  {
    if jobs == [] then 0
    else DivergentCount(jobs[..|jobs| - 1]) + if Divergent(SnapshotOf(jobs[|jobs| - 1])) then 1 else 0
  }

  /** How many more times the client path of `x` crosses `e` than the server path. */
  function Delta(x: Snapshot, e: (Stage, Stage)): int {
    if x.status.Applied? then Is((Applied, Pending), e)
    else if Divergent(x) then
      Is((Applied, Interviewing), e) + Is((Interviewing, OfferReceived), e)
        + Is((OfferReceived, Rejected), e) - Is((Applied, Rejected), e)
    else 0
  }

  lemma PathDelta(x: Snapshot, e: (Stage, Stage))
    ensures Occurrences(Hops(ClientPath(x)), e) - Occurrences(Hops(ServerPath(x)), e) == Delta(x, e)
  {
    HopsShort(ClientPath(x));
    HopsShort(ServerPath(x));
    OccurrencesShort(Hops(ClientPath(x)), e);
    OccurrencesShort(Hops(ServerPath(x)), e);
  }

  /** The server counters against the client counters, given the number of jobs at
      Applied and the number of divergent jobs. */
  predicate Related(client: Counters, server: Counters, applied: int, divergent: int) {
    server.appliedToInterviewing == client.appliedToInterviewing - divergent
    && server.appliedToRejected == client.appliedToRejected + divergent
    && server.appliedToWithdrawn == client.appliedToWithdrawn
    && server.interviewingToOfferReceived == client.interviewingToOfferReceived - divergent
    && server.interviewingToRejected == client.interviewingToRejected
    && server.interviewingToWithdrawn == client.interviewingToWithdrawn
    && server.offerReceivedToAccepted == client.offerReceivedToAccepted
    && server.offerReceivedToRejected == client.offerReceivedToRejected - divergent
    && server.offerReceivedToWithdrawn == client.offerReceivedToWithdrawn
    && server.stillInApplied == 0 && client.stillInApplied == applied
  }

  /** Counting one more job on both sides keeps the relation. */
  lemma StepRelated(c: Counters, c': Counters, s: Counters, s': Counters, x: Snapshot,
                    applied: int, divergent: int)
    requires Adds(c, c', Hops(ClientPath(x))) && Adds(s, s', Hops(ServerPath(x)))
    requires Related(c, s, applied, divergent)
    ensures Related(c', s', applied + (if x.status.Applied? then 1 else 0),
                    divergent + (if Divergent(x) then 1 else 0))
  {
    AddsFields(c, c', Hops(ClientPath(x)));
    AddsFields(s, s', Hops(ServerPath(x)));
    ServerPathNoPending(x);
    PathDelta(x, (Applied, Interviewing));
    PathDelta(x, (Applied, Rejected));
    PathDelta(x, (Applied, Withdrawn));
    PathDelta(x, (Interviewing, OfferReceived));
    PathDelta(x, (Interviewing, Rejected));
    PathDelta(x, (Interviewing, Withdrawn));
    PathDelta(x, (OfferReceived, Accepted));
    PathDelta(x, (OfferReceived, Rejected));
    PathDelta(x, (OfferReceived, Withdrawn));
    PathDelta(x, (Applied, Pending));
  }

  lemma RelatedLast(jobs: seq<J.Job>)
    requires jobs != []
    requires var init := jobs[..|jobs| - 1];
      Related(ClientCounts(init), ServerCounts(init), StatusCount(init, J.Applied), DivergentCount(init))
    ensures Related(ClientCounts(jobs), ServerCounts(jobs), StatusCount(jobs, J.Applied), DivergentCount(jobs))
  {
    var init := jobs[..|jobs| - 1];
    ClientAddsLast(jobs);
    ServerAddsLast(jobs);
    StepRelated(ClientCounts(init), ClientCounts(jobs), ServerCounts(init), ServerCounts(jobs),
                SnapshotOf(jobs[|jobs| - 1]), StatusCount(init, J.Applied), DivergentCount(init));
  }

  /** Over any job list, the server counters are the client counters with the Pending
      counter zeroed and every divergent job moved from the offer path to the direct
      Applied to Rejected link. */
  lemma {:induction false} CountsRelated(jobs: seq<J.Job>)
    ensures Related(ClientCounts(jobs), ServerCounts(jobs), StatusCount(jobs, J.Applied), DivergentCount(jobs))
    decreases |jobs|
  {
    if jobs != [] {
      CountsRelated(jobs[..|jobs| - 1]);
      RelatedLast(jobs);
    }
  }

  /** The server flow keeps the same conservation laws, with the jobs at Applied left
      out of the steps leaving Applied. */
  lemma ServerFlowBalance(jobs: seq<J.Job>)
    ensures Balanced(ServerCounts(jobs), TrackedCount(jobs) - StatusCount(jobs, J.Applied),
                     StatusCount(jobs, J.Interviewing), StatusCount(jobs, J.OfferReceived))
  {
    ClientFlowBalance(jobs);
    CountsRelated(jobs);
  }

  /** Balanced, non-negative server counters have a positive link exactly when some job
      has moved past Applied. */
  lemma ServerSomeLinkIffProgress(c: Counters, moved: int, interviewing: int, offered: int)
    requires Balanced(c, moved, interviewing, offered) && NonNegative(c) && c.stillInApplied == 0
    requires interviewing >= 0 && offered >= 0
    ensures (exists i :: 0 <= i < |ServerEdgeOrder|
               && EdgeValue(c, ServerEdgeOrder[i].0, ServerEdgeOrder[i].1) > 0)
        <==> moved > 0
  {
    if moved > 0 {
      var i := if c.appliedToInterviewing > 0 then 0
               else if c.appliedToRejected > 0 then 1
               else 2;
      assert EdgeValue(c, ServerEdgeOrder[i].0, ServerEdgeOrder[i].1) > 0;
    } else {
      forall i | 0 <= i < |ServerEdgeOrder|
        ensures EdgeValue(c, ServerEdgeOrder[i].0, ServerEdgeOrder[i].1) <= 0
      {
      }
    }
  }

  /** On balanced, non-negative counters the server answers with its positive links
      when some job moved past Applied and with the sample links otherwise. */
  lemma ServerLinksByProgress(c: Counters, moved: int, interviewing: int, offered: int)
    requires Balanced(c, moved, interviewing, offered) && NonNegative(c) && c.stillInApplied == 0
    requires interviewing >= 0 && offered >= 0
    ensures ServerLinks(c) == if moved > 0 then Positive(Table(ServerEdgeOrder, c)) else SampleLinks
  {
    ServerSomeLinkIffProgress(c, moved, interviewing, offered);
    PositiveTable(ServerEdgeOrder, c);
    if moved <= 0 {
      NothingPositive(Table(ServerEdgeOrder, c));
    }
  }

  /** The server answers with the sample links exactly when no job has moved past
      Applied (every job is at Applied or Not Applied); otherwise with its positive
      links. */
  lemma SampleIffNoProgress(jobs: seq<J.Job>)
    ensures var c := ServerCounts(jobs);
      ServerLinks(c) == if TrackedCount(jobs) - StatusCount(jobs, J.Applied) > 0
                        then Positive(Table(ServerEdgeOrder, c)) else SampleLinks
  {
    ServerFlowBalance(jobs);
    ServerCountsNonNegative(jobs);
    NoPendingCount(jobs);
    StatusCountNonNegative(jobs, J.Interviewing);
    StatusCountNonNegative(jobs, J.OfferReceived);
    ServerLinksByProgress(ServerCounts(jobs), TrackedCount(jobs) - StatusCount(jobs, J.Applied),
                          StatusCount(jobs, J.Interviewing), StatusCount(jobs, J.OfferReceived));
  }
}
