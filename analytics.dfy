/** The analytics controller (server/src/controllers/analytics.js): the Sankey data of
    `getSankeyData`, built by incrementing the values of a fixed table of nine links in
    place, filtering out the zeros and substituting sample links when nothing is left;
    and the "YYYY-MM" labels of the applications-by-month series. */
module Analytics {
  import J = JobModel
  import opened Common
  import opened FlowGraph

  /** The six fixed stages; the server has no Pending node. */
  const ServerNodes: seq<Stage> := [Applied, Interviewing, OfferReceived, Accepted, Rejected, Withdrawn]

  /** The path the controller infers for a job. A job at Applied takes no step; for
      Rejected, interview evidence is checked first and the offer only matters when
      there were interviews; Withdrawn checks the offer first. */
  function ServerPath(x: Snapshot): seq<Stage> {
    if x.status.Applied? then []
    else if x.status.Interviewing? then [Applied, Interviewing]
    else if x.status.OfferReceived? then [Applied, Interviewing, OfferReceived]
    else if x.status.Accepted? then [Applied, Interviewing, OfferReceived, Accepted]
    else if x.status.Rejected? then
      (if x.hasInterviews then
         (if x.hasOffer then [Applied, Interviewing, OfferReceived, Rejected]
          else [Applied, Interviewing, Rejected])
       else [Applied, Rejected])
    else if x.status.Withdrawn? then
      (if x.hasOffer then [Applied, Interviewing, OfferReceived, Withdrawn]
       else if x.hasInterviews then [Applied, Interviewing, Withdrawn]
       else [Applied, Withdrawn])
    else []
  }

  function ServerCounts(jobs: seq<J.Job>): Counters {
    Counts(jobs, ServerPath)
  }

  /** The hard-coded links returned when no link is positive. */
  const SampleLinks: seq<Link> :=
    [Link(Applied, Interviewing, 5), Link(Applied, Rejected, 3),
     Link(Interviewing, OfferReceived, 3), Link(Interviewing, Rejected, 2),
     Link(OfferReceived, Accepted, 2), Link(OfferReceived, Withdrawn, 1)]

  /** The links of the response: the positive links of the table in table order, or
      the sample links when there are none. */
  function ServerLinks(c: Counters): seq<Link> {
    var nonZero := Positive(Table(ServerEdgeOrder, c));
    if |nonZero| == 0 then SampleLinks else nonZero
  }

  /** `getSankeyData` once the jobs are loaded. */
  method GetSankeyData(jobs: seq<J.Job>) returns (nodes: seq<Stage>, links: seq<Link>)
    ensures nodes == ServerNodes
    ensures links == ServerLinks(ServerCounts(jobs))
  {
    nodes := [Applied, Interviewing, OfferReceived, Accepted, Rejected, Withdrawn];
    var table := new Link[9] [Link(Applied, Interviewing, 0), Link(Applied, Rejected, 0),
                              Link(Applied, Withdrawn, 0), Link(Interviewing, OfferReceived, 0),
                              Link(Interviewing, Rejected, 0), Link(Interviewing, Withdrawn, 0),
                              Link(OfferReceived, Accepted, 0), Link(OfferReceived, Rejected, 0),
                              Link(OfferReceived, Withdrawn, 0)];
    InitialTable(table[..]);
    for i := 0 to |jobs|
      invariant table[..] == Table(ServerEdgeOrder, ServerCounts(jobs[..i]))
    {
      CountServerJob(table, ServerCounts(jobs[..i]), jobs[i]);
      assert jobs[..i + 1][..i] == jobs[..i];
    }
    assert jobs[..|jobs|] == jobs;
    var nonZero := Positive(table[..]);
    if |nonZero| == 0 {
      nonZero := SampleLinks;
    }
    links := nonZero;
  }

  /** The initial table is the nine links at zero, in table order. */
  lemma InitialTable(t: seq<Link>)
    requires t == [Link(Applied, Interviewing, 0), Link(Applied, Rejected, 0),
                   Link(Applied, Withdrawn, 0), Link(Interviewing, OfferReceived, 0),
                   Link(Interviewing, Rejected, 0), Link(Interviewing, Withdrawn, 0),
                   Link(OfferReceived, Accepted, 0), Link(OfferReceived, Rejected, 0),
                   Link(OfferReceived, Withdrawn, 0)]
    ensures t == Table(ServerEdgeOrder, Zero)
  {
    var z := Table(ServerEdgeOrder, Zero);
    forall i | 0 <= i < 9
      ensures t[i] == z[i]
    {
    }
  }

  /** The body of `jobs.forEach`: the status if-chain, one increment per step. */
  method CountServerJob(table: array<Link>, ghost c: Counters, job: J.Job)
    requires table[..] == Table(ServerEdgeOrder, c)
    modifies table
    ensures table[..] == Table(ServerEdgeOrder, BumpPath(c, ServerPath(SnapshotOf(job))))
  {
    ghost var d := c;
    var hasInterviews := |job.interviews| > 0;
    var hasOffer := job.offer.Some? && job.offer.value.baseSalary.Some? && job.offer.value.baseSalary.value != 0.0;
    if job.status == J.Applied {
    } else if job.status == J.Interviewing {
      d := Increment(table, Applied, Interviewing, d);
    } else if job.status == J.OfferReceived {
      d := Increment(table, Applied, Interviewing, d);
      d := Increment(table, Interviewing, OfferReceived, d);
    } else if job.status == J.Accepted {
      d := Increment(table, Applied, Interviewing, d);
      d := Increment(table, Interviewing, OfferReceived, d);
      d := Increment(table, OfferReceived, Accepted, d);
    } else if job.status == J.Rejected {
      if hasInterviews {
        if hasOffer {
          d := Increment(table, Applied, Interviewing, d);
          d := Increment(table, Interviewing, OfferReceived, d);
          d := Increment(table, OfferReceived, Rejected, d);
        } else {
          d := Increment(table, Applied, Interviewing, d);
          d := Increment(table, Interviewing, Rejected, d);
        }
      } else {
        d := Increment(table, Applied, Rejected, d);
      }
    } else if job.status == J.Withdrawn {
      if hasOffer {
        d := Increment(table, Applied, Interviewing, d);
        d := Increment(table, Interviewing, OfferReceived, d);
        d := Increment(table, OfferReceived, Withdrawn, d);
      } else if hasInterviews {
        d := Increment(table, Applied, Interviewing, d);
        d := Increment(table, Interviewing, Withdrawn, d);
      } else {
        d := Increment(table, Applied, Withdrawn, d);
      }
    }
    BumpPathShort(c, ServerPath(SnapshotOf(job)));
  }

  /** `links.find(l => l.source === s && l.target === t).value++`; the ghost result is
      the counters the table now stands for. */
  method Increment(table: array<Link>, s: Stage, t: Stage, ghost c: Counters) returns (ghost d: Counters)
    requires (s, t) in ServerEdgeOrder
    requires table[..] == Table(ServerEdgeOrder, c)
    modifies table
    ensures d == Bump(c, s, t)
    ensures table[..] == Table(ServerEdgeOrder, d)
  {
    var i := FindLink(table, s, t);
    table[i] := table[i].(value := table[i].value + 1);
    d := Bump(c, s, t);
    TableAfterBump(c, s, t, i);
  }

  /** `links.find`: the first link of the table from `s` to `t`. */
  method FindLink(table: array<Link>, s: Stage, t: Stage) returns (i: int)
    requires exists k :: 0 <= k < table.Length && table[k].source == s && table[k].target == t
    ensures 0 <= i < table.Length && table[i].source == s && table[i].target == t
    ensures forall k :: 0 <= k < i ==> !(table[k].source == s && table[k].target == t)
  {
    i := 0;
    while !(table[i].source == s && table[i].target == t)
      invariant 0 <= i < table.Length
      invariant exists k :: i <= k < table.Length && table[k].source == s && table[k].target == t
      invariant forall k :: 0 <= k < i ==> !(table[k].source == s && table[k].target == t)
      decreases table.Length - i
    {
      i := i + 1;
    }
  }

  /** The nine pairs of the server table are distinct. */
  lemma ServerOrderDistinct(i: int, k: int)
    requires 0 <= i < 9 && 0 <= k < 9 && i != k
    ensures ServerEdgeOrder[i] != ServerEdgeOrder[k]
  {
  }

  /** Bumping the counter of the pair at index `i` raises exactly the value of the
      `i`-th link of the table. */
  lemma TableAfterBump(c: Counters, s: Stage, t: Stage, i: int)
    requires 0 <= i < 9 && ServerEdgeOrder[i] == (s, t)
    ensures Table(ServerEdgeOrder, Bump(c, s, t))
         == Table(ServerEdgeOrder, c)[i := Table(ServerEdgeOrder, c)[i].(value := Table(ServerEdgeOrder, c)[i].value + 1)]
  {
    var before, after := Table(ServerEdgeOrder, c), Table(ServerEdgeOrder, Bump(c, s, t));
    BumpEdges(c, s, t);
    assert IsEdge(s, t);
    forall k | 0 <= k < 9
      ensures after[k] == before[i := before[i].(value := before[i].value + 1)][k]
    {
      if k != i {
        ServerOrderDistinct(i, k);
      }
    }
  }

  // ---------------------------------------------------------------------------
  // What one job adds

  lemma ServerAdds(jobs: seq<J.Job>, j: J.Job)
    ensures Adds(ServerCounts(jobs), ServerCounts(jobs + [j]), Hops(ServerPath(SnapshotOf(j))))
  {
    CountsAppend(jobs, j, ServerPath);
    BumpPathAdds(ServerCounts(jobs), ServerPath(SnapshotOf(j)));
  }

  /** Counting the last job of a list raises exactly the links of its path. */
  lemma ServerAddsLast(jobs: seq<J.Job>)
    requires jobs != []
    ensures Adds(ServerCounts(jobs[..|jobs| - 1]), ServerCounts(jobs),
                 Hops(ServerPath(SnapshotOf(jobs[|jobs| - 1]))))
  {
    BumpPathAdds(ServerCounts(jobs[..|jobs| - 1]), ServerPath(SnapshotOf(jobs[|jobs| - 1])));
  }

  lemma {:induction false} ServerCountsNonNegative(jobs: seq<J.Job>)
    ensures NonNegative(ServerCounts(jobs))
    decreases |jobs|
  {
    if jobs != [] {
      ServerCountsNonNegative(jobs[..|jobs| - 1]);
      ServerAddsLast(jobs);
      AddsNonNegative(ServerCounts(jobs[..|jobs| - 1]), ServerCounts(jobs),
                      Hops(ServerPath(SnapshotOf(jobs[|jobs| - 1]))));
    }
  }

  /** A job at Applied changes no counter. */
  lemma AppliedChangesNothing(jobs: seq<J.Job>, j: J.Job)
    requires j.status == J.Applied
    ensures ServerCounts(jobs + [j]) == ServerCounts(jobs)
  {
    CountsAppend(jobs, j, ServerPath);
  }

  /** For a Rejected job interview evidence is checked first: without interviews the
      job raises Applied to Rejected even when it has an offer. */
  lemma RejectedInterviewsFirst(jobs: seq<J.Job>, j: J.Job)
    requires j.status == J.Rejected
    ensures !J.InterviewEvidence(j) ==> Adds(ServerCounts(jobs), ServerCounts(jobs + [j]),
              [(Applied, Rejected)])
    ensures J.InterviewEvidence(j) && J.OfferEvidence(j) ==> Adds(ServerCounts(jobs), ServerCounts(jobs + [j]),
              [(Applied, Interviewing), (Interviewing, OfferReceived), (OfferReceived, Rejected)])
    ensures J.InterviewEvidence(j) && !J.OfferEvidence(j) ==> Adds(ServerCounts(jobs), ServerCounts(jobs + [j]),
              [(Applied, Interviewing), (Interviewing, Rejected)])
  {
    ServerAdds(jobs, j);
    HopsShort(ServerPath(SnapshotOf(j)));
    var h := Hops(ServerPath(SnapshotOf(j)));
    if !J.InterviewEvidence(j) {
      assert h == [(Applied, Rejected)];
    } else if J.OfferEvidence(j) {
      assert h == [(Applied, Interviewing), (Interviewing, OfferReceived), (OfferReceived, Rejected)];
    } else {
      assert h == [(Applied, Interviewing), (Interviewing, Rejected)];
    }
  }

  /** Withdrawn checks the offer first, then interviews, then falls back to Applied to
      Withdrawn. */
  lemma WithdrawnOfferFirst(jobs: seq<J.Job>, j: J.Job)
    requires j.status == J.Withdrawn
    ensures J.OfferEvidence(j) ==> Adds(ServerCounts(jobs), ServerCounts(jobs + [j]),
              [(Applied, Interviewing), (Interviewing, OfferReceived), (OfferReceived, Withdrawn)])
    ensures !J.OfferEvidence(j) && J.InterviewEvidence(j) ==> Adds(ServerCounts(jobs), ServerCounts(jobs + [j]),
              [(Applied, Interviewing), (Interviewing, Withdrawn)])
    ensures !J.OfferEvidence(j) && !J.InterviewEvidence(j) ==> Adds(ServerCounts(jobs), ServerCounts(jobs + [j]),
              [(Applied, Withdrawn)])
  {
    ServerAdds(jobs, j);
    HopsShort(ServerPath(SnapshotOf(j)));
    var h := Hops(ServerPath(SnapshotOf(j)));
    if J.OfferEvidence(j) {
      assert h == [(Applied, Interviewing), (Interviewing, OfferReceived), (OfferReceived, Withdrawn)];
    } else if J.InterviewEvidence(j) {
      assert h == [(Applied, Interviewing), (Interviewing, Withdrawn)];
    } else {
      assert h == [(Applied, Withdrawn)];
    }
  }

  /** No server path steps to Pending. */
  lemma ServerPathNoPending(x: Snapshot)
    ensures Occurrences(Hops(ServerPath(x)), (Applied, Pending)) == 0
  {
    var h := Hops(ServerPath(x));
    HopsShort(ServerPath(x));
    OccurrencesShort(h, (Applied, Pending));
  }

  /** The server never raises the Applied to Pending counter. */
  lemma {:induction false} NoPendingCount(jobs: seq<J.Job>)
    ensures ServerCounts(jobs).stillInApplied == 0
    decreases |jobs|
  {
    if jobs != [] {
      NoPendingCount(jobs[..|jobs| - 1]);
      ServerAddsLast(jobs);
      ServerPathNoPending(SnapshotOf(jobs[|jobs| - 1]));
      assert IsEdge(Applied, Pending);
    }
  }

  // ---------------------------------------------------------------------------
  // The response links

  /** With some positive link, the response is exactly the positive links of the
      table, in table order. */
  lemma NonZeroLinksKept(c: Counters)
    requires exists l :: l in Table(ServerEdgeOrder, c) && l.value > 0
    ensures ServerLinks(c) == Positive(Table(ServerEdgeOrder, c))
    ensures forall l :: l in ServerLinks(c) <==> l in Table(ServerEdgeOrder, c) && l.value > 0
  {
    PositiveMembers(Table(ServerEdgeOrder, c));
    var l :| l in Table(ServerEdgeOrder, c) && l.value > 0;
    assert l in Positive(Table(ServerEdgeOrder, c));
  }

  /** With no positive link, the response is exactly the sample links. */
  lemma SampleWhenNothingPositive(c: Counters)
    requires forall l :: l in Table(ServerEdgeOrder, c) ==> l.value <= 0
    ensures ServerLinks(c) == SampleLinks
  {
    NothingPositive(Table(ServerEdgeOrder, c));
  }

  // ---------------------------------------------------------------------------
  // Month labels

  /** One group of the applications-by-month aggregation: `$year`, `$month` (1 to 12)
      and the count. */
  datatype MonthCount = MonthCount(year: nat, month: nat, count: nat)

  datatype MonthPoint = MonthPoint(date: string, count: nat)

  /** `${year}-${month.toString().padStart(2, '0')}`. */
  function MonthLabel(year: nat, month: nat): string {
    NatToString(year) + "-" + PadStart(NatToString(month), 2, '0')
  }

  /** Reads a label back: the digits before the last three characters are the year,
      the last two the month. */
  function ParseMonthLabel(text: string): Option<(nat, nat)> {
    if |text| < 4 || text[|text| - 3] != '-' then None
    else Some((ParseDigits(text[..|text| - 3]), ParseDigits(text[|text| - 2..])))
  }

  /** The month part of a label: two digits that read back as the month. */
  lemma PaddedMonth(month: nat)
    requires 1 <= month <= 12
    ensures var m := PadStart(NatToString(month), 2, '0');
      |m| == 2 && '0' <= m[0] <= '9' && '0' <= m[1] <= '9' && ParseDigits(m) == month
  {
    var m := NatToString(month);
    ParseNatToString(month);
    if month < 10 {
      assert m == [DigitChar(month)];
      assert PadStart(m, 2, '0') == "0" + m;
      ParseLeadingZero(m);
    } else {
      assert m == NatToString(month / 10) + [DigitChar(month % 10)];
    }
  }

  /** Splitting `y + "-" + m` at the dash three characters from the end gives back
      `y` and `m`. */
  lemma LabelParts(y: string, m: string)
    requires |m| == 2
    ensures var text := y + "-" + m;
      |text| == |y| + 3 && text[|text| - 3] == '-'
      && text[..|text| - 3] == y && text[|text| - 2..] == m
  {
    var text := y + "-" + m;
    assert text[..|text| - 3] == y;
    assert text[|text| - 2..] == m;
  }

  /** A label is the year's digits, a dash and exactly two month digits, and it reads
      back as the year and month it was made from. */
  lemma MonthLabelRoundTrip(year: nat, month: nat)
    requires 1 <= month <= 12
    ensures var text := MonthLabel(year, month);
      |text| == |NatToString(year)| + 3
      && '0' <= text[|text| - 2] <= '9' && '0' <= text[|text| - 1] <= '9'
      && ParseMonthLabel(text) == Some((year, month))
  {
    var y, m := NatToString(year), PadStart(NatToString(month), 2, '0');
    PaddedMonth(month);
    LabelParts(y, m);
    ParseNatToString(year);
  }

  /** `applicationsByMonth.map(...)`: one labelled point per group, counts unchanged. */
  function ApplicationsByMonth(groups: seq<MonthCount>): (r: seq<MonthPoint>)
    ensures |r| == |groups|
    ensures forall i :: 0 <= i < |groups| ==>
      r[i] == MonthPoint(MonthLabel(groups[i].year, groups[i].month), groups[i].count)
  {
    seq(|groups|, i requires 0 <= i < |groups| =>
      MonthPoint(MonthLabel(groups[i].year, groups[i].month), groups[i].count))
  }
}
