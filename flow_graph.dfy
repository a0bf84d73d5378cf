/** The application-flow graph shared by the Sankey chart on the client and the
    analytics controller on the server. Both reconstruct, from a job's current status
    and its evidence (interviews recorded, an offer with a base salary), the path the
    job took through the stages, and count how many jobs crossed each stage-to-stage
    link. The two copies differ in the path they infer; the accounting is common. */
module FlowGraph {
  import J = JobModel

  datatype Stage = Applied | Interviewing | OfferReceived | Accepted | Rejected | Withdrawn | Pending

  datatype Link = Link(source: Stage, target: Stage, value: int)

  /** What the reconstruction reads from a job. */
  datatype Snapshot = Snapshot(status: J.Status, hasInterviews: bool, hasOffer: bool)

  function SnapshotOf(j: J.Job): (x: Snapshot)
    ensures x.hasInterviews <==> |j.interviews| > 0
    ensures x.hasOffer <==> j.offer.Some? && j.offer.value.baseSalary.Some? && j.offer.value.baseSalary.value != 0.0
  {
    Snapshot(j.status, J.InterviewEvidence(j), J.OfferEvidence(j))
  }

  /** The nine transition counters and the count of jobs still at Applied. */
  datatype Counters = Counters(appliedToInterviewing: int, appliedToRejected: int,
                               appliedToWithdrawn: int, interviewingToOfferReceived: int,
                               interviewingToRejected: int, interviewingToWithdrawn: int,
                               offerReceivedToAccepted: int, offerReceivedToRejected: int,
                               offerReceivedToWithdrawn: int, stillInApplied: int)

  const Zero := Counters(0, 0, 0, 0, 0, 0, 0, 0, 0, 0)

  /** The ten links a counter stands for. */
  predicate IsEdge(s: Stage, t: Stage) {
    (s, t) in ClientEdgeOrder
  }

  /** The order in which the client emits its links; the server's table is the same
      without the final Applied to Pending link. */
  const ClientEdgeOrder: seq<(Stage, Stage)> :=
    [(Applied, Interviewing), (Applied, Rejected), (Applied, Withdrawn),
     (Interviewing, OfferReceived), (Interviewing, Rejected), (Interviewing, Withdrawn),
     (OfferReceived, Accepted), (OfferReceived, Rejected), (OfferReceived, Withdrawn),
     (Applied, Pending)]

  const ServerEdgeOrder: seq<(Stage, Stage)> :=
    [(Applied, Interviewing), (Applied, Rejected), (Applied, Withdrawn),
     (Interviewing, OfferReceived), (Interviewing, Rejected), (Interviewing, Withdrawn),
     (OfferReceived, Accepted), (OfferReceived, Rejected), (OfferReceived, Withdrawn)]

  lemma ClientOrderExtendsServer()
    ensures ClientEdgeOrder == ServerEdgeOrder + [(Applied, Pending)]
  {
  }

  /** The counter behind a link; 0 for a pair that is not one of the ten links. */
  function EdgeValue(c: Counters, s: Stage, t: Stage): int {
    match (s, t)
    case (Applied, Interviewing) => c.appliedToInterviewing
    case (Applied, Rejected) => c.appliedToRejected
    case (Applied, Withdrawn) => c.appliedToWithdrawn
    case (Interviewing, OfferReceived) => c.interviewingToOfferReceived
    case (Interviewing, Rejected) => c.interviewingToRejected
    case (Interviewing, Withdrawn) => c.interviewingToWithdrawn
    case (OfferReceived, Accepted) => c.offerReceivedToAccepted
    case (OfferReceived, Rejected) => c.offerReceivedToRejected
    case (OfferReceived, Withdrawn) => c.offerReceivedToWithdrawn
    case (Applied, Pending) => c.stillInApplied
    case _ => 0
  }

  /** One `counter++` (or `links.find(...).value++`) for the link from `s` to `t`. */
  function Bump(c: Counters, s: Stage, t: Stage): Counters {
    match (s, t)
    case (Applied, Interviewing) => c.(appliedToInterviewing := c.appliedToInterviewing + 1)
    case (Applied, Rejected) => c.(appliedToRejected := c.appliedToRejected + 1)
    case (Applied, Withdrawn) => c.(appliedToWithdrawn := c.appliedToWithdrawn + 1)
    case (Interviewing, OfferReceived) => c.(interviewingToOfferReceived := c.interviewingToOfferReceived + 1)
    case (Interviewing, Rejected) => c.(interviewingToRejected := c.interviewingToRejected + 1)
    case (Interviewing, Withdrawn) => c.(interviewingToWithdrawn := c.interviewingToWithdrawn + 1)
    case (OfferReceived, Accepted) => c.(offerReceivedToAccepted := c.offerReceivedToAccepted + 1)
    case (OfferReceived, Rejected) => c.(offerReceivedToRejected := c.offerReceivedToRejected + 1)
    case (OfferReceived, Withdrawn) => c.(offerReceivedToWithdrawn := c.offerReceivedToWithdrawn + 1)
    case (Applied, Pending) => c.(stillInApplied := c.stillInApplied + 1)
    case _ => c
  }

  /** A bump raises the counter of its own link by one and leaves every other
      counter alone; a pair that is not a link changes nothing. */
  lemma BumpEdges(c: Counters, s: Stage, t: Stage)
    ensures forall u, v :: EdgeValue(Bump(c, s, t), u, v)
                        == EdgeValue(c, u, v) + if (u, v) == (s, t) && IsEdge(s, t) then 1 else 0
  {
  }

  /** Counts one job whose inferred path is `path`: every step of it bumps its link. */
  function BumpPath(c: Counters, path: seq<Stage>): Counters
    decreases |path|
  {
    if |path| < 2 then c else BumpPath(Bump(c, path[0], path[1]), path[1..])
  }

  /** The consecutive steps of a path. */
  function Hops(p: seq<Stage>): seq<(Stage, Stage)>
    decreases |p|
  {
    if |p| < 2 then [] else [(p[0], p[1])] + Hops(p[1..])
  }

  /** How many times `e` occurs in `h`. */
  function Occurrences(h: seq<(Stage, Stage)>, e: (Stage, Stage)): nat
    decreases |h|
  {
    if h == [] then 0 else (if h[0] == e then 1 else 0) + Occurrences(h[1..], e)
  }

  lemma OccurrencesCons(e: (Stage, Stage), rest: seq<(Stage, Stage)>, x: (Stage, Stage))
    ensures Occurrences([e] + rest, x) == (if e == x then 1 else 0) + Occurrences(rest, x)
  {
    assert ([e] + rest)[1..] == rest;
  }

  function Is(a: (Stage, Stage), e: (Stage, Stage)): int {
    if a == e then 1 else 0
  }

  /** The occurrences in a list of at most three steps, written out. */
  lemma OccurrencesShort(h: seq<(Stage, Stage)>, e: (Stage, Stage))
    ensures |h| == 0 ==> Occurrences(h, e) == 0
    ensures |h| == 1 ==> Occurrences(h, e) == Is(h[0], e)
    ensures |h| == 2 ==> Occurrences(h, e) == Is(h[0], e) + Is(h[1], e)
    ensures |h| == 3 ==> Occurrences(h, e) == Is(h[0], e) + Is(h[1], e) + Is(h[2], e)
  {
    if 1 <= |h| <= 3 {
      var q := h[1..];
      assert Occurrences(h, e) == Is(h[0], e) + Occurrences(q, e);
      if |q| >= 1 {
        var r := q[1..];
        assert Occurrences(q, e) == Is(q[0], e) + Occurrences(r, e);
        if |r| >= 1 {
          assert Occurrences(r, e) == Is(r[0], e) + Occurrences(r[1..], e);
          assert Occurrences(r[1..], e) == 0;
        } else {
          assert Occurrences(r, e) == 0;
        }
      } else {
        assert Occurrences(q, e) == 0;
      }
    }
  }

  /** Counting along a path raises each link by the number of times the path steps
      along it. */
  lemma {:induction false} BumpPathEdge(c: Counters, path: seq<Stage>, s: Stage, t: Stage)
    requires IsEdge(s, t)
    ensures EdgeValue(BumpPath(c, path), s, t) == EdgeValue(c, s, t) + Occurrences(Hops(path), (s, t))
    decreases |path|
  {
    if |path| >= 2 {
      BumpEdges(c, path[0], path[1]);
      BumpPathEdge(Bump(c, path[0], path[1]), path[1..], s, t);
      OccurrencesCons((path[0], path[1]), Hops(path[1..]), (s, t));
    }
  }

  /** Counting along a path of two, three or four stages. */
  lemma BumpPathShort(c: Counters, p: seq<Stage>)
    ensures |p| == 2 ==> BumpPath(c, p) == Bump(c, p[0], p[1])
    ensures |p| == 3 ==> BumpPath(c, p) == Bump(Bump(c, p[0], p[1]), p[1], p[2])
    ensures |p| == 4 ==> BumpPath(c, p) == Bump(Bump(Bump(c, p[0], p[1]), p[1], p[2]), p[2], p[3])
  {
    if 2 <= |p| <= 4 {
      var c1 := Bump(c, p[0], p[1]);
      var q := p[1..];
      assert BumpPath(c, p) == BumpPath(c1, q);
      if |q| >= 2 {
        var c2 := Bump(c1, q[0], q[1]);
        var r := q[1..];
        assert BumpPath(c1, q) == BumpPath(c2, r);
        if |r| >= 2 {
          var c3 := Bump(c2, r[0], r[1]);
          assert BumpPath(c2, r) == BumpPath(c3, r[1..]);
          assert BumpPath(c3, r[1..]) == c3;
        } else {
          assert BumpPath(c2, r) == c2;
        }
      } else {
        assert BumpPath(c1, q) == c1;
      }
    }
  }

  /** The counters after counting every job of `jobs`, each along the path `path`
      infers for it. */
  function Counts(jobs: seq<J.Job>, path: Snapshot -> seq<Stage>): Counters
    decreases |jobs|
  {
    if jobs == [] then Zero
    else BumpPath(Counts(jobs[..|jobs| - 1], path), path(SnapshotOf(jobs[|jobs| - 1])))
  }

  /** The number of steps from `s` to `t` over the inferred paths of all jobs. */
  function Crossings(jobs: seq<J.Job>, path: Snapshot -> seq<Stage>, s: Stage, t: Stage): nat
    decreases |jobs|
  {
    if jobs == [] then 0
    else Crossings(jobs[..|jobs| - 1], path, s, t) + Occurrences(Hops(path(SnapshotOf(jobs[|jobs| - 1]))), (s, t))
  }

  /** Every link's value is the number of times the jobs' inferred paths cross it. */
  lemma {:induction false} CountsAreCrossings(jobs: seq<J.Job>, path: Snapshot -> seq<Stage>, s: Stage, t: Stage)
    requires IsEdge(s, t)
    ensures EdgeValue(Counts(jobs, path), s, t) == Crossings(jobs, path, s, t)
    decreases |jobs|
  {
    if jobs != [] {
      CountsAreCrossings(jobs[..|jobs| - 1], path, s, t);
      BumpPathEdge(Counts(jobs[..|jobs| - 1], path), path(SnapshotOf(jobs[|jobs| - 1])), s, t);
    }
  }

  lemma CountsAppend(jobs: seq<J.Job>, j: J.Job, path: Snapshot -> seq<Stage>)
    ensures Counts(jobs + [j], path) == BumpPath(Counts(jobs, path), path(SnapshotOf(j)))
  {
    assert (jobs + [j])[..|jobs|] == jobs;
  }

  /** `after` is `before` with every link raised by the number of times it occurs in
      `edges`. */
  predicate Adds(before: Counters, after: Counters, edges: seq<(Stage, Stage)>) {
    forall s, t | IsEdge(s, t) :: EdgeValue(after, s, t) == EdgeValue(before, s, t) + Occurrences(edges, (s, t))
  }

  /** Counting a job along a path raises exactly the links of its steps. */
  lemma BumpPathAdds(c: Counters, p: seq<Stage>)
    ensures Adds(c, BumpPath(c, p), Hops(p))
  {
    forall s, t | IsEdge(s, t)
      ensures EdgeValue(BumpPath(c, p), s, t) == EdgeValue(c, s, t) + Occurrences(Hops(p), (s, t))
    {
      BumpPathEdge(c, p, s, t);
    }
  }

  /** The ten counters under `Adds`. */
  lemma AddsFields(c: Counters, d: Counters, edges: seq<(Stage, Stage)>)
    requires Adds(c, d, edges)
    ensures d.appliedToInterviewing == c.appliedToInterviewing + Occurrences(edges, (Applied, Interviewing))
    ensures d.appliedToRejected == c.appliedToRejected + Occurrences(edges, (Applied, Rejected))
    ensures d.appliedToWithdrawn == c.appliedToWithdrawn + Occurrences(edges, (Applied, Withdrawn))
    ensures d.interviewingToOfferReceived == c.interviewingToOfferReceived + Occurrences(edges, (Interviewing, OfferReceived))
    ensures d.interviewingToRejected == c.interviewingToRejected + Occurrences(edges, (Interviewing, Rejected))
    ensures d.interviewingToWithdrawn == c.interviewingToWithdrawn + Occurrences(edges, (Interviewing, Withdrawn))
    ensures d.offerReceivedToAccepted == c.offerReceivedToAccepted + Occurrences(edges, (OfferReceived, Accepted))
    ensures d.offerReceivedToRejected == c.offerReceivedToRejected + Occurrences(edges, (OfferReceived, Rejected))
    ensures d.offerReceivedToWithdrawn == c.offerReceivedToWithdrawn + Occurrences(edges, (OfferReceived, Withdrawn))
    ensures d.stillInApplied == c.stillInApplied + Occurrences(edges, (Applied, Pending))
  {
    assert IsEdge(Applied, Interviewing);
    assert IsEdge(Applied, Rejected);
    assert IsEdge(Applied, Withdrawn);
    assert IsEdge(Interviewing, OfferReceived);
    assert IsEdge(Interviewing, Rejected);
    assert IsEdge(Interviewing, Withdrawn);
    assert IsEdge(OfferReceived, Accepted);
    assert IsEdge(OfferReceived, Rejected);
    assert IsEdge(OfferReceived, Withdrawn);
    assert IsEdge(Applied, Pending);
  }

  /** The steps of a path of at most four stages, written out. */
  lemma HopsShort(p: seq<Stage>)
    ensures |p| < 2 ==> Hops(p) == []
    ensures |p| == 2 ==> Hops(p) == [(p[0], p[1])]
    ensures |p| == 3 ==> Hops(p) == [(p[0], p[1]), (p[1], p[2])]
    ensures |p| == 4 ==> Hops(p) == [(p[0], p[1]), (p[1], p[2]), (p[2], p[3])]
  {
    if 2 <= |p| <= 4 {
      var q := p[1..];
      assert Hops(p) == [(p[0], p[1])] + Hops(q);
      if |q| >= 2 {
        var r := q[1..];
        assert Hops(q) == [(q[0], q[1])] + Hops(r);
        if |r| >= 2 {
          assert Hops(r) == [(r[0], r[1])] + Hops(r[1..]);
          assert Hops(r[1..]) == [];
        } else {
          assert Hops(r) == [];
        }
      } else {
        assert Hops(q) == [];
      }
    }
  }

  /** The number of jobs of `jobs` whose status is `st`. */
  function StatusCount(jobs: seq<J.Job>, st: J.Status): int
    decreases |jobs|
  {
    if jobs == [] then 0
    else StatusCount(jobs[..|jobs| - 1], st) + if jobs[|jobs| - 1].status == st then 1 else 0
  }

  /** The number of jobs whose status is one of the six tracked ones (not Not Applied). */
  function TrackedCount(jobs: seq<J.Job>): int
    decreases |jobs|
  {
    if jobs == [] then 0
    else TrackedCount(jobs[..|jobs| - 1]) + if jobs[|jobs| - 1].status != J.NotApplied then 1 else 0
  }

  // ---------------------------------------------------------------------------
  // Link lists

  /** One link per pair of `order`, carrying that pair's counter. */
  function Table(order: seq<(Stage, Stage)>, c: Counters): (links: seq<Link>)
    ensures |links| == |order|
    ensures forall i :: 0 <= i < |order| ==>
      links[i] == Link(order[i].0, order[i].1, EdgeValue(c, order[i].0, order[i].1))
  {
    seq(|order|, i requires 0 <= i < |order| => Link(order[i].0, order[i].1, EdgeValue(c, order[i].0, order[i].1)))
  }

  /** The contribution of one link to the filtered list. */
  function Keep(l: Link): seq<Link> {
    if l.value > 0 then [l] else []
  }

  /** `links.filter(link => link.value > 0)`. */
  function Positive(links: seq<Link>): seq<Link>
    decreases |links|
  {
    if links == [] then [] else Positive(links[..|links| - 1]) + Keep(links[|links| - 1])
  }

  lemma PositivePrefix(links: seq<Link>, k: int)
    requires 1 <= k <= |links|
    ensures Positive(links[..k]) == Positive(links[..k - 1]) + Keep(links[k - 1])
  {
    assert links[..k][..k - 1] == links[..k - 1];
  }

  /** The filter keeps exactly the positive links. */
  lemma {:induction false} PositiveMembers(links: seq<Link>)
    ensures forall l :: l in Positive(links) <==> l in links && l.value > 0
    decreases |links|
  {
    if links != [] {
      PositiveMembers(links[..|links| - 1]);
      assert links == links[..|links| - 1] + [links[|links| - 1]];
    }
  }

  /** Nothing survives the filter of a list without positive links. */
  lemma {:induction false} NothingPositive(links: seq<Link>)
    requires forall l :: l in links ==> l.value <= 0
    ensures Positive(links) == []
    decreases |links|
  {
    if links != [] {
      assert links[|links| - 1] in links;
      NothingPositive(links[..|links| - 1]);
    }
  }

  lemma {:induction false} PositiveAppend(a: seq<Link>, b: seq<Link>)
    ensures Positive(a + b) == Positive(a) + Positive(b)
    decreases |b|
  {
    if b == [] {
      assert a + b == a;
    } else {
      assert (a + b)[..|a + b| - 1] == a + b[..|b| - 1];
      PositiveAppend(a, b[..|b| - 1]);
    }
  }

  /** `links.some(link => link.value > 0)`. */
  predicate HasData(links: seq<Link>) {
    exists l :: l in links && l.value > 0
  }

  /** The filtered table has data exactly when one of its pairs has a positive counter. */
  lemma PositiveTable(order: seq<(Stage, Stage)>, c: Counters)
    ensures HasData(Positive(Table(order, c)))
        <==> exists i :: 0 <= i < |order| && EdgeValue(c, order[i].0, order[i].1) > 0
  {
    var t := Table(order, c);
    PositiveMembers(t);
    if HasData(Positive(t)) {
      var l :| l in Positive(t) && l.value > 0;
      var i :| 0 <= i < |t| && t[i] == l;
    }
    if exists i :: 0 <= i < |order| && EdgeValue(c, order[i].0, order[i].1) > 0 {
      var i :| 0 <= i < |order| && EdgeValue(c, order[i].0, order[i].1) > 0;
      assert t[i] in Positive(t);
    }
  }

  /** No counter is negative. */
  predicate NonNegative(c: Counters) {
    c.appliedToInterviewing >= 0 && c.appliedToRejected >= 0 && c.appliedToWithdrawn >= 0
    && c.interviewingToOfferReceived >= 0 && c.interviewingToRejected >= 0
    && c.interviewingToWithdrawn >= 0 && c.offerReceivedToAccepted >= 0
    && c.offerReceivedToRejected >= 0 && c.offerReceivedToWithdrawn >= 0 && c.stillInApplied >= 0
  }

  /** Adding occurrences, which are never negative, keeps every counter non-negative. */
  lemma AddsNonNegative(c: Counters, d: Counters, edges: seq<(Stage, Stage)>)
    requires NonNegative(c) && Adds(c, d, edges)
    ensures NonNegative(d)
  {
    AddsFields(c, d, edges);
  }

  lemma {:induction false} StatusCountNonNegative(jobs: seq<J.Job>, st: J.Status)
    ensures StatusCount(jobs, st) >= 0
    decreases |jobs|
  {
    if jobs != [] {
      StatusCountNonNegative(jobs[..|jobs| - 1], st);
    }
  }

  /** The conservation laws of a flow: `tracked` steps leave Applied; the steps into
      Interviewing are the steps out of it plus the jobs still Interviewing; likewise
      for Offer Received. */
  predicate Balanced(c: Counters, tracked: int, interviewing: int, offered: int) {
    OutOfApplied(c) == tracked
    && c.appliedToInterviewing == OutOfInterviewing(c) + interviewing
    && c.interviewingToOfferReceived == OutOfOffer(c) + offered
  }

  /** The sum of the links leaving Applied, Pending included. */
  function OutOfApplied(c: Counters): int {
    c.appliedToInterviewing + c.appliedToRejected + c.appliedToWithdrawn + c.stillInApplied
  }

  function OutOfInterviewing(c: Counters): int {
    c.interviewingToOfferReceived + c.interviewingToRejected + c.interviewingToWithdrawn
  }

  function OutOfOffer(c: Counters): int {
    c.offerReceivedToAccepted + c.offerReceivedToRejected + c.offerReceivedToWithdrawn
  }
}
