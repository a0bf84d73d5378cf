/** The job market comparison panel (client/src/components/JobMarketComparison.tsx):
    the jobs loaded with an offer flag and locally estimated market data, the selection
    of at most four jobs, the local salary and cost-of-living estimators used when the
    job-value service does not answer, the loop that fills in market data for the
    selected jobs, and the cost-of-living adjusted salary of each column. */
module MarketComparison {
  import J = JobModel
  import opened Common

  // ---------------------------------------------------------------------------
  // Data

  datatype SalaryEstimate = SalaryEstimate(min: int, max: int, median: int)

  datatype CostEstimate = CostEstimate(index: real, housingIndex: real, groceriesIndex: real,
                                       nationalAverage: real)

  datatype MarketData = MarketData(salary: SalaryEstimate, costOfLiving: CostEstimate)

  datatype DataSource = Api | Local

  /** A job of the panel: the stored job plus the offer flag, where its market data came
      from, whether it is being loaded, and the market data itself. */
  datatype MarketJob = MarketJob(job: J.Job, hasOffer: bool, dataSource: DataSource,
                                 dataLoading: bool, marketData: Option<MarketData>)

  /** The maximum number of jobs compared side by side. */
  const MaxSelected := 4

  /** The number of jobs selected when the list is loaded. */
  const InitialCount := 3

  // ---------------------------------------------------------------------------
  // Local salary estimate

  predicate SeniorTitle(title: string) {
    Contains(ToLower(title), "senior") || Contains(ToLower(title), "lead")
  }

  predicate EngineeringTitle(title: string) {
    Contains(ToLower(title), "engineer") || Contains(ToLower(title), "developer")
  }

  predicate Ordered(s: SalaryEstimate) {
    s.min <= s.median <= s.max
  }

  /** The range before the location adjustment: the senior range replaces the default
      one, and engineering titles add to whichever applies. */
  function TitleBase(title: string): (b: SalaryEstimate)
    ensures b.min < b.median < b.max
    ensures 70000 <= b.min && b.median >= 100000
    ensures SeniorTitle(title) ==> b.median >= 135000
    ensures EngineeringTitle(title) ==> b.median >= 115000
  {
    var base := if SeniorTitle(title) then SalaryEstimate(100000, 180000, 135000)
                else SalaryEstimate(70000, 140000, 100000);
    if EngineeringTitle(title) then SalaryEstimate(base.min + 10000, base.max + 20000, base.median + 15000)
    else base
  }

  predicate NamesAny(location: string, a: string, b: string) {
    Contains(ToLower(location), a) || Contains(ToLower(location), b)
  }

  /** The four multipliers the estimator uses. */
  predicate Multiplier(m: real) {
    m == 1.0 || m == 1.1 || m == 1.25 || m == 1.4
  }

  /** The location multiplier: the first matching pair of cities decides. */
  function LocationMultiplier(location: string): (m: real)
    ensures Multiplier(m) && 1.0 <= m <= 1.4
    ensures m == 1.0 <==> !NamesAny(location, "san francisco", "new york")
                          && !NamesAny(location, "seattle", "boston")
                          && !NamesAny(location, "austin", "denver")
  {
    if NamesAny(location, "san francisco", "new york") then 1.4
    else if NamesAny(location, "seattle", "boston") then 1.25
    else if NamesAny(location, "austin", "denver") then 1.1
    else 1.0
  }

  lemma ScaleUp(v: real, m: real)
    requires v >= 0.0 && m >= 1.0
    ensures v <= v * m
  {
    assert v * m - v == v * (m - 1.0);
  }

  /** Rounding keeps the order of three reals and the integers below each. */
  lemma RoundedFigures(b: SalaryEstimate, x: real, y: real, z: real)
    requires x <= y <= z
    requires b.min as real <= x && b.median as real <= y && b.max as real <= z
    ensures Round(x) <= Round(y) <= Round(z)
    ensures b.min <= Round(x) && b.median <= Round(y) && b.max <= Round(z)
  {
    RoundMonotone(x, y);
    RoundMonotone(y, z);
    RoundMonotone(b.min as real, x);
    RoundMonotone(b.median as real, y);
    RoundMonotone(b.max as real, z);
    RoundInt(b.min);
    RoundInt(b.median);
    RoundInt(b.max);
  }

  /** The rounded, scaled figures keep their order and do not shrink. */
  lemma ScaledFigures(b: SalaryEstimate, m: real)
    requires Ordered(b) && b.min >= 0 && Multiplier(m)
    ensures Round(b.min as real * m) <= Round(b.median as real * m) <= Round(b.max as real * m)
    ensures b.min <= Round(b.min as real * m) && b.median <= Round(b.median as real * m)
    ensures b.max <= Round(b.max as real * m)
  {
    var x, y, z := b.min as real * m, b.median as real * m, b.max as real * m;
    if m == 1.4 {
      assert x == b.min as real * 1.4 && y == b.median as real * 1.4 && z == b.max as real * 1.4;
    } else if m == 1.25 {
      assert x == b.min as real * 1.25 && y == b.median as real * 1.25 && z == b.max as real * 1.25;
    } else if m == 1.1 {
      assert x == b.min as real * 1.1 && y == b.median as real * 1.1 && z == b.max as real * 1.1;
    } else {
      assert x == b.min as real && y == b.median as real && z == b.max as real;
    }
    RoundedFigures(b, x, y, z);
  }

  /** Each figure multiplied by `m` and rounded. */
  function Scaled(b: SalaryEstimate, m: real): (s: SalaryEstimate)
    requires Ordered(b) && b.min >= 0 && Multiplier(m)
    ensures Ordered(s)
    ensures s.min >= b.min && s.median >= b.median && s.max >= b.max
  {
    ScaledFigures(b, m);
    SalaryEstimate(Round(b.min as real * m), Round(b.max as real * m), Round(b.median as real * m))
  }

  /** The local salary estimate for a title and a location. */
  function MockSalary(title: string, location: string): (s: SalaryEstimate)
    ensures Ordered(s)
    ensures s.min >= TitleBase(title).min && s.median >= TitleBase(title).median
    ensures s.max >= TitleBase(title).max
  {
    Scaled(TitleBase(title), LocationMultiplier(location))
  }

  /** generateMockSalaryData: a range adjusted in place by the title and scaled by the
      location multiplier. */
  method GenerateMockSalaryData(title: string, location: string) returns (s: SalaryEstimate)
    ensures s == MockSalary(title, location)
    ensures Ordered(s) && s.median >= 100000
  {
    var min, max, median := 70000, 140000, 100000;
    if SeniorTitle(title) {
      min, max, median := 100000, 180000, 135000;
    }
    if EngineeringTitle(title) {
      min := min + 10000;
      max := max + 20000;
      median := median + 15000;
    }
    var multiplier := 1.0;
    if NamesAny(location, "san francisco", "new york") {
      multiplier := 1.4;
    } else if NamesAny(location, "seattle", "boston") {
      multiplier := 1.25;
    } else if NamesAny(location, "austin", "denver") {
      multiplier := 1.1;
    }
    assert SalaryEstimate(min, max, median) == TitleBase(title);
    assert multiplier == LocationMultiplier(location);
    s := Scaled(SalaryEstimate(min, max, median), multiplier);
  }

  /** Outside the six priced cities the estimate is the title range itself. */
  lemma MockSalaryUnpricedPlace(title: string, location: string)
    requires !NamesAny(location, "san francisco", "new york")
    requires !NamesAny(location, "seattle", "boston") && !NamesAny(location, "austin", "denver")
    ensures MockSalary(title, location) == TitleBase(title)
  {
    var b := TitleBase(title);
    assert LocationMultiplier(location) == 1.0;
    RoundInt(b.min);
    RoundInt(b.median);
    RoundInt(b.max);
  }

  // ---------------------------------------------------------------------------
  // Local cost-of-living estimate

  const NationalAverage := CostEstimate(100.0, 100.0, 100.0, 100.0)

  predicate Names(location: string, city: string) {
    Contains(ToLower(location), city)
  }

  /** A city the cost-of-living estimator prices. */
  predicate PricedCity(location: string) {
    Names(location, "san francisco") || Names(location, "new york") || Names(location, "seattle")
    || Names(location, "los angeles") || Names(location, "austin")
  }

  /** generateMockCostOfLivingData: the first named city decides, the national average
      otherwise; the national average reported is always 100. */
  function MockCostOfLiving(location: string): (c: CostEstimate)
    ensures c.nationalAverage == 100.0
    ensures c.index >= 100.0 && c.housingIndex >= 100.0 && c.groceriesIndex >= 100.0
    ensures c == NationalAverage <==> !PricedCity(location)
    ensures c.index == 100.0 <==> !PricedCity(location)
  {
    if Names(location, "san francisco") then NationalAverage.(index := 192.3, housingIndex := 296.5, groceriesIndex := 162.4)
    else if Names(location, "new york") then NationalAverage.(index := 187.2, housingIndex := 242.3, groceriesIndex := 169.8)
    else if Names(location, "seattle") then NationalAverage.(index := 152.8, housingIndex := 203.4, groceriesIndex := 139.5)
    else if Names(location, "los angeles") then NationalAverage.(index := 166.5, housingIndex := 243.1, groceriesIndex := 154.2)
    else if Names(location, "austin") then NationalAverage.(index := 119.3, housingIndex := 154.8, groceriesIndex := 109.7)
    else NationalAverage
  }

  /** The two estimators agree on the most expensive places: where salaries are raised
      by 40%, the cost-of-living index is at least 187.2. */
  lemma HighestMultiplierHighCost(location: string)
    requires LocationMultiplier(location) == 1.4
    ensures MockCostOfLiving(location).index >= 187.2
  {
  }

  /** Both local estimates for a job. */
  function MockData(title: string, location: string): (d: MarketData)
    ensures Ordered(d.salary) && d.salary.median >= 100000 && d.costOfLiving.index >= 100.0
  {
    MarketData(MockSalary(title, location), MockCostOfLiving(location))
  }

  // ---------------------------------------------------------------------------
  // Loading the jobs

  /** The state every job of the panel is in: the offer flag is the offer evidence,
      only jobs without an offer carry market data, and those have a location. */
  predicate Consistent(jobs: seq<MarketJob>) {
    forall x :: x in jobs ==>
      x.hasOffer == J.OfferEvidence(x.job)
      && (x.hasOffer ==> x.marketData.None?)
      && (!x.hasOffer ==> x.job.location.Some?)
  }

  function Prepared(j: J.Job): (x: MarketJob)
    requires J.OfferEvidence(j) || j.location.Some?
  {
    var hasOffer := J.OfferEvidence(j);
    MarketJob(j, hasOffer, Local, false,
              if hasOffer then None else Some(MockData(j.title, j.location.value)))
  }

  /** `slice(0, 3).map(job => job._id)`. */
  function InitialSelection(jobs: seq<MarketJob>): seq<Id> {
    var n := if |jobs| < InitialCount then |jobs| else InitialCount;
    seq(n, i requires 0 <= i < n => jobs[i].job.id)
  }

  /** fetchJobs after a successful response: every job gets its offer flag and, without an
      offer, the local estimates; the first three are selected. The estimators lower-case
      the location, so a job without an offer and without a location makes the whole load
      fail. */
  function LoadJobs(fetched: seq<J.Job>): (r: Option<(seq<MarketJob>, seq<Id>)>)
    ensures r.Some? <==> forall j :: j in fetched ==> J.OfferEvidence(j) || j.location.Some?
    ensures r.Some? ==> Consistent(r.value.0) && |r.value.0| == |fetched|
    ensures r.Some? ==> forall i :: 0 <= i < |fetched| ==>
      r.value.0[i].job == fetched[i] && r.value.0[i].dataSource == Local && !r.value.0[i].dataLoading
      && (!r.value.0[i].hasOffer ==> r.value.0[i].marketData == Some(MockData(fetched[i].title, fetched[i].location.value)))
    ensures r.Some? ==> |r.value.1| == if |fetched| < 3 then |fetched| else 3
    ensures r.Some? ==> forall i :: 0 <= i < |r.value.1| ==> r.value.1[i] == fetched[i].id
  {
    if forall j :: j in fetched ==> J.OfferEvidence(j) || j.location.Some? then
      var jobs := seq(|fetched|, i requires 0 <= i < |fetched| => Prepared(fetched[i]));
      assert forall x :: x in jobs ==> exists i :: 0 <= i < |fetched| && x == Prepared(fetched[i]);
      Some((jobs, InitialSelection(jobs)))
    else None
  }

  // ---------------------------------------------------------------------------
  // Selecting jobs

  /** `selected.filter(x => x !== id)`. */
  function Without(selected: seq<Id>, id: Id): (r: seq<Id>)
    ensures |r| <= |selected|
    ensures forall x :: x in r <==> x in selected && x != id
  {
    if selected == [] then []
    else if selected[0] == id then Without(selected[1..], id)
    else [selected[0]] + Without(selected[1..], id)
  }

  /** Removing an id that is not there changes nothing. */
  lemma {:induction false} WithoutAbsent(selected: seq<Id>, id: Id)
    requires id !in selected
    ensures Without(selected, id) == selected
  {
    if selected != [] {
      WithoutAbsent(selected[1..], id);
      assert selected == [selected[0]] + selected[1..];
    }
  }

  /** The remaining ids keep their order: they are a subsequence of the selection. */
  predicate SubsequenceOf(r: seq<Id>, s: seq<Id>)
    decreases |s|
  {
    r == [] || (s != [] && ((r[0] == s[0] && SubsequenceOf(r[1..], s[1..])) || SubsequenceOf(r, s[1..])))
  }

  lemma {:induction false} WithoutKeepsOrder(selected: seq<Id>, id: Id)
    ensures SubsequenceOf(Without(selected, id), selected)
    decreases |selected|
  {
    if selected != [] {
      WithoutKeepsOrder(selected[1..], id);
      var rest := Without(selected[1..], id);
      if selected[0] != id {
        assert Without(selected, id) == [selected[0]] + rest;
        assert ([selected[0]] + rest)[1..] == rest;
      }
    }
  }

  /** handleJobSelection: a selected job is removed, another one is appended while fewer
      than four are selected, and the selection is otherwise left as it is. */
  function ToggleSelection(selected: seq<Id>, id: Id): (r: seq<Id>)
    ensures id in selected ==> (id !in r && SubsequenceOf(r, selected)
                                && forall x :: x != id ==> (x in r <==> x in selected))
    ensures id !in selected && |selected| < MaxSelected ==> r == selected + [id]
    ensures id !in selected && |selected| >= MaxSelected ==> r == selected
  {
    if id in selected then
      WithoutKeepsOrder(selected, id);
      Without(selected, id)
    else if |selected| < MaxSelected then selected + [id]
    else selected
  }

  /** Selecting and then deselecting a job restores the selection. */
  lemma ToggleTwice(selected: seq<Id>, id: Id)
    requires id !in selected
    ensures ToggleSelection(ToggleSelection(selected, id), id) == selected
  {
    if |selected| < MaxSelected {
      WithoutAbsent(selected, id);
      assert Without(selected + [id], id) == Without(selected, id) by {
        WithoutAppendedId(selected, id);
      }
    }
  }

  lemma {:induction false} WithoutAppendedId(selected: seq<Id>, id: Id)
    ensures Without(selected + [id], id) == Without(selected, id)
    decreases |selected|
  {
    if selected == [] {
      assert Without([id], id) == Without([], id);
    } else {
      assert (selected + [id])[1..] == selected[1..] + [id];
      WithoutAppendedId(selected[1..], id);
    }
  }

  predicate Distinct(s: seq<Id>) {
    forall i, k :: 0 <= i < k < |s| ==> s[i] != s[k]
  }

  /** The ids clicked, one toggle after the other. */
  function Toggles(selected: seq<Id>, clicks: seq<Id>): seq<Id>
    decreases |clicks|
  {
    if clicks == [] then selected else Toggles(ToggleSelection(selected, clicks[0]), clicks[1..])
  }

  lemma {:induction false} WithoutDistinct(selected: seq<Id>, id: Id)
    requires Distinct(selected)
    ensures Distinct(Without(selected, id))
    decreases |selected|
  {
    if selected != [] {
      WithoutDistinct(selected[1..], id);
      if selected[0] != id {
        var rest := Without(selected[1..], id);
        assert selected[0] !in rest;
        assert Without(selected, id) == [selected[0]] + rest;
      }
    }
  }

  /** However the user clicks, starting from the initial selection no more than four
      jobs are selected and no job is selected twice. */
  lemma {:induction false} SelectionStaysCapped(selected: seq<Id>, clicks: seq<Id>)
    requires |selected| <= MaxSelected && Distinct(selected)
    ensures |Toggles(selected, clicks)| <= MaxSelected && Distinct(Toggles(selected, clicks))
    decreases |clicks|
  {
    if clicks != [] {
      var next := ToggleSelection(selected, clicks[0]);
      if clicks[0] in selected {
        WithoutDistinct(selected, clicks[0]);
      }
      SelectionStaysCapped(next, clicks[1..]);
    }
  }

  lemma InitialSelectionCapped(fetched: seq<J.Job>)
    requires LoadJobs(fetched).Some?
    requires forall i, k :: 0 <= i < k < |fetched| ==> fetched[i].id != fetched[k].id
    ensures |LoadJobs(fetched).value.1| <= MaxSelected && Distinct(LoadJobs(fetched).value.1)
  {
  }

  // ---------------------------------------------------------------------------
  // Filling in market data

  /** `findIndex(j => j._id === id)`. */
  function FindJob(jobs: seq<MarketJob>, id: Id): (r: Option<nat>)
    ensures r.Some? ==> (r.value < |jobs| && jobs[r.value].job.id == id
                         && forall i :: 0 <= i < r.value ==> jobs[i].job.id != id)
    ensures r.None? ==> forall i :: 0 <= i < |jobs| ==> jobs[i].job.id != id
  {
    if jobs == [] then None
    else if jobs[0].job.id == id then Some(0)
    else match FindJob(jobs[1..], id)
      case None => None
      case Some(i) => Some(i + 1)
  }

  /** Lists with the same ids answer every lookup alike. */
  lemma FindJobSameIds(a: seq<MarketJob>, b: seq<MarketJob>, id: Id)
    requires |a| == |b| && forall i :: 0 <= i < |a| ==> a[i].job.id == b[i].job.id
    ensures FindJob(a, id) == FindJob(b, id)
  {
  }

  /** The job at `k` gets fresh market data: it is the first job with its id, that id is
      selected, it has no offer, and it neither has service data nor is loading. */
  predicate Refreshed(jobs: seq<MarketJob>, selected: seq<Id>, k: int)
    requires 0 <= k < |jobs|
  {
    FindJob(jobs, jobs[k].job.id) == Some(k) && jobs[k].job.id in selected
    && !jobs[k].hasOffer && Pending(jobs[k])
  }

  /** A job that neither has the service's data nor is being loaded. */
  predicate Pending(x: MarketJob) {
    x.dataSource != Api && !x.dataLoading
  }

  /** `selected.map(id => jobs.find(job => job._id === id)).filter(job => job && !job.hasOffer)`,
      as positions in `jobs`. */
  function Needing(jobs: seq<MarketJob>, selected: seq<Id>): (r: seq<nat>)
    ensures forall n :: n in r ==> n < |jobs|
    ensures forall k :: 0 <= k < |jobs| ==>
      (k in r <==> FindJob(jobs, jobs[k].job.id) == Some(k) && jobs[k].job.id in selected && !jobs[k].hasOffer)
  {
    if selected == [] then []
    else
      var rest := Needing(jobs, selected[1..]);
      var found := FindJob(jobs, selected[0]);
      assert forall x :: x in selected <==> x == selected[0] || x in selected[1..];
      if found.Some? && !jobs[found.value].hasOffer then [found.value] + rest else rest
  }

  /** The job with the service's answer when there is one, the local estimates
      otherwise, and no longer loading. */
  function Filled(x: MarketJob, answers: map<Id, MarketData>): (y: MarketJob)
    requires x.job.id in answers || x.job.location.Some?
    ensures y.job == x.job && y.hasOffer == x.hasOffer && !y.dataLoading && y.marketData.Some?
    ensures y.dataSource == Api <==> x.job.id in answers
  {
    if x.job.id in answers then x.(marketData := Some(answers[x.job.id]), dataSource := Api, dataLoading := false)
    else x.(marketData := Some(MockData(x.job.title, x.job.location.value)), dataSource := Local, dataLoading := false)
  }

  /** fetchMarketData: the selected jobs without an offer are looked up; each one that
      neither has service data nor is loading is marked as loading and then given the
      service's answer (`answers`, the ids for which both requests succeeded within the
      retries) or the local estimates. Every other job is left as it is. */
  method FetchMarketData(jobs: seq<MarketJob>, selected: seq<Id>, answers: map<Id, MarketData>)
    returns (updated: seq<MarketJob>)
    requires Consistent(jobs)
    ensures |updated| == |jobs|
    ensures forall k :: 0 <= k < |jobs| ==>
      updated[k] == if Refreshed(jobs, selected, k) then Filled(jobs[k], answers) else jobs[k]
  {
    if |selected| == 0 {
      return jobs;
    }
    var needing := Needing(jobs, selected);
    if |needing| == 0 {
      return jobs;
    }
    updated := FillPending(jobs, needing, answers);
  }

  /** The loop of fetchMarketData over the jobs needing market data, on a copy of the
      job list: each pending one is marked as loading and then filled in. */
  method FillPending(jobs: seq<MarketJob>, needing: seq<nat>, answers: map<Id, MarketData>)
    returns (updated: seq<MarketJob>)
    requires Consistent(jobs)
    requires forall n :: n in needing ==> n < |jobs| && FindJob(jobs, jobs[n].job.id) == Some(n) && !jobs[n].hasOffer
    ensures |updated| == |jobs|
    ensures forall k :: 0 <= k < |jobs| ==>
      updated[k] == if k in needing && Pending(jobs[k]) then Filled(jobs[k], answers) else jobs[k]
  {
    var a := new MarketJob[|jobs|](i requires 0 <= i < |jobs| => jobs[i]);
    for i := 0 to |needing|
      invariant forall k :: 0 <= k < |jobs| ==>
        a[k] == if k in needing[..i] && Pending(jobs[k]) then Filled(jobs[k], answers) else jobs[k]
    {
      assert needing[i] in needing;
      assert needing[..i + 1] == needing[..i] + [needing[i]];
      var job := jobs[needing[i]];
      if !Pending(job) {
        continue;
      }
      FindJobSameIds(a[..], jobs, job.job.id);
      var at := FindJob(a[..], job.job.id);
      assert at == Some(needing[i]);
      a[at.value] := a[at.value].(dataLoading := true);
      a[at.value] := Filled(a[at.value], answers);
    }
    assert needing[..|needing|] == needing;
    updated := a[..];
  }

  /** Filling in market data keeps the panel's jobs consistent. */
  lemma FetchKeepsConsistent(jobs: seq<MarketJob>, selected: seq<Id>, answers: map<Id, MarketData>,
                             updated: seq<MarketJob>)
    requires Consistent(jobs) && |updated| == |jobs|
    requires forall k :: 0 <= k < |jobs| ==>
      updated[k] == if Refreshed(jobs, selected, k) then Filled(jobs[k], answers) else jobs[k]
    ensures Consistent(updated)
  {
    forall x | x in updated
      ensures x.hasOffer == J.OfferEvidence(x.job) && (x.hasOffer ==> x.marketData.None?)
              && (!x.hasOffer ==> x.job.location.Some?)
    {
      var k :| 0 <= k < |updated| && updated[k] == x;
      assert jobs[k] in jobs;
    }
  }

  // ---------------------------------------------------------------------------
  // Adjusted salary

  /** The salary a column is adjusted from: the offered base salary for a job with an
      offer, the market median otherwise. */
  function BaseFigure(x: MarketJob): Option<real> {
    if x.hasOffer then (if x.job.offer.Some? then x.job.offer.value.baseSalary else None)
    else if x.marketData.Some? then Some(x.marketData.value.salary.median as real)
    else None
  }

  function ColIndex(x: MarketJob): Option<real> {
    if x.marketData.Some? then Some(x.marketData.value.costOfLiving.index) else None
  }

  /** `baseSalary && colIndex ? baseSalary / (colIndex / 100) : undefined`. */
  function AdjustedSalary(x: MarketJob): (r: Option<real>)
    ensures r.Some? <==> TruthyNum(BaseFigure(x)) && TruthyNum(ColIndex(x))
    ensures r.Some? ==> r.value * ColIndex(x).value == BaseFigure(x).value * 100.0
  {
    if TruthyNum(BaseFigure(x)) && TruthyNum(ColIndex(x)) then
      var b, c := BaseFigure(x).value, ColIndex(x).value;
      assert b / (c / 100.0) * c == b * 100.0;
      Some(b / (c / 100.0))
    else None
  }

  /** At the national average the adjusted salary is the salary itself. */
  lemma AdjustedAtNationalAverage(x: MarketJob)
    requires TruthyNum(BaseFigure(x)) && ColIndex(x) == Some(100.0)
    ensures AdjustedSalary(x) == BaseFigure(x)
  {
  }

  /** A job without an offer that carries the local estimates always has an adjusted
      salary, and it is never above the market median. */
  lemma EstimatedJobAdjusted(x: MarketJob)
    requires !x.hasOffer && x.job.location.Some?
    requires x.marketData == Some(MockData(x.job.title, x.job.location.value))
    ensures AdjustedSalary(x).Some?
    ensures AdjustedSalary(x).value <= x.marketData.value.salary.median as real
  {
    var b, c := BaseFigure(x).value, ColIndex(x).value;
    assert b > 0.0 && c >= 100.0;
    DeflatedNotAbove(b, c);
  }

  lemma DeflatedNotAbove(b: real, c: real)
    requires b > 0.0 && c >= 100.0
    ensures b / (c / 100.0) <= b
  {
    var q := c / 100.0;
    assert q >= 1.0;
    assert b / q * q == b;
    ScaleUp(b / q, q);
  }

  /** A job with an offer never carries market data, so its adjusted salary is never
      shown: the offer branch of the base salary is never used. */
  lemma OfferColumnsNeverAdjusted(jobs: seq<MarketJob>)
    requires Consistent(jobs)
    ensures forall x :: x in jobs && x.hasOffer ==> AdjustedSalary(x).None?
  {
  }
}
