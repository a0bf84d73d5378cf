/** The job valuation controller (server/src/controllers/jobValue.js): weighted scoring
    and ranking of several jobs, the cost-of-living normalisation of one job's
    valuation, and the two lookup tables that stand in for salary and cost-of-living
    services. */
module JobValue {
  import J = JobModel
  import opened Common
  import Sorting

  // ---------------------------------------------------------------------------
  // Valuations

  /** The `customWeights` sub-document; the schema fills every weight. */
  datatype Weights = Weights(salary: real, benefits: real, costOfLiving: real, commute: real)

  const DefaultWeights := Weights(1.0, 0.5, 0.8, 0.3)

  /** A stored valuation of one of the user's jobs. */
  datatype Valuation = Valuation(job: Id, location: Option<string>,
                                 costOfLivingIndex: Option<real>, costOfLivingSource: Option<string>,
                                 averageIndustrySalary: Option<real>,
                                 normalizedSalary: Option<real>, valueRatio: Option<real>,
                                 weights: Weights, updatedAt: int)

  /** The valuation `compareJobs` creates for a job that has none: national average
      cost of living and default weights. */
  function NewComparedValuation(job: J.Job, now: int): Valuation {
    Valuation(job.id, job.location, Some(100.0), None, None, None, None, DefaultWeights, now)
  }

  /** The weights of a `customWeights` request field; absent keys are left alone. */
  datatype WeightsPatch = WeightsPatch(salary: Option<real>, benefits: Option<real>,
                                       costOfLiving: Option<real>, commute: Option<real>)

  /** `customWeights[key] = patch[key]` for every key the patch names. */
  function Patched(w: Weights, p: WeightsPatch): (r: Weights)
    ensures r.salary == p.salary.GetOr(w.salary) && r.benefits == p.benefits.GetOr(w.benefits)
    ensures r.costOfLiving == p.costOfLiving.GetOr(w.costOfLiving)
    ensures r.commute == p.commute.GetOr(w.commute)
  {
    Weights(p.salary.GetOr(w.salary), p.benefits.GetOr(w.benefits),
            p.costOfLiving.GetOr(w.costOfLiving), p.commute.GetOr(w.commute))
  }

  /** A valuation with the request's custom weights written in, when there are any. */
  function WithWeights(v: Valuation, custom: Option<WeightsPatch>): Valuation {
    if custom.Some? then v.(weights := Patched(v.weights, custom.value)) else v
  }

  // ---------------------------------------------------------------------------
  // Scores

  /** `salary ? salary * (100 / (colIndex || 100)) : 0`. */
  function SalaryScore(salary: Option<real>, colIndex: Option<real>): real {
    if TruthyNum(salary) then salary.value * (100.0 / if TruthyNum(colIndex) then colIndex.value else 100.0)
    else 0.0
  }

  /** At the national average index, or with no index, the salary score is the salary. */
  lemma SalaryScoreAtNationalAverage(salary: Option<real>, colIndex: Option<real>)
    requires colIndex == Some(100.0) || !TruthyNum(colIndex)
    ensures SalaryScore(salary, colIndex) == NumOrZero(salary)
  {
  }

  /** A dearer place scales the salary score down in proportion to its index. */
  lemma SalaryScoreScales(salary: real, index: real)
    requires salary != 0.0 && index > 0.0
    ensures SalaryScore(Some(salary), Some(index)) * index == salary * 100.0
  {
  }

  /** The offer block as the populated job shows it. `offerDetails` and its `benefits`
      are nested paths of the schema, which a document always materialises as objects,
      so a job saved without them reads as one whose offer fields are all unset. */
  function DetailsOf(offer: Option<J.OfferDetails>): J.OfferDetails {
    if offer.Some? then offer.value else J.NoOffer
  }

  function BenefitsOf(o: J.OfferDetails): J.OfferBenefits {
    if o.benefits.Some? then o.benefits.value else J.OfferBenefits(None, None, None, None, None)
  }

  /** The fixed amounts of the three insurance flags. */
  function FlagsValue(b: J.OfferBenefits): real {
    (if b.healthcare == Some(true) then 5000.0 else 0.0)
    + (if b.dental == Some(true) then 1000.0 else 0.0)
    + (if b.vision == Some(true) then 500.0 else 0.0)
  }

  /** The 401(k) term `salary * (matchPercentage || 0) / 100`. */
  function MatchValue(s: real, r: J.Retirement): real {
    s * NumOrZero(r.matchPercentage) / 100.0
  }

  /** The paid-time-off term `(pto || 0) * (salary / 260)`. */
  function LeaveValue(s: real, b: J.OfferBenefits): real {
    NumOrZero(b.pto) * (s / 260.0)
  }

  /** The value of the offer's benefits as the controller prices them, `None` standing
      for NaN (sent as null). Both offer tests always pass, so the paid-time-off term
      `(pto || 0) * (salary / 260)` is evaluated for every job: without a salary it is
      NaN, and so is the whole sum, whatever the offer holds. */
  function BenefitsValue(salary: Option<real>, offer: Option<J.OfferDetails>): (v: Option<real>)
    ensures v.Some? <==> salary.Some?
  {
    if salary.None? then None
    else
      var o := DetailsOf(offer);
      var b := BenefitsOf(o);
      var s := salary.value;
      Some(NumOrZero(o.bonus) + NumOrZero(o.stockOptions) + FlagsValue(b)
           + (if b.retirement.Some? && b.retirement.value.has401k == Some(true)
              then MatchValue(s, b.retirement.value) else 0.0)
           + LeaveValue(s, b))
  }

  /** The running `benefitsScore +=` computation of one job; `nan` records that a term
      multiplied by the missing salary made the sum NaN. */
  method BenefitsScore(salary: Option<real>, offer: Option<J.OfferDetails>) returns (score: Option<real>)
    ensures score == BenefitsValue(salary, offer)
  {
    var sum := 0.0;
    var nan := false;
    var o := DetailsOf(offer);
    sum := sum + NumOrZero(o.bonus);
    sum := sum + NumOrZero(o.stockOptions);
    var b := BenefitsOf(o);
    if b.healthcare == Some(true) { sum := sum + 5000.0; }
    if b.dental == Some(true) { sum := sum + 1000.0; }
    if b.vision == Some(true) { sum := sum + 500.0; }
    if b.retirement.Some? && b.retirement.value.has401k == Some(true) {
      if salary.Some? {
        sum := sum + MatchValue(salary.value, b.retirement.value);
      } else {
        nan := true;
      }
    }
    if salary.Some? {
      sum := sum + LeaveValue(salary.value, b);
    } else {
      nan := true;
    }
    score := if nan then None else Some(sum);
  }

  /** Without a salary the benefits value is NaN whatever the offer; with one, a job
      saved without offer details is worth 0, and details without a benefits block are
      worth bonus plus stock options. */
  lemma BenefitsWithoutDetails(salary: Option<real>, offer: Option<J.OfferDetails>)
    ensures salary.None? ==> BenefitsValue(salary, offer).None?
    ensures salary.Some? && offer.None? ==> BenefitsValue(salary, offer) == Some(0.0)
    ensures salary.Some? && offer.Some? && offer.value.benefits.None? ==>
      BenefitsValue(salary, offer) == Some(NumOrZero(offer.value.bonus) + NumOrZero(offer.value.stockOptions))
  {
    if salary.Some? {
      var none := J.OfferBenefits(None, None, None, None, None);
      assert LeaveValue(salary.value, none) == 0.0;
      assert FlagsValue(none) == 0.0;
    }
  }

  /** A year's paid time off (260 working days) is worth a year's salary. */
  lemma FullYearOfLeave(salary: real)
    ensures var b := J.OfferBenefits(None, None, None, None, Some(260.0));
      BenefitsValue(Some(salary), Some(J.OfferDetails(None, None, None, Some(b), None, None))) == Some(salary)
  {
  }

  /** One row of the comparison answer; `None` is a NaN score, sent as null. */
  datatype Comparison = Comparison(jobId: Id, company: string, title: string,
                                   location: Option<string>, baseSalary: Option<real>,
                                   normalizedSalary: real, benefitsValue: Option<real>,
                                   costOfLivingIndex: Option<real>, totalScore: Option<real>,
                                   weightedSalary: real, weightedBenefits: Option<real>)

  /** The scored row of a job under a cost-of-living index and the salary and benefits
      weights; these are all `Score` reads of a valuation. */
  function ScoreUnder(job: J.Job, index: Option<real>, salaryWeight: real, benefitsWeight: real): Comparison {
    var salaryScore := SalaryScore(job.salary, index);
    var benefitsScore := BenefitsValue(job.salary, job.offer);
    var ws := salaryScore * salaryWeight;
    var wb := if benefitsScore.Some? then Some(benefitsScore.value * benefitsWeight) else None;
    var total := if wb.Some? then Some(ws + wb.value) else None;
    Comparison(job.id, job.company, job.title, job.location, job.salary, salaryScore,
               benefitsScore, index, total, ws, wb)
  }

  /** The scored row of a job and its valuation. */
  function Score(job: J.Job, v: Valuation): (c: Comparison)
    ensures c.normalizedSalary == SalaryScore(job.salary, v.costOfLivingIndex)
    ensures c.weightedSalary == c.normalizedSalary * v.weights.salary
    ensures c.benefitsValue == BenefitsValue(job.salary, job.offer)
    ensures c.weightedBenefits.Some? <==> c.benefitsValue.Some?
    ensures c.weightedBenefits.Some? ==> c.weightedBenefits.value == c.benefitsValue.value * v.weights.benefits
    ensures c.totalScore.Some? <==> job.salary.Some?
    ensures c.totalScore.Some? ==> c.totalScore.value == c.weightedSalary + c.weightedBenefits.value
    ensures c.baseSalary == job.salary && c.jobId == job.id
  {
    ScoreUnder(job, v.costOfLivingIndex, v.weights.salary, v.weights.benefits)
  }

  /** The cost-of-living weight takes no part in the score. */
  lemma CostOfLivingWeightUnused(job: J.Job, v: Valuation, w: real)
    ensures Score(job, v.(weights := v.weights.(costOfLiving := w))) == Score(job, v)
  {
    var v' := v.(weights := v.weights.(costOfLiving := w));
    assert v'.weights.salary == v.weights.salary && v'.weights.benefits == v.weights.benefits;
    assert v'.costOfLivingIndex == v.costOfLivingIndex;
  }

  /** With the default weights and a salary, the score is the salary score plus half
      the benefits. */
  lemma DefaultWeightsScore(job: J.Job, v: Valuation)
    requires v.weights == DefaultWeights && job.salary.Some?
    ensures Score(job, v).totalScore
         == Some(SalaryScore(job.salary, v.costOfLivingIndex) + BenefitsValue(job.salary, job.offer).value / 2.0)
  {
  }

  // ---------------------------------------------------------------------------
  // compareJobs

  /** `Job.findOne({ _id, user })` succeeds. */
  predicate Owns(jobs: map<Id, J.Job>, user: Id, id: Id) {
    id in jobs && jobs[id].user == user
  }

  /** The valuation of the owned job `id` the comparison uses: the stored one, or the one
      it creates. */
  function ValuationFor(values: map<Id, Valuation>, id: Id, job: J.Job, now: int): Valuation {
    if id in values then values[id] else NewComparedValuation(job, now)
  }

  /** A job the comparison found, under the requested id, with its valuation. */
  datatype Entry = Entry(id: Id, job: J.Job, value: Valuation)

  /** The requested jobs the user owns, each with its valuation, in request order
      (an id requested twice appears twice). */
  function OwnedEntries(jobs: map<Id, J.Job>, values: map<Id, Valuation>, user: Id,
                        ids: seq<Id>, now: int): (r: seq<Entry>)
    ensures |r| <= |ids|
    decreases |ids|
  {
    if ids == [] then []
    else
      var init := OwnedEntries(jobs, values, user, ids[..|ids| - 1], now);
      var id := ids[|ids| - 1];
      if Owns(jobs, user, id) then init + [Entry(id, jobs[id], ValuationFor(values, id, jobs[id], now))]
      else init
  }

  /** The request ids the user owns. */
  function OwnedIds(jobs: map<Id, J.Job>, user: Id, ids: seq<Id>): set<Id> {
    set id | id in ids && Owns(jobs, user, id)
  }

  /** The ids of some entries. */
  function IdsOf(es: seq<Entry>): set<Id> {
    set e | e in es :: e.id
  }

  /** The valuations once `JobValue.create` has run for every owned job without one;
      this happens for each job as it is looked up, before the count of owned jobs is
      checked. */
  function Created(jobs: map<Id, J.Job>, values: map<Id, Valuation>, user: Id,
                   ids: seq<Id>, now: int): (m: map<Id, Valuation>)
    ensures m.Keys == values.Keys + OwnedIds(jobs, user, ids)
  {
    map id | id in values.Keys + OwnedIds(jobs, user, ids) ::
      if id in values then values[id] else NewComparedValuation(jobs[id], now)
  }

  /** The valuations after the valuation of every job in `ids` has been given the custom
      weights and saved. */
  function Customised(m: map<Id, Valuation>, ids: set<Id>, custom: Option<WeightsPatch>): map<Id, Valuation> {
    map id | id in m :: if id in ids then WithWeights(m[id], custom) else m[id]
  }

  /** Every listed entry is a job the user owns, stored under its id and listed in the
      request, with the valuation `Created` holds for it; the listed ids are the owned
      request ids. */
  lemma {:induction false} OwnedEntriesOwned(jobs: map<Id, J.Job>, values: map<Id, Valuation>,
                                             user: Id, ids: seq<Id>, now: int)
    ensures forall e :: e in OwnedEntries(jobs, values, user, ids, now) ==>
      e.job.user == user && e.id in jobs && jobs[e.id] == e.job && e.id in ids
      && e.value == Created(jobs, values, user, ids, now)[e.id]
    ensures IdsOf(OwnedEntries(jobs, values, user, ids, now)) == OwnedIds(jobs, user, ids)
    decreases |ids|
  {
    if ids != [] {
      var init := ids[..|ids| - 1];
      OwnedEntriesOwned(jobs, values, user, init, now);
      assert ids == init + [ids[|ids| - 1]];
      var id := ids[|ids| - 1];
      var before := OwnedEntries(jobs, values, user, init, now);
      forall e | e in OwnedEntries(jobs, values, user, ids, now)
        ensures e.value == Created(jobs, values, user, ids, now)[e.id]
      {
        if e in before {
          assert e.id in OwnedIds(jobs, user, init);
        }
      }
      if Owns(jobs, user, id) {
        var e := Entry(id, jobs[id], ValuationFor(values, id, jobs[id], now));
        assert OwnedEntries(jobs, values, user, ids, now) == before + [e];
        assert IdsOf(before + [e]) == IdsOf(before) + {id};
        assert OwnedIds(jobs, user, ids) == OwnedIds(jobs, user, init) + {id};
      } else {
        assert OwnedIds(jobs, user, ids) == OwnedIds(jobs, user, init);
      }
    }
  }

  /** The entry with the request's custom weights written into its valuation. */
  function WithCustom(e: Entry, custom: Option<WeightsPatch>): Entry {
    e.(value := WithWeights(e.value, custom))
  }

  /** `validJobValues.forEach(...)`: writes the custom weights into every valuation of
      the array and saves it. `saved` is the valuation store after the saves, which the
      handler starts and does not await. */
  method ApplyCustomWeights(a: array<Entry>, custom: Option<WeightsPatch>, stored: map<Id, Valuation>)
    returns (saved: map<Id, Valuation>)
    requires forall k :: 0 <= k < a.Length ==> a[k].id in stored && a[k].value == stored[a[k].id]
    modifies a
    ensures forall k :: 0 <= k < a.Length ==> a[k] == WithCustom(old(a[k]), custom)
    ensures saved == if custom.Some? then Customised(stored, IdsOf(old(a[..])), custom) else stored
  {
    saved := stored;
    if custom.Some? {
      ghost var before := a[..];
      for k := 0 to a.Length
        invariant forall m :: 0 <= m < k ==> a[m] == WithCustom(before[m], custom)
        invariant forall m :: k <= m < a.Length ==> a[m] == before[m]
        invariant saved == Customised(stored, IdsOf(before[..k]), custom)
      {
        assert IdsOf(before[..k + 1]) == IdsOf(before[..k]) + {before[k].id} by {
          assert before[..k + 1] == before[..k] + [before[k]];
        }
        a[k] := WithCustom(a[k], custom);
        saved := saved[a[k].id := a[k].value];
      }
      assert before[..a.Length] == before;
    }
  }

  /** Each found entry carries the valuation the lookup left in the store. */
  lemma FoundInStore(jobs: map<Id, J.Job>, values: map<Id, Valuation>, user: Id, ids: seq<Id>, now: int)
    ensures var created := Created(jobs, values, user, ids, now);
      forall e :: e in OwnedEntries(jobs, values, user, ids, now) ==> e.id in created && e.value == created[e.id]
  {
    OwnedEntriesOwned(jobs, values, user, ids, now);
  }

  /** The store of an answered comparison: the created valuations with the custom
      weights saved into the found ones. */
  lemma AnsweredStore(jobs: map<Id, J.Job>, values: map<Id, Valuation>, user: Id,
                      ids: seq<Id>, custom: Option<WeightsPatch>, now: int)
    requires |OwnedEntries(jobs, values, user, ids, now)| >= 2
    ensures AfterCompare(jobs, values, user, ids, custom, now)
         == Customised(Created(jobs, values, user, ids, now), IdsOf(OwnedEntries(jobs, values, user, ids, now)), custom)
  {
    OwnedEntriesOwned(jobs, values, user, ids, now);
  }

  /** Saving no custom weights changes no valuation. */
  lemma NoCustomNoChange(m: map<Id, Valuation>, ids: set<Id>)
    ensures Customised(m, ids, None) == m
  {
  }

  /** The rows the ranking sorts. */
  function ScoredRows(es: seq<Entry>, custom: Option<WeightsPatch>): (r: seq<Comparison>)
    ensures |r| == |es|
    ensures forall k :: 0 <= k < |es| ==> r[k] == Score(es[k].job, WithWeights(es[k].value, custom))
    ensures forall c :: c in r ==> (c.totalScore.Some? <==> c.baseSalary.Some?)
  {
    seq(|es|, k requires 0 <= k < |es| => Score(es[k].job, WithWeights(es[k].value, custom)))
  }

  /** When every found job has a salary, every score is a number. */
  lemma ScoredNumbers(es: seq<Entry>, custom: Option<WeightsPatch>)
    requires forall e :: e in es ==> e.job.salary.Some?
    ensures forall c :: c in ScoredRows(es, custom) ==> c.totalScore.Some?
  {
    forall c | c in ScoredRows(es, custom)
      ensures c.totalScore.Some?
    {
      var k :| 0 <= k < |es| && ScoredRows(es, custom)[k] == c;
      assert es[k] in es;
    }
  }

  /** The key under which an ascending sort ranks the highest score first. A NaN score
      makes the comparator `b.totalScore - a.totalScore` inconsistent and leaves the
      order to the engine; the model ranks such a row as a score of 0. */
  function Rank(c: Comparison): real {
    if c.totalScore.Some? then -c.totalScore.value else 0.0
  }

  /** The valuation store after a comparison of the request `ids`. */
  function AfterCompare(jobs: map<Id, J.Job>, values: map<Id, Valuation>, user: Id,
                        ids: seq<Id>, custom: Option<WeightsPatch>, now: int): map<Id, Valuation> {
    var created := Created(jobs, values, user, ids, now);
    if |OwnedEntries(jobs, values, user, ids, now)| < 2 then created
    else Customised(created, OwnedIds(jobs, user, ids), custom)
  }

  /** After a comparison every owned job has a valuation, which carries the request's
      custom weights when the comparison was answered; no other valuation changes, so a
      later comparison without custom weights scores with the saved ones. */
  lemma ComparisonStoresWeights(jobs: map<Id, J.Job>, values: map<Id, Valuation>, user: Id,
                                ids: seq<Id>, custom: WeightsPatch, now: int, id: Id)
    requires |OwnedEntries(jobs, values, user, ids, now)| >= 2
    ensures var after := AfterCompare(jobs, values, user, ids, Some(custom), now);
      (id in ids && Owns(jobs, user, id) ==>
         id in after && after[id].weights == Patched(ValuationFor(values, id, jobs[id], now).weights, custom))
      && (id !in OwnedIds(jobs, user, ids) ==>
            (id in after <==> id in values) && (id in values ==> after[id] == values[id]))
  {
  }

  /** One more request id: the store gains a new valuation only for an owned job that
      had none. */
  lemma CreatedStep(jobs: map<Id, J.Job>, values: map<Id, Valuation>, user: Id, ids: seq<Id>, id: Id, now: int)
    ensures var created := Created(jobs, values, user, ids, now);
      Created(jobs, values, user, ids + [id], now)
        == if Owns(jobs, user, id) && id !in created then created[id := NewComparedValuation(jobs[id], now)]
           else created
  {
    assert OwnedIds(jobs, user, ids + [id])
        == OwnedIds(jobs, user, ids) + (if Owns(jobs, user, id) then {id} else {});
  }

  /** One more request id: an owned job is listed with the valuation the store holds
      for it, or with a new one. */
  lemma EntriesStep(jobs: map<Id, J.Job>, values: map<Id, Valuation>, user: Id, ids: seq<Id>, id: Id, now: int)
    ensures var created := Created(jobs, values, user, ids, now);
      OwnedEntries(jobs, values, user, ids + [id], now)
        == OwnedEntries(jobs, values, user, ids, now)
           + if Owns(jobs, user, id) then [Entry(id, jobs[id], if id in created then created[id] else NewComparedValuation(jobs[id], now))]
             else []
  {
    assert (ids + [id])[..|ids + [id]| - 1] == ids;
    var created := Created(jobs, values, user, ids, now);
    if Owns(jobs, user, id) {
      assert ValuationFor(values, id, jobs[id], now)
          == if id in created then created[id] else NewComparedValuation(jobs[id], now);
    }
  }

  /** The `Promise.all` lookup of `compareJobs`, in request order: each owned job with
      its valuation, created where it was missing. */
  method FindOwned(jobs: map<Id, J.Job>, values: map<Id, Valuation>, user: Id, ids: seq<Id>, now: int)
    returns (valid: seq<Entry>, stored: map<Id, Valuation>)
    ensures valid == OwnedEntries(jobs, values, user, ids, now)
    ensures stored == Created(jobs, values, user, ids, now)
  {
    valid, stored := [], values;
    for i := 0 to |ids|
      invariant valid == OwnedEntries(jobs, values, user, ids[..i], now)
      invariant stored == Created(jobs, values, user, ids[..i], now)
    {
      var id := ids[i];
      assert ids[..i + 1] == ids[..i] + [id];
      CreatedStep(jobs, values, user, ids[..i], id, now);
      EntriesStep(jobs, values, user, ids[..i], id, now);
      if id in jobs && jobs[id].user == user {
        if id !in stored {
          stored := stored[id := NewComparedValuation(jobs[id], now)];
        }
        valid := valid + [Entry(id, jobs[id], stored[id])];
      }
    }
    assert ids[..|ids|] == ids;
  }

  /** Rows in ascending rank order whose scores are all numbers are in descending
      order of score. */
  lemma RankedByScore(rows: seq<Comparison>)
    requires Sorting.SortedBy(rows, Rank)
    requires forall c :: c in rows ==> c.totalScore.Some?
    ensures forall i, k :: 0 <= i < k < |rows| ==> rows[i].totalScore.value >= rows[k].totalScore.value
  {
    forall i, k | 0 <= i < k < |rows|
      ensures rows[i].totalScore.value >= rows[k].totalScore.value
    {
      assert rows[i] in rows && rows[k] in rows;
      assert Rank(rows[i]) <= Rank(rows[k]);
    }
  }

  /** The ranking: `jobComparisons.sort((a, b) => b.totalScore - a.totalScore)` on a
      copy of the rows. */
  method RankRows(rows: seq<Comparison>) returns (ranked: seq<Comparison>)
    ensures multiset(ranked) == multiset(rows)
    ensures (forall c :: c in rows ==> c.totalScore.Some?) ==>
      forall i, k :: 0 <= i < k < |ranked| ==>
        ranked[i].totalScore.Some? && ranked[k].totalScore.Some?
        && ranked[i].totalScore.value >= ranked[k].totalScore.value
  {
    var a := new Comparison[|rows|](k requires 0 <= k < |rows| => rows[k]);
    assert a[..] == rows;
    Sorting.SortBy(a, Rank);
    ranked := a[..];
    if forall c :: c in rows ==> c.totalScore.Some? {
      forall c | c in ranked
        ensures c.totalScore.Some?
      {
        assert c in multiset(rows);
      }
      RankedByScore(ranked);
    }
  }

  /** `jobValues.map(...)` over the array after the weights were written: each row is
      the score of its job under the valuation with the custom weights. */
  method ScoreEntries(a: array<Entry>, ghost found: seq<Entry>, custom: Option<WeightsPatch>)
    returns (scored: seq<Comparison>)
    requires a.Length == |found|
    requires forall k :: 0 <= k < a.Length ==> a[k] == WithCustom(found[k], custom)
    ensures scored == ScoredRows(found, custom)
  {
    scored := seq(a.Length, k reads a requires 0 <= k < a.Length => Score(a[k].job, a[k].value));
  }

  /** The answer of a comparison that found at least two owned jobs: the custom weights
      are written into each found valuation and saved, and the scored rows are ranked. */
  method SaveAndScore(valid: seq<Entry>, custom: Option<WeightsPatch>, stored: map<Id, Valuation>)
    returns (rows: seq<Comparison>, saved: map<Id, Valuation>)
    requires forall e :: e in valid ==> e.id in stored && e.value == stored[e.id]
    ensures saved == Customised(stored, IdsOf(valid), custom)
    ensures multiset(rows) == multiset(ScoredRows(valid, custom))
    ensures (forall e :: e in valid ==> e.job.salary.Some?) ==>
      forall i, k :: 0 <= i < k < |rows| ==>
        rows[i].totalScore.Some? && rows[k].totalScore.Some?
        && rows[i].totalScore.value >= rows[k].totalScore.value
  {
    var owned := new Entry[|valid|](k requires 0 <= k < |valid| => valid[k]);
    assert owned[..] == valid;
    saved := ApplyCustomWeights(owned, custom, stored);
    if custom.None? {
      NoCustomNoChange(stored, IdsOf(valid));
    }
    var scored := ScoreEntries(owned, valid, custom);
    if forall e :: e in valid ==> e.job.salary.Some? {
      ScoredNumbers(valid, custom);
    }
    rows := RankRows(scored);
  }

  /** `compareJobs`: 400 without at least two requested ids; otherwise a valuation is
      created for every owned job without one, 400 follows when fewer than two of the
      requested ids are the user's, and else the custom weights are saved into the
      valuations and the answer is the scored rows of the owned jobs, a permutation
      that ranks the highest total score first whenever every job has a salary, so
      that every score is a number. */
  method CompareJobs(jobs: map<Id, J.Job>, values: map<Id, Valuation>, user: Id,
                     jobIds: Option<seq<Id>>, custom: Option<WeightsPatch>, now: int)
    returns (r: Result<seq<Comparison>>, stored: map<Id, Valuation>)
    ensures jobIds.None? || |jobIds.value| < 2 ==> r == Err(BadRequest) && stored == values
    ensures jobIds.Some? && |jobIds.value| >= 2 ==>
      var owned := OwnedEntries(jobs, values, user, jobIds.value, now);
      stored == AfterCompare(jobs, values, user, jobIds.value, custom, now)
      && (|owned| < 2 ==> r == Err(BadRequest))
      && (|owned| >= 2 ==>
            r.Ok? && multiset(r.value) == multiset(ScoredRows(owned, custom))
            && ((forall e :: e in owned ==> e.job.salary.Some?) ==>
                  forall i, k :: 0 <= i < k < |r.value| ==>
                    r.value[i].totalScore.Some? && r.value[k].totalScore.Some?
                    && r.value[i].totalScore.value >= r.value[k].totalScore.value))
  {
    if jobIds.None? || |jobIds.value| < 2 {
      return Err(BadRequest), values;
    }
    var ids := jobIds.value;
    var valid;
    valid, stored := FindOwned(jobs, values, user, ids, now);
    if |valid| < 2 {
      return Err(BadRequest), stored;
    }
    FoundInStore(jobs, values, user, ids, now);
    AnsweredStore(jobs, values, user, ids, custom, now);
    var rows;
    rows, stored := SaveAndScore(valid, custom, stored);
    r := Ok(rows);
  }

  // ---------------------------------------------------------------------------
  // updateJobValue

  const NationalAverageIndex: real := 100.0

  /** A salary restated at the national average cost of living. */
  function Normalized(salary: real, index: real): real
    requires index != 0.0
  {
    salary * (NationalAverageIndex / index)
  }

  /** The fields of an update body the model tracks; the handler copies every key it is
      given. A `customWeights` value is a complete set of weights. */
  datatype ValuationPatch = ValuationPatch(location: Option<string>,
                                           costOfLivingIndex: Option<real>,
                                           costOfLivingSource: Option<string>,
                                           averageIndustrySalary: Option<real>,
                                           normalizedSalary: Option<real>,
                                           valueRatio: Option<real>,
                                           customWeights: Option<Weights>)

  /** A key of the body when it is given, else the stored value. */
  function Given<T>(given: Option<T>, stored: Option<T>): Option<T> {
    if given.Some? then given else stored
  }

  /** The valuation after the body's keys are copied in. */
  function CopyBody(v: Valuation, body: ValuationPatch): (r: Valuation)
    ensures body.location.Some? ==> r.location == body.location
    ensures body.location.None? ==> r.location == v.location
    ensures body.costOfLivingIndex.Some? ==> r.costOfLivingIndex == body.costOfLivingIndex
    ensures body.costOfLivingIndex.None? ==> r.costOfLivingIndex == v.costOfLivingIndex
    ensures body.costOfLivingSource.Some? ==> r.costOfLivingSource == body.costOfLivingSource
    ensures body.costOfLivingSource.None? ==> r.costOfLivingSource == v.costOfLivingSource
    ensures body.averageIndustrySalary.Some? ==> r.averageIndustrySalary == body.averageIndustrySalary
    ensures body.averageIndustrySalary.None? ==> r.averageIndustrySalary == v.averageIndustrySalary
    ensures body.normalizedSalary.Some? ==> r.normalizedSalary == body.normalizedSalary
    ensures body.normalizedSalary.None? ==> r.normalizedSalary == v.normalizedSalary
    ensures body.valueRatio.Some? ==> r.valueRatio == body.valueRatio
    ensures body.valueRatio.None? ==> r.valueRatio == v.valueRatio
    ensures body.customWeights.Some? ==> r.weights == body.customWeights.value
    ensures body.customWeights.None? ==> r.weights == v.weights
    ensures r.job == v.job && r.updatedAt == v.updatedAt
  {
    Valuation(v.job, Given(body.location, v.location), Given(body.costOfLivingIndex, v.costOfLivingIndex),
              Given(body.costOfLivingSource, v.costOfLivingSource),
              Given(body.averageIndustrySalary, v.averageIndustrySalary),
              Given(body.normalizedSalary, v.normalizedSalary), Given(body.valueRatio, v.valueRatio),
              body.customWeights.GetOr(v.weights), v.updatedAt)
  }

  /** `updateJobValue`: 404 for an unknown job, 401 for another user's job; otherwise the
      stored (or a new, empty) valuation with the body copied in, the salary normalised
      to the national index when the salary and the index are both truthy, the value
      ratio recomputed when the industry average is positive as well, and the update
      time set. */
  method UpdateJobValue(jobs: map<Id, J.Job>, values: map<Id, Valuation>, user: Id,
                        jobId: Id, body: ValuationPatch, now: int)
    returns (r: Result<Valuation>)
    ensures jobId !in jobs ==> r == Err(NotFound)
    ensures jobId in jobs && jobs[jobId].user != user ==> r == Err(Unauthorized)
    ensures Owns(jobs, user, jobId) ==>
      var job := jobs[jobId];
      var before := if jobId in values then values[jobId]
                    else Valuation(jobId, job.location, None, None, None, None, None, DefaultWeights, now);
      var copied := CopyBody(before, body);
      var normalise := TruthyNum(job.salary) && TruthyNum(copied.costOfLivingIndex);
      r.Ok?
      && r.value == copied.(normalizedSalary := r.value.normalizedSalary,
                            valueRatio := r.value.valueRatio, updatedAt := now)
      && r.value.normalizedSalary
         == (if normalise then Some(Normalized(job.salary.value, copied.costOfLivingIndex.value))
             else copied.normalizedSalary)
      && r.value.valueRatio
         == (if normalise && TruthyNum(copied.averageIndustrySalary) && copied.averageIndustrySalary.value > 0.0
             then Some(r.value.normalizedSalary.value / copied.averageIndustrySalary.value)
             else copied.valueRatio)
  {
    if jobId !in jobs {
      return Err(NotFound);
    }
    var job := jobs[jobId];
    if job.user != user {
      return Err(Unauthorized);
    }
    var v := if jobId in values then values[jobId]
             else Valuation(jobId, job.location, None, None, None, None, None, DefaultWeights, now);
    v := CopyBody(v, body);
    if TruthyNum(job.salary) && TruthyNum(v.costOfLivingIndex) {
      v := v.(normalizedSalary := Some(Normalized(job.salary.value, v.costOfLivingIndex.value)));
      if TruthyNum(v.averageIndustrySalary) && v.averageIndustrySalary.value > 0.0 {
        v := v.(valueRatio := Some(v.normalizedSalary.value / v.averageIndustrySalary.value));
      }
    }
    v := v.(updatedAt := now);
    return Ok(v);
  }

  /** The normalised salary `updateJobValue` stores is the salary score `compareJobs`
      computes for the same salary and a truthy index. */
  lemma NormalizedIsSalaryScore(salary: real, index: real)
    requires salary != 0.0 && index != 0.0
    ensures Normalized(salary, index) == SalaryScore(Some(salary), Some(index))
  {
  }

  /** A salary in a place at the national index is unchanged by normalisation, and a
      place twice as dear halves it. */
  lemma NormalizedAtIndex(salary: real)
    ensures Normalized(salary, NationalAverageIndex) == salary
    ensures Normalized(salary, 2.0 * NationalAverageIndex) == salary / 2.0
  {
  }

  // ---------------------------------------------------------------------------
  // The salary table

  datatype SalaryRange = SalaryRange(min: real, max: real, median: real)

  const TitleCount := 18

  /** Row `i` of the title table, in declaration order. */
  function TitleRow(i: nat): (row: (string, SalaryRange))
    requires i < TitleCount
    ensures row.1.min <= row.1.median <= row.1.max
    ensures i != 1 ==> |row.0| < |"senior software engineer"|
  {
    match i
    case 0 => ("software engineer", SalaryRange(75000.0, 150000.0, 105000.0))
    case 1 => ("senior software engineer", SalaryRange(110000.0, 180000.0, 140000.0))
    case 2 => ("software developer", SalaryRange(70000.0, 140000.0, 95000.0))
    case 3 => ("frontend developer", SalaryRange(70000.0, 135000.0, 90000.0))
    case 4 => ("backend developer", SalaryRange(80000.0, 150000.0, 105000.0))
    case 5 => ("fullstack developer", SalaryRange(85000.0, 160000.0, 110000.0))
    case 6 => ("product manager", SalaryRange(90000.0, 170000.0, 120000.0))
    case 7 => ("project manager", SalaryRange(75000.0, 150000.0, 100000.0))
    case 8 => ("data scientist", SalaryRange(90000.0, 170000.0, 120000.0))
    case 9 => ("data analyst", SalaryRange(65000.0, 120000.0, 85000.0))
    case 10 => ("ux designer", SalaryRange(70000.0, 130000.0, 90000.0))
    case 11 => ("ui designer", SalaryRange(65000.0, 125000.0, 85000.0))
    case 12 => ("devops engineer", SalaryRange(90000.0, 160000.0, 120000.0))
    case 13 => ("qa engineer", SalaryRange(65000.0, 120000.0, 85000.0))
    case 14 => ("marketing manager", SalaryRange(60000.0, 120000.0, 80000.0))
    case 15 => ("sales manager", SalaryRange(65000.0, 140000.0, 90000.0))
    case 16 => ("hr manager", SalaryRange(60000.0, 110000.0, 80000.0))
    case _ => ("recruiter", SalaryRange(45000.0, 90000.0, 60000.0))
  }

  /** The row of the default title. */
  const SoftwareDeveloper := 2

  const LocationCount := 19

  /** Row `i` of the location-modifier table, in declaration order. */
  function LocationRow(i: nat): (row: (string, real))
    requires i < LocationCount
    ensures row.1 > 0.0
  {
    match i
    case 0 => ("new york", 1.3)
    case 1 => ("san francisco", 1.4)
    case 2 => ("silicon valley", 1.4)
    case 3 => ("los angeles", 1.25)
    case 4 => ("chicago", 1.1)
    case 5 => ("austin", 1.05)
    case 6 => ("denver", 1.05)
    case 7 => ("seattle", 1.2)
    case 8 => ("boston", 1.2)
    case 9 => ("dallas", 1.0)
    case 10 => ("miami", 1.0)
    case 11 => ("atlanta", 1.0)
    case 12 => ("detroit", 0.9)
    case 13 => ("cleveland", 0.85)
    case 14 => ("phoenix", 0.95)
    case 15 => ("las vegas", 0.9)
    case 16 => ("portland", 1.05)
    case 17 => ("nashville", 0.95)
    case _ => ("remote", 1.0)
  }

  /** Either string contains the other. */
  predicate Overlaps(a: string, b: string) {
    Contains(a, b) || Contains(b, a)
  }

  /** The text and the key of title row `k` overlap. */
  predicate TitleHit(text: string, k: nat)
    requires k < TitleCount
  {
    Overlaps(text, TitleRow(k).0)
  }

  /** `Object.keys(baseSalaries).find(t => text.includes(t) || t.includes(text))`,
      searching from row `from` on. */
  function FirstTitleOverlap(text: string, from: nat): (r: Option<nat>)
    requires from <= TitleCount
    ensures r.Some? ==> from <= r.value < TitleCount && TitleHit(text, r.value)
                        && forall k :: from <= k < r.value ==> !TitleHit(text, k)
    ensures r.None? ==> forall k :: from <= k < TitleCount ==> !TitleHit(text, k)
    decreases TitleCount - from
  {
    if from == TitleCount then None
    else if TitleHit(text, from) then Some(from)
    else FirstTitleOverlap(text, from + 1)
  }

  /** The row of the matched title: the first overlapping key, else the software
      developer row. */
  function MatchTitle(title: string): (i: nat)
    ensures i < TitleCount
    ensures FirstTitleOverlap(ToLower(title), 0).None? ==> i == SoftwareDeveloper
  {
    var found := FirstTitleOverlap(ToLower(title), 0);
    if found.Some? then found.value else SoftwareDeveloper
  }

  /** The text and the key of location row `k` overlap. */
  predicate LocationHit(text: string, k: nat)
    requires k < LocationCount
  {
    Overlaps(text, LocationRow(k).0)
  }

  /** The same search over the location table. */
  function FirstLocationOverlap(text: string, from: nat): (r: Option<nat>)
    requires from <= LocationCount
    ensures r.Some? ==> from <= r.value < LocationCount && LocationHit(text, r.value)
                        && forall k :: from <= k < r.value ==> !LocationHit(text, k)
    ensures r.None? ==> forall k :: from <= k < LocationCount ==> !LocationHit(text, k)
    decreases LocationCount - from
  {
    if from == LocationCount then None
    else if LocationHit(text, from) then Some(from)
    else FirstLocationOverlap(text, from + 1)
  }

  /** The location modifier: 1 for an absent or empty location, else the factor of the
      first overlapping location, else 1. */
  function LocationModifier(location: Option<string>): (m: real)
    ensures m > 0.0
    ensures !TruthyStr(location) ==> m == 1.0
    ensures TruthyStr(location) && FirstLocationOverlap(ToLower(location.value), 0).None? ==> m == 1.0
  {
    if !TruthyStr(location) then 1.0
    else
      var found := FirstLocationOverlap(ToLower(location.value), 0);
      if found.Some? then LocationRow(found.value).1 else 1.0
  }

  datatype SalaryData = SalaryData(matchedTitle: string, national: SalaryRange,
                                   localMin: int, localMax: int, localMedian: int,
                                   locationFactor: real)

  /** A national range scaled by the location factor `m` and rounded; a positive factor
      keeps it ordered. */
  function LocalSalary(range: SalaryRange, m: real): (local: (int, int, int))
    requires range.min <= range.median <= range.max && m > 0.0
    ensures local == (Round(range.min * m), Round(range.max * m), Round(range.median * m))
    ensures local.0 <= local.2 <= local.1
  {
    RoundMonotone(range.min * m, range.median * m);
    RoundMonotone(range.median * m, range.max * m);
    (Round(range.min * m), Round(range.max * m), Round(range.median * m))
  }

  /** The salary data of a matched row in a place with factor `m`. */
  function RowSalaryData(row: nat, m: real): (d: SalaryData)
    requires row < TitleCount && m > 0.0
    ensures d.matchedTitle == TitleRow(row).0 && d.national == TitleRow(row).1 && d.locationFactor == m
    ensures (d.localMin, d.localMax, d.localMedian) == LocalSalary(d.national, m)
  {
    var range := TitleRow(row).1;
    var local := LocalSalary(range, m);
    SalaryData(TitleRow(row).0, range, local.0, local.1, local.2, m)
  }

  /** The simulated salary service for a title and a location: the matched row's
      national range, and that range scaled by the location factor and rounded, which
      stays ordered. */
  function SimulateSalaryData(title: string, location: Option<string>): (d: SalaryData)
    ensures d.national == TitleRow(MatchTitle(title)).1 && d.locationFactor == LocationModifier(location)
    ensures (d.localMin, d.localMax, d.localMedian) == LocalSalary(d.national, d.locationFactor)
    ensures d.localMin <= d.localMedian <= d.localMax
  {
    RowSalaryData(MatchTitle(title), LocationModifier(location))
  }

  /** Every title that names the senior role contains "software engineer", so it is
      matched to that row, the first in the table, and not to the senior row. */
  lemma SeniorTitleShadowed(title: string)
    requires Contains(ToLower(title), "senior software engineer")
    ensures MatchTitle(title) == 0 && TitleRow(MatchTitle(title)).0 == "software engineer"
    ensures SimulateSalaryData(title, None).national.median == 105000.0
  {
    var s := "senior software engineer";
    assert s[7..7 + |"software engineer"|] == "software engineer";
    ContainsAt(s, "software engineer", 7);
    ContainsTransitive(ToLower(title), s, "software engineer");
    assert TitleHit(ToLower(title), 0);
  }

  /** The key of title row `k`. */
  function TitleKey(k: nat): string
    requires k < TitleCount
  {
    TitleRow(k).0
  }

  /** The text contains the key of title row `k`. */
  predicate TitleIn(text: string, k: nat)
    requires k < TitleCount
  {
    Contains(text, TitleKey(k))
  }

  /** The longest title key, from row `from` on, that the text contains; the first one
      among keys of equal length. */
  function LongestTitleContained(text: string, from: nat): (r: Option<nat>)
    requires from <= TitleCount
    ensures r.Some? ==> from <= r.value < TitleCount && TitleIn(text, r.value)
                        && forall k :: from <= k < TitleCount && TitleIn(text, k) ==>
                             |TitleKey(k)| <= |TitleKey(r.value)|
    ensures r.None? ==> forall k :: from <= k < TitleCount ==> !TitleIn(text, k)
    decreases TitleCount - from
  {
    if from == TitleCount then None
    else
      var rest := LongestTitleContained(text, from + 1);
      if TitleIn(text, from) && (rest.None? || |TitleKey(rest.value)| <= |TitleKey(from)|)
      then Some(from)
      else rest
  }

  /** The intended title match: the longest key the title contains, so that the more
      specific row wins; otherwise the as-written rule. */
  function MatchTitleIntended(title: string): (i: nat)
    ensures i < TitleCount
    ensures (exists k :: 0 <= k < TitleCount && TitleIn(ToLower(title), k)) ==>
      TitleIn(ToLower(title), i)
      && forall k :: 0 <= k < TitleCount && TitleIn(ToLower(title), k) ==>
           |TitleKey(k)| <= |TitleKey(i)|
  {
    var longest := LongestTitleContained(ToLower(title), 0);
    if longest.Some? then longest.value else MatchTitle(title)
  }

  /** The simulated salary service with the intended title match. */
  function SimulateSalaryDataIntended(title: string, location: Option<string>): (d: SalaryData)
    ensures d.national == TitleRow(MatchTitleIntended(title)).1 && d.locationFactor == LocationModifier(location)
    ensures (d.localMin, d.localMax, d.localMedian) == LocalSalary(d.national, d.locationFactor)
  {
    RowSalaryData(MatchTitleIntended(title), LocationModifier(location))
  }

  /** Every title that names the senior role gets the senior row. */
  lemma SeniorTitleMatched(title: string)
    requires Contains(ToLower(title), "senior software engineer")
    ensures MatchTitleIntended(title) == 1
    ensures SimulateSalaryDataIntended(title, None).national.median == 140000.0
  {
    assert TitleRow(1).0 == "senior software engineer";
  }

  // ---------------------------------------------------------------------------
  // The cost-of-living table

  datatype LivingCosts = LivingCosts(index: real, housingIndex: real, groceriesIndex: real)

  const CityCount := 10

  /** Row `i` of the cost-of-living table, in declaration order. */
  function CityRow(i: nat): (row: (string, LivingCosts))
    requires i < CityCount
    ensures row.1.index > 0.0
  {
    match i
    case 0 => ("New York", LivingCosts(187.2, 242.3, 169.8))
    case 1 => ("San Francisco", LivingCosts(192.3, 296.5, 162.4))
    case 2 => ("Los Angeles", LivingCosts(166.5, 243.1, 154.2))
    case 3 => ("Chicago", LivingCosts(123.4, 164.7, 118.9))
    case 4 => ("Austin", LivingCosts(119.3, 154.8, 109.7))
    case 5 => ("Denver", LivingCosts(128.7, 184.6, 112.1))
    case 6 => ("Seattle", LivingCosts(152.8, 203.4, 139.5))
    case 7 => ("Boston", LivingCosts(162.4, 226.9, 143.7))
    case 8 => ("Dallas", LivingCosts(112.6, 134.3, 107.2))
    case _ => ("Miami", LivingCosts(129.8, 173.2, 121.6))
  }

  /** The row whose key is exactly `location`, searching from row `from` on. */
  function ExactCity(location: string, from: nat): (r: Option<nat>)
    requires from <= CityCount
    ensures r.Some? ==> from <= r.value < CityCount && CityRow(r.value).0 == location
    ensures r.None? ==> forall k :: from <= k < CityCount ==> CityRow(k).0 != location
    decreases CityCount - from
  {
    if from == CityCount then None
    else if CityRow(from).0 == location then Some(from)
    else ExactCity(location, from + 1)
  }

  /** The lower-case location contains the lower-case name of city `k`. */
  predicate NamesCity(location: string, k: nat)
    requires k < CityCount
  {
    Contains(ToLower(location), ToLower(CityRow(k).0))
  }

  /** The first city, from row `from` on, whose name the location contains, ignoring
      case. */
  function CityWithin(location: string, from: nat): (r: Option<nat>)
    requires from <= CityCount
    ensures r.Some? ==> from <= r.value < CityCount && NamesCity(location, r.value)
                        && forall k :: from <= k < r.value ==> !NamesCity(location, k)
    ensures r.None? ==> forall k :: from <= k < CityCount ==> !NamesCity(location, k)
    decreases CityCount - from
  {
    if from == CityCount then None
    else if NamesCity(location, from) then Some(from)
    else CityWithin(location, from + 1)
  }

  /** What the simulated cost-of-living service answers: the place it used, its
      indices, and the national average of 100. */
  datatype CostOfLiving = CostOfLiving(location: string, costs: LivingCosts, nationalAverage: real)

  /** `simulateCostOfLivingAPI`: an exact key first, then the first city the location
      contains, then the national average for every index. */
  function SimulateCostOfLiving(location: string): (r: CostOfLiving)
    ensures r.nationalAverage == 100.0 && r.costs.index > 0.0
    ensures ExactCity(location, 0).Some? ==> r == CostOfLiving(location, CityRow(ExactCity(location, 0).value).1, 100.0)
    ensures ExactCity(location, 0).None? && CityWithin(location, 0).Some? ==>
      r == CostOfLiving(CityRow(CityWithin(location, 0).value).0, CityRow(CityWithin(location, 0).value).1, 100.0)
    ensures ExactCity(location, 0).None? && CityWithin(location, 0).None? ==>
      r == CostOfLiving(location, LivingCosts(100.0, 100.0, 100.0), 100.0)
  {
    var exact := ExactCity(location, 0);
    if exact.Some? then CostOfLiving(location, CityRow(exact.value).1, 100.0)
    else
      var within := CityWithin(location, 0);
      if within.Some? then CostOfLiving(CityRow(within.value).0, CityRow(within.value).1, 100.0)
      else CostOfLiving(location, LivingCosts(100.0, 100.0, 100.0), 100.0)
  }

  /** A table city named exactly gets its own row. */
  lemma KnownCityExact(i: nat)
    requires i < CityCount
    ensures SimulateCostOfLiving(CityRow(i).0).costs == CityRow(i).1
  {
    var r := ExactCity(CityRow(i).0, 0);
    assert r.Some?;
    assert forall a, b :: 0 <= a < b < CityCount ==> CityRow(a).0 != CityRow(b).0;
  }
}
