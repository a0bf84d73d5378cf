/** The offer comparison page (client/src/pages/JobValueComparison.tsx): between two and
    four offers, each a salary plus a set of benefits; an estimated total value per
    offer; the check that guards the results table; and the edit handler, whose
    default offers all share one benefits object. */
module OfferComparison {

  /** One of the seven yes/no benefits of an offer. */
  datatype Flag = Health | Dental | Vision | Retirement | Remote | Flexible | Stock

  datatype Benefits = Benefits(health: bool, dental: bool, vision: bool, retirement: bool,
                               paidTimeOff: real, remote: bool, flexible: bool, stock: bool,
                               bonus: real)

  /** An offer; `id` stands for the decimal string the page stores. */
  datatype Offer = Offer(id: nat, company: string, role: string, salary: real, benefits: Benefits)

  const DefaultBenefits := Benefits(false, false, false, false, 0.0, false, false, false, 0.0)

  /** `{ ...defaultOffer, id }`: an empty offer with the given id. */
  function DefaultOffer(id: nat): Offer {
    Offer(id, "", "", 0.0, DefaultBenefits)
  }

  /** The two offers the page starts with. */
  const InitialOffers: seq<Offer> := [DefaultOffer(1), DefaultOffer(2)]

  // ---------------------------------------------------------------------------
  // Estimated total value

  /** The yearly dollar value the page gives each benefit flag. */
  function FlagValue(f: Flag): real {
    match f
    case Health => 5000.0
    case Dental => 1000.0
    case Vision => 500.0
    case Retirement => 3000.0
    case Remote => 5000.0
    case Flexible => 3000.0
    case Stock => 5000.0
  }

  const PaidTimeOffDayValue: real := 500.0

  function GetFlag(b: Benefits, f: Flag): bool {
    match f
    case Health => b.health
    case Dental => b.dental
    case Vision => b.vision
    case Retirement => b.retirement
    case Remote => b.remote
    case Flexible => b.flexible
    case Stock => b.stock
  }

  function SetFlag(b: Benefits, f: Flag, v: bool): Benefits {
    match f
    case Health => b.(health := v)
    case Dental => b.(dental := v)
    case Vision => b.(vision := v)
    case Retirement => b.(retirement := v)
    case Remote => b.(remote := v)
    case Flexible => b.(flexible := v)
    case Stock => b.(stock := v)
  }

  function If(b: bool, x: real): real {
    if b then x else 0.0
  }

  /** The value of the flags that are switched on. */
  function FlagsValue(b: Benefits): real {
    If(b.health, FlagValue(Health)) + If(b.dental, FlagValue(Dental))
      + If(b.vision, FlagValue(Vision)) + If(b.retirement, FlagValue(Retirement))
      + If(b.remote, FlagValue(Remote)) + If(b.flexible, FlagValue(Flexible))
      + If(b.stock, FlagValue(Stock))
  }

  /** Salary, bonus, the switched-on flags and 500 per day of paid time off. */
  function TotalValue(o: Offer): real {
    o.salary + o.benefits.bonus + FlagsValue(o.benefits) + o.benefits.paidTimeOff * PaidTimeOffDayValue
  }

  /** `calculateTotalValue`: the running total of the page, one benefit at a time. */
  method CalculateTotalValue(o: Offer) returns (total: real)
    ensures total == TotalValue(o)
  {
    var b := o.benefits;
    total := o.salary;
    total := total + b.bonus;
    if b.health { total := total + 5000.0; }
    if b.dental { total := total + 1000.0; }
    if b.vision { total := total + 500.0; }
    if b.retirement { total := total + 3000.0; }
    total := total + b.paidTimeOff * 500.0;
    if b.remote { total := total + 5000.0; }
    if b.flexible { total := total + 3000.0; }
    if b.stock { total := total + 5000.0; }
  }

  /** With no flag on and no paid time off, the total is salary plus bonus. */
  lemma PlainOfferTotal(o: Offer)
    requires forall f: Flag :: !GetFlag(o.benefits, f)
    requires o.benefits.paidTimeOff == 0.0
    ensures TotalValue(o) == o.salary + o.benefits.bonus
  {
    assert !GetFlag(o.benefits, Health) && !GetFlag(o.benefits, Dental) && !GetFlag(o.benefits, Vision);
    assert !GetFlag(o.benefits, Retirement) && !GetFlag(o.benefits, Remote);
    assert !GetFlag(o.benefits, Flexible) && !GetFlag(o.benefits, Stock);
  }

  /** Switching on one flag raises the total by exactly that flag's value. */
  lemma FlagRaisesTotal(o: Offer, f: Flag)
    requires !GetFlag(o.benefits, f)
    ensures TotalValue(o.(benefits := SetFlag(o.benefits, f, true))) == TotalValue(o) + FlagValue(f)
  {
  }

  /** Each day of paid time off adds 500. */
  lemma PaidTimeOffRaisesTotal(o: Offer, days: real)
    ensures TotalValue(o.(benefits := o.benefits.(paidTimeOff := o.benefits.paidTimeOff + days)))
         == TotalValue(o) + 500.0 * days
  {
  }

  // ---------------------------------------------------------------------------
  // Adding and removing offers

  const MaxOffers := 4
  const MinOffers := 2

  /** `addJobOffer`: at four offers nothing changes; otherwise a default offer whose id
      is the new length is appended. */
  function AddOffer(offers: seq<Offer>): (r: seq<Offer>)
    ensures |offers| >= MaxOffers ==> r == offers
    ensures |offers| < MaxOffers ==> |r| == |offers| + 1 && r[..|offers|] == offers
                                     && r[|offers|] == DefaultOffer(|offers| + 1)
  {
    if |offers| >= MaxOffers then offers else offers + [DefaultOffer(|offers| + 1)]
  }

  /** `filter((_, i) => i !== index)`. */
  function Without(offers: seq<Offer>, index: int): seq<Offer> {
    if 0 <= index < |offers| then offers[..index] + offers[index + 1..] else offers
  }

  /** `removeJobOffer`: at two offers or fewer nothing changes; otherwise the offer at
      `index` is dropped and the others keep their order. */
  function RemoveOffer(offers: seq<Offer>, index: int): (r: seq<Offer>)
    ensures |offers| <= MinOffers || index < 0 || index >= |offers| ==> r == offers
    ensures |offers| > MinOffers && 0 <= index < |offers| ==>
      |r| == |offers| - 1
      && (forall k :: 0 <= k < index ==> r[k] == offers[k])
      && (forall k :: index <= k < |r| ==> r[k] == offers[k + 1])
  {
    if |offers| <= MinOffers then offers else Without(offers, index)
  }

  /** What the user can do to the list of offers. */
  datatype Action = Add | Remove(index: int)

  function Step(offers: seq<Offer>, a: Action): seq<Offer> {
    match a
    case Add => AddOffer(offers)
    case Remove(i) => RemoveOffer(offers, i)
  }

  /** The list after a sequence of actions, the first action first. */
  function Run(offers: seq<Offer>, actions: seq<Action>): seq<Offer>
    decreases |actions|
  {
    if actions == [] then offers else Run(Step(offers, actions[0]), actions[1..])
  }

  /** From the two initial offers, any sequence of additions and removals keeps
      between two and four offers. */
  lemma {:induction false} OfferCountBounded(offers: seq<Offer>, actions: seq<Action>)
    requires MinOffers <= |offers| <= MaxOffers
    ensures MinOffers <= |Run(offers, actions)| <= MaxOffers
    decreases |actions|
  {
    if actions != [] {
      OfferCountBounded(Step(offers, actions[0]), actions[1..]);
    }
  }

  lemma InitialOffersBounded(actions: seq<Action>)
    ensures MinOffers <= |Run(InitialOffers, actions)| <= MaxOffers
  {
    OfferCountBounded(InitialOffers, actions);
  }

  /** The id rule takes the list length, so removing the first offer and adding one
      gives two offers the same id. */
  lemma RepeatedIdReachable()
    ensures var r := Run(InitialOffers, [Add, Remove(0), Add]);
      |r| == 3 && r[1].id == r[2].id == 3
  {
    var a := AddOffer(InitialOffers);
    assert a == [DefaultOffer(1), DefaultOffer(2), DefaultOffer(3)];
    var b := RemoveOffer(a, 0);
    assert b == [DefaultOffer(2), DefaultOffer(3)];
    assert Run(InitialOffers, [Add, Remove(0), Add]) == Run(b, [Add]);
  }

  // ---------------------------------------------------------------------------
  // The guard of the results table

  /** An offer the page accepts: non-empty company and role and a positive salary. */
  predicate Complete(o: Offer) {
    o.company != "" && o.role != "" && o.salary > 0.0
  }

  /** `handleCompare`: walks the offers and stops at the first incomplete one, whose
      position (counted from 1) the error message names. */
  method HandleCompare(offers: seq<Offer>) returns (showResults: bool, failed: int)
    ensures showResults <==> forall k :: 0 <= k < |offers| ==> Complete(offers[k])
    ensures showResults ==> failed == 0
    ensures !showResults ==> 1 <= failed <= |offers| && !Complete(offers[failed - 1])
                             && forall k :: 0 <= k < failed - 1 ==> Complete(offers[k])
  {
    var i := 0;
    while i < |offers|
      invariant 0 <= i <= |offers|
      invariant forall k :: 0 <= k < i ==> Complete(offers[k])
    {
      if offers[i].company == "" || offers[i].role == "" || offers[i].salary <= 0.0 {
        return false, i + 1;
      }
      i := i + 1;
    }
    return true, 0;
  }

  // ---------------------------------------------------------------------------
  // Edits

  /** One change the form makes to an offer. */
  datatype Edit = SetCompany(text: string) | SetRole(text: string) | SetSalary(amount: real)
                | SetBonus(amount: real) | SetPaidTimeOff(amount: real) | SetBenefit(flag: Flag, on: bool)

  predicate IsBenefitEdit(e: Edit) {
    e.SetBonus? || e.SetPaidTimeOff? || e.SetBenefit?
  }

  function EditBenefits(b: Benefits, e: Edit): Benefits {
    match e
    case SetBonus(x) => b.(bonus := x)
    case SetPaidTimeOff(x) => b.(paidTimeOff := x)
    case SetBenefit(f, v) => SetFlag(b, f, v)
    case _ => b
  }

  /** The offer after one edit. */
  function ApplyEdit(o: Offer, e: Edit): Offer {
    match e
    case SetCompany(s) => o.(company := s)
    case SetRole(s) => o.(role := s)
    case SetSalary(x) => o.(salary := x)
    case _ => o.(benefits := EditBenefits(o.benefits, e))
  }

  /** The intended edit: only the offer at `index` changes. */
  function EditAt(offers: seq<Offer>, index: int, e: Edit): (r: seq<Offer>)
    requires 0 <= index < |offers|
    ensures |r| == |offers| && r[index] == ApplyEdit(offers[index], e)
    ensures forall k :: 0 <= k < |offers| && k != index ==> r[k] == offers[k]
  {
    offers[index := ApplyEdit(offers[index], e)]
  }

  /** A benefit edit never touches the id, company, role or salary. */
  lemma BenefitEditKeepsHeader(o: Offer, e: Edit)
    requires IsBenefitEdit(e)
    ensures var o' := ApplyEdit(o, e);
      o'.id == o.id && o'.company == o.company && o'.role == o.role && o'.salary == o.salary
  {
  }

  /** The benefits object of the page, which the offers refer to. */
  class BenefitsObject {
    var health: bool
    var dental: bool
    var vision: bool
    var retirement: bool
    var paidTimeOff: real
    var remote: bool
    var flexible: bool
    var stock: bool
    var bonus: real

    function Value(): Benefits
      reads this
    {
      Benefits(health, dental, vision, retirement, paidTimeOff, remote, flexible, stock, bonus)
    }

    /** `{ ...defaultBenefits }`. */
    constructor ()
      ensures Value() == DefaultBenefits
    {
      health, dental, vision, retirement := false, false, false, false;
      paidTimeOff := 0.0;
      remote, flexible, stock := false, false, false;
      bonus := 0.0;
    }

    method AssignFlag(f: Flag, v: bool)
      modifies this
      ensures Value() == SetFlag(old(Value()), f, v)
    {
      match f {
        case Health => health := v;
        case Dental => dental := v;
        case Vision => vision := v;
        case Retirement => retirement := v;
        case Remote => remote := v;
        case Flexible => flexible := v;
        case Stock => stock := v;
      }
    }

    /** `benefits[field] = value`. */
    method Assign(e: Edit)
      modifies this
      ensures Value() == EditBenefits(old(Value()), e)
    {
      match e {
        case SetBonus(x) => bonus := x;
        case SetPaidTimeOff(x) => paidTimeOff := x;
        case SetBenefit(f, v) => AssignFlag(f, v);
        case _ =>
      }
    }
  }

  /** An offer object of the page: its own header fields and a reference to a
      benefits object. */
  class OfferObject {
    var id: nat
    var company: string
    var role: string
    var salary: real
    var benefits: BenefitsObject

    function Value(): Offer
      reads this, benefits
    {
      Offer(id, company, role, salary, benefits.Value())
    }

    /** `{ ...offer, id }`: a new object with the same header and the same benefits
        object. */
    constructor Spread(from: OfferObject, newId: nat)
      ensures benefits == from.benefits
      ensures Value() == from.Value().(id := newId)
    {
      id := newId;
      company := from.company;
      role := from.role;
      salary := from.salary;
      benefits := from.benefits;
    }

    /** `{ ...defaultOffer }` as the module builds it: a default header and a fresh
        copy of the default benefits. */
    constructor Default()
      ensures Value() == DefaultOffer(0) && fresh(benefits)
    {
      id := 0;
      company := "";
      role := "";
      salary := 0.0;
      benefits := new BenefitsObject();
    }
  }

  /** The values the offer objects currently hold. */
  function Values(offers: seq<OfferObject>): (r: seq<Offer>)
    reads set k | 0 <= k < |offers| :: offers[k]
    reads set k | 0 <= k < |offers| :: offers[k].benefits
    ensures |r| == |offers| && forall k :: 0 <= k < |offers| ==> r[k] == offers[k].Value()
  {
    if offers == [] then [] else Values(offers[..|offers| - 1]) + [offers[|offers| - 1].Value()]
  }

  /** No offer object appears twice in the list. */
  predicate DistinctObjects(offers: seq<OfferObject>) {
    forall i, j :: 0 <= i < j < |offers| ==> offers[i] != offers[j]
  }

  /** Every offer has a benefits object of its own. */
  predicate SeparateBenefits(offers: seq<OfferObject>)
    reads set k | 0 <= k < |offers| :: offers[k]
  {
    forall i, j :: 0 <= i < j < |offers| ==> offers[i].benefits != offers[j].benefits
  }

  /** The module-level `defaultOffer`: built once, when the page's module loads, and
      shared by every later mount of the page. */
  method ModuleDefaultOffer() returns (defaultOffer: OfferObject)
    ensures fresh(defaultOffer) && fresh(defaultOffer.benefits)
    ensures defaultOffer.Value() == DefaultOffer(0)
  {
    defaultOffer := new OfferObject.Default();
  }

  /** One mount of the page: the `useState` initialiser spreads the two initial offers
      from the module's default offer, so both hold its benefits object and start with
      whatever that object holds by then. */
  method MountPage(defaultOffer: OfferObject) returns (offers: seq<OfferObject>)
    ensures |offers| == 2
    ensures Values(offers) == [defaultOffer.Value().(id := 1), defaultOffer.Value().(id := 2)]
    ensures DistinctObjects(offers) && fresh(offers[0]) && fresh(offers[1])
    ensures defaultOffer !in offers
    ensures offers[0].benefits == offers[1].benefits == defaultOffer.benefits
  {
    var first := new OfferObject.Spread(defaultOffer, 1);
    var second := new OfferObject.Spread(defaultOffer, 2);
    offers := [first, second];
  }

  /** The first mount after the module loads: the two initial offers, both holding the
      default offer's benefits object. */
  method InitialObjects() returns (defaultOffer: OfferObject, offers: seq<OfferObject>)
    ensures Values(offers) == InitialOffers
    ensures DistinctObjects(offers)
    ensures fresh(offers[0]) && fresh(offers[1]) && fresh(defaultOffer.benefits)
    ensures defaultOffer !in offers && defaultOffer.Value() == DefaultOffer(0)
    ensures offers[0].benefits == offers[1].benefits == defaultOffer.benefits
  {
    defaultOffer := ModuleDefaultOffer();
    offers := MountPage(defaultOffer);
  }

  /** `handleInputChange`: copies the array (not the offers) and assigns into the
      offer at `index` or into its benefits object. A header edit changes that offer
      only; a benefit edit changes every offer that holds the same benefits object. */
  method HandleInputChange(offers: seq<OfferObject>, index: int, e: Edit)
    requires 0 <= index < |offers| && DistinctObjects(offers)
    modifies offers[index], offers[index].benefits
    ensures forall k :: 0 <= k < |offers| ==> offers[k].benefits == old(offers[k].benefits)
    ensures forall k :: 0 <= k < |offers| ==>
      offers[k].Value() ==
        if k == index || (IsBenefitEdit(e) && offers[k].benefits == offers[index].benefits)
        then ApplyEdit(old(offers[k].Value()), e)
        else old(offers[k].Value())
  {
    var target := offers[index];
    match e {
      case SetCompany(s) => target.company := s;
      case SetRole(s) => target.role := s;
      case SetSalary(x) => target.salary := x;
      case _ => target.benefits.Assign(e);
    }
  }

  /** Switching on a benefit of the first initial offer switches it on for the
      second offer too. */
  method SharedBenefitLeaks() returns (offers: seq<OfferObject>)
    ensures |offers| == 2
    ensures offers[0].Value().benefits.health && offers[1].Value().benefits.health
    ensures Values(offers) != EditAt(InitialOffers, 0, SetBenefit(Health, true))
  {
    var defaultOffer;
    defaultOffer, offers := InitialObjects();
    HandleInputChange(offers, 0, SetBenefit(Health, true));
    assert Values(offers)[1] == offers[1].Value();
  }

  /** `addJobOffer` on the offer objects: at four offers nothing changes; otherwise a
      new object spread from the default offer, with id `length + 1`, is appended. It
      holds the default offer's benefits object, so it carries whatever benefit edits
      reached that object; while that object still holds the default benefits, the
      values are those `AddOffer` gives. */
  method AddOfferObject(defaultOffer: OfferObject, offers: seq<OfferObject>) returns (r: seq<OfferObject>)
    ensures |offers| >= MaxOffers ==> r == offers
    ensures |offers| < MaxOffers ==>
      |r| == |offers| + 1 && r[..|offers|] == offers && fresh(r[|offers|])
      && r[|offers|].benefits == defaultOffer.benefits
      && r[|offers|].Value() == defaultOffer.Value().(id := |offers| + 1)
    ensures defaultOffer.Value() == DefaultOffer(0) ==> Values(r) == AddOffer(Values(offers))
  {
    if |offers| >= MaxOffers {
      return offers;
    }
    var added := new OfferObject.Spread(defaultOffer, |offers| + 1);
    r := offers + [added];
    assert r[..|offers|] == offers;
    assert Values(r)[..|offers|] == Values(offers) by {
      assert forall k :: 0 <= k < |offers| ==> Values(r)[k] == offers[k].Value() == Values(offers)[k];
    }
  }

  /** On the initial page, ticking Health on the first offer and then adding an offer
      gives a third offer with Health already ticked, not the default offer `AddOffer`
      appends. */
  method AddedOfferInheritsEdits() returns (offers: seq<OfferObject>)
    ensures |offers| == 3
    ensures offers[0].Value().benefits.health && offers[2].Value().benefits.health
    ensures Values(offers) != AddOffer(EditAt(InitialOffers, 0, SetBenefit(Health, true)))
  {
    var defaultOffer, initial := InitialObjects();
    HandleInputChange(initial, 0, SetBenefit(Health, true));
    assert defaultOffer.Value().benefits == initial[0].Value().benefits;
    assert defaultOffer.Value().benefits.health;
    offers := AddOfferObject(defaultOffer, initial);
    assert Values(offers)[2] == offers[2].Value();
    assert !AddOffer(EditAt(InitialOffers, 0, SetBenefit(Health, true)))[2].benefits.health;
  }

  /** Ticking Health on the first offer, leaving the page and coming back: the remounted
      page's two initial offers both start with Health ticked. */
  method RemountKeepsEdits() returns (offers: seq<OfferObject>)
    ensures |offers| == 2
    ensures offers[0].Value().benefits.health && offers[1].Value().benefits.health
    ensures Values(offers) != InitialOffers
  {
    var defaultOffer, first := InitialObjects();
    HandleInputChange(first, 0, SetBenefit(Health, true));
    assert defaultOffer.Value().benefits == first[0].Value().benefits;
    offers := MountPage(defaultOffer);
    assert Values(offers)[0] == offers[0].Value();
  }

  /** An offer spread from the default one but given its own copy of the benefits. */
  method NewSeparateOffer(id: nat) returns (o: OfferObject)
    ensures fresh(o) && fresh(o.benefits)
    ensures o.Value() == DefaultOffer(id)
  {
    o := new OfferObject.Default();
    o.id := id;
  }

  /** The initial offers built with a benefits object each. */
  method InitialSeparateObjects() returns (offers: seq<OfferObject>)
    ensures Values(offers) == InitialOffers
    ensures DistinctObjects(offers) && SeparateBenefits(offers)
  {
    var first := NewSeparateOffer(1);
    var second := NewSeparateOffer(2);
    offers := [first, second];
  }

  /** With a benefits object per offer, every edit changes exactly the offer at
      `index`, as the value model `EditAt` says. */
  method EditSeparate(offers: seq<OfferObject>, index: int, e: Edit)
    requires 0 <= index < |offers| && DistinctObjects(offers) && SeparateBenefits(offers)
    modifies offers[index], offers[index].benefits
    ensures SeparateBenefits(offers)
    ensures Values(offers) == EditAt(old(Values(offers)), index, e)
  {
    HandleInputChange(offers, index, e);
  }
}
