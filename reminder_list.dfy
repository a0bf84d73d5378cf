/** The reminders page (client/src/pages/reminders/Reminders.tsx): the filtered and
    sorted view of the list, the local updates after a toggle and a delete, and the
    overdue test. */
module ReminderList {
  import opened Common
  import opened ReminderModel
  import opened Sorting

  datatype Filter = All | Upcoming | CompletedOnly

  datatype SortOrder = ByDueDate | ByPriority

  predicate Keeps(f: Filter, r: Reminder) {
    match f
    case All => true
    case Upcoming => !r.completed
    case CompletedOnly => r.completed
  }

  /** `filtered.filter(...)` for the chosen filter. */
  function Filtered(rs: seq<Reminder>, f: Filter): (out: seq<Reminder>)
    ensures |out| <= |rs|
    ensures forall r :: r in out <==> r in rs && Keeps(f, r)
    ensures forall r :: Keeps(f, r) ==> multiset(out)[r] == multiset(rs)[r]
    ensures forall r :: !Keeps(f, r) ==> multiset(out)[r] == 0
  {
    if rs == [] then []
    else
      assert rs == [rs[0]] + rs[1..];
      var rest := Filtered(rs[1..], f);
      if Keeps(f, rs[0]) then [rs[0]] + rest else rest
  }

  /** The "all" filter keeps the whole list. */
  lemma {:induction false} AllKeepsEverything(rs: seq<Reminder>)
    ensures Filtered(rs, All) == rs
  {
    if rs != [] {
      AllKeepsEverything(rs[1..]);
      assert rs == [rs[0]] + rs[1..];
    }
  }

  /** The upcoming and completed views split the list between them. */
  lemma ViewsPartition(rs: seq<Reminder>)
    ensures multiset(Filtered(rs, Upcoming)) + multiset(Filtered(rs, CompletedOnly)) == multiset(rs)
  {
    forall r
      ensures (multiset(Filtered(rs, Upcoming)) + multiset(Filtered(rs, CompletedOnly)))[r] == multiset(rs)[r]
    {
      assert Keeps(Upcoming, r) || Keeps(CompletedOnly, r);
    }
  }

  /** `{ High: 0, Medium: 1, Low: 2 }`. */
  function PriorityOrder(p: Priority): real {
    match p
    case High => 0.0
    case Medium => 1.0
    case Low => 2.0
  }

  function DueKey(r: Reminder): real {
    r.dueDate as real
  }

  function PriorityKey(r: Reminder): real {
    PriorityOrder(r.priority)
  }

  function KeyOf(s: SortOrder): Reminder -> real {
    match s
    case ByDueDate => DueKey
    case ByPriority => PriorityKey
  }

  /** getFilteredReminders: a copy of the list is filtered and then sorted in place by
      the comparator of the chosen order. */
  method GetFilteredReminders(reminders: seq<Reminder>, f: Filter, s: SortOrder)
    returns (out: seq<Reminder>)
    ensures multiset(out) == multiset(Filtered(reminders, f))
    ensures SortedBy(out, KeyOf(s))
  {
    var filtered := Filtered(reminders, f);
    var a := new Reminder[|filtered|](i requires 0 <= i < |filtered| => filtered[i]);
    assert a[..] == filtered;
    SortBy(a, KeyOf(s));
    out := a[..];
  }

  /** In the priority order every High reminder comes before every Medium one, and
      every Medium one before every Low one. */
  lemma PriorityViewOrder(out: seq<Reminder>, i: int, j: int)
    requires SortedBy(out, KeyOf(ByPriority)) && 0 <= i < j < |out|
    ensures out[j].priority == High ==> out[i].priority == High
    ensures out[i].priority == Low ==> out[j].priority == Low
  {
    assert PriorityKey(out[i]) <= PriorityKey(out[j]);
  }

  /** In the due-date order the dates never decrease. */
  lemma DueDateViewOrder(out: seq<Reminder>, i: int, j: int)
    requires SortedBy(out, KeyOf(ByDueDate)) && 0 <= i < j < |out|
    ensures out[i].dueDate <= out[j].dueDate
  {
    assert DueKey(out[i]) <= DueKey(out[j]);
  }

  /** The list after the toggle request: reminders with the id get `!completed`, where
      `completed` is the clicked reminder's state. */
  function ToggleComplete(rs: seq<Reminder>, id: Id, completed: bool): (out: seq<Reminder>)
    ensures |out| == |rs|
    ensures forall i :: 0 <= i < |rs| ==>
      out[i] == if rs[i].id == id then rs[i].(completed := !completed) else rs[i]
  {
    seq(|rs|, i requires 0 <= i < |rs| => if rs[i].id == id then rs[i].(completed := !completed) else rs[i])
  }

  /** Toggling twice from the displayed state gives the list back. */
  lemma ToggleTwice(rs: seq<Reminder>, id: Id, completed: bool)
    requires forall r :: r in rs && r.id == id ==> r.completed == completed
    ensures ToggleComplete(ToggleComplete(rs, id, completed), id, !completed) == rs
  {
    var twice := ToggleComplete(ToggleComplete(rs, id, completed), id, !completed);
    forall i | 0 <= i < |rs|
      ensures twice[i] == rs[i]
    {
      if rs[i].id == id {
        assert rs[i] in rs;
      }
    }
  }

  /** The list after the delete request: `reminders.filter(r => r._id !== id)`. */
  function Delete(rs: seq<Reminder>, id: Id): (out: seq<Reminder>)
    ensures |out| <= |rs|
    ensures forall r :: r in out <==> r in rs && r.id != id
  {
    if rs == [] then []
    else if rs[0].id == id then Delete(rs[1..], id)
    else [rs[0]] + Delete(rs[1..], id)
  }

  /** Deleting keeps every other reminder, as often as it occurred. */
  lemma {:induction false} DeleteKeepsOthers(rs: seq<Reminder>, id: Id, r: Reminder)
    requires r.id != id
    ensures multiset(Delete(rs, id))[r] == multiset(rs)[r]
  {
    if rs != [] {
      DeleteKeepsOthers(rs[1..], id, r);
      assert rs == [rs[0]] + rs[1..];
    }
  }

  /** Deleting keeps the other reminders in their order: deleting from two runs one
      after the other is deleting from each. */
  lemma {:induction false} DeleteAppend(a: seq<Reminder>, b: seq<Reminder>, id: Id)
    ensures Delete(a + b, id) == Delete(a, id) + Delete(b, id)
  {
    if a == [] {
      assert a + b == b;
    } else {
      assert (a + b)[1..] == a[1..] + b;
      DeleteAppend(a[1..], b, id);
    }
  }

  /** isOverdue: a valid date strictly before now; `due` is the parsed date, `None`
      when it does not parse. */
  predicate IsOverdue(due: Option<int>, now: int) {
    due.Some? && due.value < now
  }

  /** A date that does not parse is never overdue, and an overdue reminder stays overdue
      as time passes. */
  lemma OverdueStays(due: Option<int>, now: int, later: int)
    requires now <= later
    ensures due.None? ==> !IsOverdue(due, now)
    ensures IsOverdue(due, now) ==> IsOverdue(due, later)
  {
  }

  /** A reminder toggled to completed stays in the list but leaves the upcoming view. */
  lemma ToggledLeavesUpcoming(rs: seq<Reminder>, id: Id)
    ensures forall r :: r in Filtered(ToggleComplete(rs, id, false), Upcoming) ==> r.id != id
  {
  }
}
