/** The dashboard's statistics (client/src/pages/Dashboard.tsx): the three totals and
    the number of upcoming reminders, those not completed whose due day is today or
    later. `offset` is the local time zone's offset in milliseconds, which decides
    where local midnight falls. */
module Dashboard {
  import opened Common
  import J = JobModel
  import C = ContactModel
  import R = ReminderModel

  /** The local day a time falls on. */
  function Day(t: int, offset: int): int {
    (t + offset) / DayMs
  }

  /** `setHours(0, 0, 0, 0)`: the local midnight starting that day. */
  function Midnight(t: int, offset: int): (m: int)
    ensures m <= t < m + DayMs
    ensures m + offset == Day(t, offset) * DayMs
  {
    Day(t, offset) * DayMs - offset
  }

  /** Comparing midnights compares days. */
  lemma MidnightOrder(t: int, u: int, offset: int)
    ensures Midnight(t, offset) >= Midnight(u, offset) <==> Day(t, offset) >= Day(u, offset)
  {
  }

  predicate Upcoming(r: R.Reminder, now: int, offset: int) {
    !r.completed && Midnight(r.dueDate, offset) >= Midnight(now, offset)
  }

  /** `reminders.filter(...).length`. */
  function UpcomingCount(rs: seq<R.Reminder>, now: int, offset: int): (n: nat)
    ensures n <= |rs|
    ensures n == 0 <==> forall r :: r in rs ==> !Upcoming(r, now, offset)
  {
    if rs == [] then 0
    else
      assert forall r :: r in rs <==> r == rs[0] || r in rs[1..];
      (if Upcoming(rs[0], now, offset) then 1 else 0) + UpcomingCount(rs[1..], now, offset)
  }

  /** A reminder is upcoming exactly when it is open and due today or on a later day;
      in particular one due earlier today still counts. */
  lemma UpcomingByDay(r: R.Reminder, now: int, offset: int)
    ensures Upcoming(r, now, offset) <==> !r.completed && Day(r.dueDate, offset) >= Day(now, offset)
  {
    MidnightOrder(r.dueDate, now, offset);
  }

  /** Every open reminder due from now on is counted, and no reminder due before today. */
  lemma UpcomingBounds(r: R.Reminder, now: int, offset: int)
    ensures !r.completed && r.dueDate >= now ==> Upcoming(r, now, offset)
    ensures Day(r.dueDate, offset) < Day(now, offset) ==> !Upcoming(r, now, offset)
  {
    MidnightOrder(r.dueDate, now, offset);
  }

  /** The number of reminders not completed. */
  function OpenCount(rs: seq<R.Reminder>): nat {
    if rs == [] then 0 else (if rs[0].completed then 0 else 1) + OpenCount(rs[1..])
  }

  /** Completed reminders are never counted. */
  lemma {:induction false} UpcomingAtMostOpen(rs: seq<R.Reminder>, now: int, offset: int)
    ensures UpcomingCount(rs, now, offset) <= OpenCount(rs) <= |rs|
  {
    if rs != [] {
      UpcomingAtMostOpen(rs[1..], now, offset);
    }
  }

  datatype Stats = Stats(totalJobs: nat, totalContacts: nat, totalReminders: nat,
                         upcomingReminders: nat)

  /** fetchStats after the three lists arrive. */
  function DashboardStats(jobs: seq<J.Job>, contacts: seq<C.Contact>, reminders: seq<R.Reminder>,
                          now: int, offset: int): (s: Stats)
    ensures s.totalJobs == |jobs| && s.totalContacts == |contacts| && s.totalReminders == |reminders|
    ensures s.upcomingReminders <= s.totalReminders
    ensures s.upcomingReminders == UpcomingCount(reminders, now, offset)
  {
    Stats(|jobs|, |contacts|, |reminders|, UpcomingCount(reminders, now, offset))
  }
}
