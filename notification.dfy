/** The reminder e-mail service (server/src/utils/reminderNotificationService.js): which
    reminders are due for an e-mail, the state a reminder is left in once its e-mail has
    gone out, when a repeating reminder fires next, and the periodic pass that sends
    every due e-mail. The clock is the parameter `now`; `monthLater` is the same local
    time one calendar month after `now`; whether the mail server accepts a message is
    the set `failing` of reminders whose e-mail it refuses. */
module Notification {
  import opened Common
  import opened ReminderModel
  import opened Store

  /** `calculateNextReminderDate`: the next date counted from now, not from the due date
      or the previous reminder time; no date for "None". */
  function NextReminderDate(freq: Frequency, now: int, monthLater: int): (next: Option<int>)
    ensures next.Some? <==> freq != NoRepeat
    ensures next.Some? && freq != Monthly ==> next.value - now in {DayMs, 7 * DayMs, 14 * DayMs}
    ensures freq == Monthly ==> next == Some(monthLater)
    ensures next.Some? && monthLater > now ==> next.value > now
  {
    match freq
    case Daily => Some(now + DayMs)
    case Weekly => Some(now + 7 * DayMs)
    case BiWeekly => Some(now + 14 * DayMs)
    case Monthly => Some(monthLater)
    case NoRepeat => None
  }

  /** A longer repeat interval never gives an earlier next date. */
  lemma NextDateOrder(now: int, monthLater: int)
    ensures NextReminderDate(Daily, now, monthLater).value < NextReminderDate(Weekly, now, monthLater).value
    ensures NextReminderDate(Weekly, now, monthLater).value < NextReminderDate(BiWeekly, now, monthLater).value
  {
  }

  /** The query of `checkAndSendReminders`: a reminder time that has arrived (a reminder
      without one never matches), delivery by e-mail, no e-mail sent yet, not completed. */
  predicate Eligible(r: Reminder, now: int) {
    r.remindAt.Some? && r.remindAt.value <= now
    && (r.notificationType == NotifyEmail || r.notificationType == NotifyBoth)
    && !r.emailSent && !r.completed
  }

  /** The reminders the query finds. */
  function Due(reminders: map<Id, Reminder>, now: int): set<Id> {
    set id | id in reminders && Eligible(reminders[id], now)
  }

  /** Whether a sent reminder is scheduled again: it must be repeating and its frequency
      must not be "None". */
  predicate Reschedules(r: Reminder) {
    r.repeating && r.repeatFrequency != NoRepeat
  }

  /** The reminder after `sendReminderEmail` delivered its e-mail: marked as sent at
      `now`, then, when it repeats, moved to its next date with the mark cleared. */
  function Sent(r: Reminder, now: int, monthLater: int): (s: Reminder)
    ensures s.lastNotificationSent == Some(now)
    ensures s.emailSent <==> !Reschedules(r)
    ensures !Reschedules(r) ==> s.remindAt == r.remindAt && s.nextNotificationDate == r.nextNotificationDate
    ensures Reschedules(r) ==>
      s.remindAt.Some? && s.remindAt == s.nextNotificationDate
      && s.remindAt == NextReminderDate(r.repeatFrequency, now, monthLater)
    ensures s == r.(emailSent := s.emailSent, lastNotificationSent := s.lastNotificationSent,
                    remindAt := s.remindAt, nextNotificationDate := s.nextNotificationDate)
  {
    var marked := r.(emailSent := true, lastNotificationSent := Some(now));
    if Reschedules(r) then
      var next := NextReminderDate(r.repeatFrequency, now, monthLater);
      marked.(remindAt := next, emailSent := false, nextNotificationDate := next)
    else marked
  }

  /** A reminder that does not repeat is sent once: it is never found again. */
  lemma SentOnceNeverDueAgain(r: Reminder, now: int, monthLater: int, later: int)
    requires !Reschedules(r)
    ensures !Eligible(Sent(r, now, monthLater), later)
  {
  }

  /** A repeating reminder is found again exactly from its next date on, as long as it
      stays open and is delivered by e-mail; in particular not in the same pass. */
  lemma RescheduledDueFromNextDate(r: Reminder, now: int, monthLater: int, t: int)
    requires Reschedules(r) && monthLater > now
    ensures Eligible(Sent(r, now, monthLater), t) <==>
      t >= NextReminderDate(r.repeatFrequency, now, monthLater).value
      && r.notificationType != NotifyApp && !r.completed
    ensures !Eligible(Sent(r, now, monthLater), now)
  {
  }

  /** Sending touches none of the fields the validators read. */
  lemma SentValid(r: Reminder, now: int, monthLater: int)
    requires ValidReminder(r)
    ensures ValidReminder(Sent(r, now, monthLater)) && Sent(r, now, monthLater).id == r.id
  {
  }

  /** `sendReminderEmail(reminder, user)`: when the mail goes out the reminder is marked
      and possibly rescheduled and the result is true; when sending throws, nothing is
      written and the result is false. */
  method SendReminderEmail(db: Db, id: Id, now: int, monthLater: int, delivered: bool) returns (ok: bool)
    requires db.Valid() && id in db.reminders
    modifies db
    ensures db.Valid()
    ensures ok == delivered
    ensures db.reminders == if delivered then old(db.reminders)[id := Sent(old(db.reminders)[id], now, monthLater)]
                            else old(db.reminders)
    ensures db.jobs == old(db.jobs) && db.contacts == old(db.contacts) && db.users == old(db.users)
  {
    if !delivered {
      return false;
    }
    var reminder := db.reminders[id];
    SentValid(reminder, now, monthLater);
    var marked := reminder.(emailSent := true, lastNotificationSent := Some(now));
    StoreReminder(db.reminders, marked);
    db.reminders := db.reminders[id := marked];
    if reminder.repeating && reminder.repeatFrequency != NoRepeat {
      var next := NextReminderDate(reminder.repeatFrequency, now, monthLater);
      var rescheduled := marked.(remindAt := next, emailSent := false, nextNotificationDate := next);
      StoreReminder(db.reminders, rescheduled);
      db.reminders := db.reminders[id := rescheduled];
    }
    return true;
  }

  /** Whether the pass delivers the e-mail of a found reminder: its user exists and the
      mail server accepts the message. */
  predicate Delivers(r: Reminder, id: Id, users: map<Id, User>, failing: set<Id>) {
    r.user in users && id !in failing
  }

  /** The reminders once the pass has handled the found reminders in `done`. */
  function Notified(reminders: map<Id, Reminder>, users: map<Id, User>, now: int, monthLater: int,
                    failing: set<Id>, done: set<Id>): map<Id, Reminder>
  {
    map id | id in reminders ::
      if id in done && Eligible(reminders[id], now) && Delivers(reminders[id], id, users, failing)
      then Sent(reminders[id], now, monthLater) else reminders[id]
  }

  /** Handling one more found reminder changes that reminder alone. */
  lemma NotifiedStep(reminders: map<Id, Reminder>, users: map<Id, User>, now: int, monthLater: int,
                     failing: set<Id>, done: set<Id>, id: Id)
    requires id in Due(reminders, now) && id !in done
    ensures var before := Notified(reminders, users, now, monthLater, failing, done);
      Notified(reminders, users, now, monthLater, failing, done + {id}) ==
        if Delivers(reminders[id], id, users, failing) then before[id := Sent(reminders[id], now, monthLater)]
        else before
  {
  }

  /** After the pass, the reminders still found at the same instant are exactly the found
      ones whose user is missing or whose e-mail failed: every other one has been sent. */
  lemma {:induction false} OnlyUndeliveredStayDue(reminders: map<Id, Reminder>, users: map<Id, User>,
                                                  now: int, monthLater: int, failing: set<Id>)
    requires monthLater > now
    ensures Due(Notified(reminders, users, now, monthLater, failing, Due(reminders, now)), now) ==
      set id | id in Due(reminders, now) && !Delivers(reminders[id], id, users, failing)
  {
    var after := Notified(reminders, users, now, monthLater, failing, Due(reminders, now));
    forall id | id in reminders
      ensures id in Due(after, now) <==> id in Due(reminders, now) && !Delivers(reminders[id], id, users, failing)
    {
      if id in Due(reminders, now) && Delivers(reminders[id], id, users, failing) {
        if Reschedules(reminders[id]) {
          RescheduledDueFromNextDate(reminders[id], now, monthLater, now);
        }
      }
    }
  }

  /** `checkAndSendReminders`: finds the due reminders, skips one whose user is missing
      and goes on with the rest, and sends the others; the order in which the database
      returns them is left open. When the query itself fails nothing is sent and the
      result is false. */
  method CheckAndSendReminders(db: Db, now: int, monthLater: int, failing: set<Id>, queryFails: bool)
    returns (ok: bool)
    requires db.Valid()
    modifies db
    ensures db.Valid()
    ensures ok == !queryFails
    ensures db.reminders == if queryFails then old(db.reminders)
      else Notified(old(db.reminders), old(db.users), now, monthLater, failing, Due(old(db.reminders), now))
    ensures db.jobs == old(db.jobs) && db.contacts == old(db.contacts) && db.users == old(db.users)
  {
    if queryFails {
      return false;
    }
    ghost var start := db.reminders;
    var found := set id | id in db.reminders && Eligible(db.reminders[id], now);
    var pending := found;
    while pending != {}
      invariant db.Valid()
      invariant pending <= found == Due(start, now)
      invariant db.reminders == Notified(start, db.users, now, monthLater, failing, found - pending)
      invariant db.jobs == old(db.jobs) && db.contacts == old(db.contacts) && db.users == old(db.users)
      decreases pending
    {
      var id :| id in pending;
      NotifiedStep(start, db.users, now, monthLater, failing, found - pending, id);
      assert found - pending + {id} == found - (pending - {id});
      pending := pending - {id};
      var reminder := db.reminders[id];
      if reminder.user !in db.users {
        continue;
      }
      var _ := SendReminderEmail(db, id, now, monthLater, id !in failing);
    }
    assert found - pending == found;
    return true;
  }
}
