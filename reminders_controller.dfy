/** The reminder handlers (server/src/controllers/reminders.js): the filter a listing
    query builds, the listing's count and pagination, creating a reminder (which logs a
    Reminder Set entry on its job), updating one (which logs the completion of a
    reminder on its job), the next-day window of upcoming reminders and the test
    e-mail. */
module RemindersController {
  import opened Common
  import J = JobModel
  import opened ReminderModel
  import opened Store
  import Paging
  import N = Notification

  // ---------------------------------------------------------------------------
  // getReminders

  /** The query string of a listing. Dates arrive already parsed: `None` when the
      parameter is absent or empty. */
  datatype Query = Query(completed: Option<string>, priority: Option<string>, job: Option<string>,
                         contact: Option<string>, startDate: Option<int>, endDate: Option<int>,
                         upcoming: Option<string>)

  /** The database filter: each field present is one condition. */
  datatype Filter = Filter(user: Id, completed: Option<bool>, priority: Option<string>,
                           job: Option<Id>, contact: Option<Id>, dueFrom: Option<int>,
                           dueTo: Option<int>)

  /** A present text parameter that is not empty becomes a condition. */
  function Condition(param: Option<string>): (c: Option<string>)
    ensures c.Some? <==> TruthyStr(param)
    ensures c.Some? ==> c == param
  {
    if TruthyStr(param) then param else None
  }

  /** The filter getReminders builds, `now` being the time of the request. */
  function BuildFilter(user: Id, q: Query, now: int): (f: Filter)
    ensures f.user == user
    ensures f.priority == Condition(q.priority) && f.job == Condition(q.job) && f.contact == Condition(q.contact)
    ensures q.upcoming != Some("true") ==> f.dueFrom == q.startDate && f.dueTo == q.endDate
  {
    var completed := if q.completed.Some? then Some(q.completed.value == "true") else None;
    var f := Filter(user, completed, Condition(q.priority), Condition(q.job), Condition(q.contact),
                    q.startDate, q.endDate);
    if q.upcoming == Some("true") then
      f.(dueFrom := Some(now), dueTo := None,
         completed := if TruthyStr(q.completed) then f.completed else Some(false))
    else f
  }

  /** A `completed` parameter means true only when it is the string "true"; any other
      value, the empty one included, means false. */
  lemma CompletedOnlyForTrue(user: Id, q: Query, now: int)
    requires q.completed.Some?
    ensures BuildFilter(user, q, now).completed == Some(q.completed.value == "true")
  {
  }

  /** `upcoming=true` replaces any date range with "due from now on", and without a
      `completed` parameter it also keeps only the open reminders. */
  lemma UpcomingOverrides(user: Id, q: Query, now: int)
    requires q.upcoming == Some("true")
    ensures var f := BuildFilter(user, q, now);
      f.dueFrom == Some(now) && f.dueTo.None?
      && (q.completed.None? ==> f.completed == Some(false))
  {
  }

  /** The reminder satisfies every condition of the filter. */
  predicate Matches(f: Filter, r: Reminder) {
    r.user == f.user
    && (f.completed.Some? ==> r.completed == f.completed.value)
    && (f.priority.Some? ==> PriorityName(r.priority) == f.priority.value)
    && (f.job.Some? ==> r.job == f.job)
    && (f.contact.Some? ==> r.contact == f.contact)
    && (f.dueFrom.Some? ==> f.dueFrom.value <= r.dueDate)
    && (f.dueTo.Some? ==> r.dueDate <= f.dueTo.value)
  }

  /** An upcoming listing without a `completed` parameter shows only open reminders
      of the user, due from now on. */
  lemma UpcomingListsOpenFutureReminders(user: Id, q: Query, now: int, r: Reminder)
    requires q.upcoming == Some("true") && q.completed.None?
    requires Matches(BuildFilter(user, q, now), r)
    ensures r.user == user && !r.completed && r.dueDate >= now
  {
  }

  /** The stored reminders the filter selects, in storage order. */
  function Matching(rs: seq<Reminder>, f: Filter): (out: seq<Reminder>)
    ensures |out| <= |rs|
    ensures forall r :: r in out <==> r in rs && Matches(f, r)
  {
    if rs == [] then []
    else
      var rest := Matching(rs[1..], f);
      assert forall r :: r in rs <==> r == rs[0] || r in rs[1..];
      if Matches(f, rs[0]) then [rs[0]] + rest else rest
  }

  /** `countDocuments(filter)` and the pagination block built from it: `next` is offered
      exactly when more matching reminders lie beyond this page, which for a positive
      page and limit means the next page of the listing is not empty. */
  function ListingPagination(rs: seq<Reminder>, user: Id, q: Query, now: int,
                             pageParam: Option<int>, limitParam: Option<int>): (p: Paging.Pagination)
    ensures p.page == Paging.ParamOr(pageParam, 1) && p.limit == Paging.ParamOr(limitParam, 10)
    ensures p.next.Some? <==> p.page * p.limit < |Matching(rs, BuildFilter(user, q, now))|
    ensures p.prev.Some? <==> p.startIndex > 0
    ensures p.page >= 1 && p.limit >= 1 ==>
      (p.next.Some? <==> Paging.PageItems(Matching(rs, BuildFilter(user, q, now)), p.endIndex, p.limit) != Some([]))
      && (p.prev.Some? <==> p.page >= 2)
  {
    var matches := Matching(rs, BuildFilter(user, q, now));
    var p := Paging.Paginate(pageParam, limitParam, |matches|);
    if p.page >= 1 && p.limit >= 1 then
      Paging.LinksMatchNeighbours(matches, pageParam, limitParam);
      p
    else p
  }

  /** A listing only ever shows reminders of the user who asks. */
  lemma ListingIsPrivate(rs: seq<Reminder>, user: Id, q: Query, now: int, r: Reminder)
    requires r in Matching(rs, BuildFilter(user, q, now))
    ensures r.user == user && r in rs
  {
  }

  // ---------------------------------------------------------------------------
  // getUpcomingReminders

  /** The query of getUpcomingReminders: the user's open reminders due from now up to
      `tomorrow`, the same local clock time 24 hours later. */
  function UpcomingFilter(user: Id, now: int, tomorrow: int): Filter {
    Filter(user, Some(false), None, None, None, Some(now), Some(tomorrow))
  }

  function UpcomingReminders(rs: seq<Reminder>, user: Id, now: int, tomorrow: int): (out: seq<Reminder>)
    ensures forall r :: r in out <==> r in rs && r.user == user && !r.completed && now <= r.dueDate <= tomorrow
  {
    Matching(rs, UpcomingFilter(user, now, tomorrow))
  }

  /** Every reminder of the next-day window is also in the listing with `upcoming=true`
      and no other parameter. */
  lemma UpcomingWithinListing(rs: seq<Reminder>, user: Id, now: int, tomorrow: int, r: Reminder)
    requires r in UpcomingReminders(rs, user, now, tomorrow)
    ensures r in Matching(rs, BuildFilter(user, Query(None, None, None, None, None, None, Some("true")), now))
  {
  }

  // ---------------------------------------------------------------------------
  // createReminder

  /** The Reminder Set entry: `dueText` is the due date as the server's locale prints
      it, and a missing title prints as "undefined". */
  function ReminderSetEntry(input: ReminderInput, dueText: string, now: int): J.Activity {
    var title := if input.title.Some? then input.title.value else "undefined";
    J.Activity(J.ReminderSet, "Reminder set: " + title + " for " + dueText, now)
  }

  /** The jobs after the job check of createReminder: unchanged without a job in the
      body, 404 or 401 for a missing or foreign job, else the job with one Reminder Set
      entry more. */
  function JobsAfterReminderSet(jobs: map<Id, J.Job>, input: ReminderInput, user: Id,
                                dueText: string, now: int): (r: Result<map<Id, J.Job>>)
    ensures !TruthyStr(input.job) ==> r == Ok(jobs)
    ensures TruthyStr(input.job) && OwnedJob(jobs, input.job.value, user).Err? ==>
      r == Err(OwnedJob(jobs, input.job.value, user).error)
    ensures TruthyStr(input.job) && r.Ok? ==> (
      var id := input.job.value;
      id in jobs && r.value == jobs[id := jobs[id].(activities := Push(jobs[id].activities,
                                                                          ReminderSetEntry(input, dueText, now)))])
  {
    if !TruthyStr(input.job) then Ok(jobs)
    else
      var found := OwnedJob(jobs, input.job.value, user);
      if found.Err? then Err(found.error)
      else
        var job := found.value;
        Ok(jobs[input.job.value := job.(activities := Push(job.activities, ReminderSetEntry(input, dueText, now)))])
  }

  /** The response of createReminder: the job check's error, else the new reminder or
      the validators' 400. */
  function CreateReminderResult(jobs: map<Id, J.Job>, input: ReminderInput, user: Id, newId: Id,
                                dueText: string, now: int): (r: Result<Reminder>)
    ensures JobsAfterReminderSet(jobs, input, user, dueText, now).Err? ==>
      r == Err(JobsAfterReminderSet(jobs, input, user, dueText, now).error)
    ensures JobsAfterReminderSet(jobs, input, user, dueText, now).Ok? ==>
      r == CreateReminderDocument(input, newId, user, now)
  {
    var linked := JobsAfterReminderSet(jobs, input, user, dueText, now);
    if linked.Err? then Err(linked.error) else CreateReminderDocument(input, newId, user, now)
  }

  /** The job is saved before the reminder is validated: a refused reminder still
      leaves its Reminder Set entry on the job. */
  lemma RefusedReminderStillLogged(jobs: map<Id, J.Job>, input: ReminderInput, user: Id, newId: Id,
                                   dueText: string, now: int)
    requires TruthyStr(input.job) && OwnedJob(jobs, input.job.value, user).Ok?
    requires !ReminderInputAcceptable(input)
    ensures CreateReminderResult(jobs, input, user, newId, dueText, now) == Err(BadRequest)
    ensures var after := JobsAfterReminderSet(jobs, input, user, dueText, now);
      after.Ok? && |after.value[input.job.value].activities| == |jobs[input.job.value].activities| + 1
  {
  }

  method CreateReminder(db: Db, user: Id, input: ReminderInput, newId: Id, dueText: string, now: int)
    returns (r: Result<Reminder>)
    requires db.Valid() && newId !in db.reminders
    modifies db
    ensures db.Valid()
    ensures r == CreateReminderResult(old(db.jobs), input, user, newId, dueText, now)
    ensures var after := JobsAfterReminderSet(old(db.jobs), input, user, dueText, now);
      db.jobs == if after.Ok? then after.value else old(db.jobs)
    ensures db.reminders == if r.Ok? then old(db.reminders)[newId := r.value] else old(db.reminders)
    ensures db.contacts == old(db.contacts) && db.users == old(db.users)
  {
    if TruthyStr(input.job) {
      var found := OwnedJob(db.jobs, input.job.value, user);
      if found.Err? {
        return Err(found.error);
      }
      var job := found.value;
      assert J.ValidJob(job) && job.id == input.job.value;
      var logged := job.(activities := Push(job.activities, ReminderSetEntry(input, dueText, now)));
      JobStaysValid(job, logged);
      StoreJob(db.jobs, logged);
      db.jobs := db.jobs[input.job.value := logged];
    }
    r := CreateReminderDocument(input, newId, user, now);
    if r.Ok? {
      StoreReminder(db.reminders, r.value);
      db.reminders := db.reminders[newId := r.value];
    }
  }

  // ---------------------------------------------------------------------------
  // updateReminder

  /** The fields of an update body the model tracks. */
  datatype ReminderPatch = ReminderPatch(title: Option<string>, description: Option<string>,
                                         dueDate: Option<int>, completed: Option<bool>,
                                         priority: Option<string>)

  /** The update validators: only the fields the body names are checked. */
  predicate PatchAcceptable(p: ReminderPatch) {
    (p.title.None? || RequiredTextAccepted(p.title, 100))
    && (p.description.Some? ==> Utf16Length(p.description.value) <= 500)
    && (p.priority.Some? ==> p.priority.value in ["Low", "Medium", "High"])
  }

  /** `findByIdAndUpdate(id, body, { runValidators: true })`. */
  function ApplyPatch(stored: Reminder, p: ReminderPatch): (r: Result<Reminder>)
    ensures r.Ok? <==> PatchAcceptable(p)
    ensures r.Err? ==> r.error == BadRequest
    ensures r.Ok? ==> r.value.id == stored.id && r.value.user == stored.user
    ensures r.Ok? && p.title.Some? ==> r.value.title == Trim(p.title.value)
    ensures r.Ok? && p.title.None? ==> r.value.title == stored.title
    ensures r.Ok? && p.description.Some? ==> r.value.description == p.description
    ensures r.Ok? && p.description.None? ==> r.value.description == stored.description
    ensures r.Ok? && p.dueDate.Some? ==> r.value.dueDate == p.dueDate.value
    ensures r.Ok? && p.dueDate.None? ==> r.value.dueDate == stored.dueDate
    ensures r.Ok? ==> r.value.completed == p.completed.GetOr(stored.completed)
    ensures r.Ok? && p.priority.Some? ==> PriorityName(r.value.priority) == p.priority.value
    ensures r.Ok? && p.priority.None? ==> r.value.priority == stored.priority
    ensures r.Ok? ==> r.value.(title := stored.title, description := stored.description, dueDate := stored.dueDate,
                               completed := stored.completed, priority := stored.priority) == stored
    ensures r.Ok? && ValidReminder(stored) ==> ValidReminder(r.value)
  {
    if !PatchAcceptable(p) then Err(BadRequest)
    else
      var title := if p.title.Some? then AcceptedTextIsValid(p.title, 100); Trim(p.title.value) else stored.title;
      Ok(stored.(title := title,
                 description := if p.description.Some? then p.description else stored.description,
                 dueDate := p.dueDate.GetOr(stored.dueDate),
                 completed := p.completed.GetOr(stored.completed),
                 priority := if p.priority.Some? then ParsePriority(p.priority.value).value else stored.priority))
  }

  /** `req.body.completed === true && reminder.completed === false && reminder.job`. */
  predicate LogsCompletion(stored: Reminder, p: ReminderPatch) {
    p.completed == Some(true) && !stored.completed && stored.job.Some?
  }

  /** The jobs after updateReminder: the reminder's job, when the update completes the
      reminder and the job exists, gets one Other entry naming the reminder. The job's
      owner is not checked. */
  function JobsAfterUpdate(jobs: map<Id, J.Job>, stored: Reminder, p: ReminderPatch, now: int)
    : (r: map<Id, J.Job>)
    ensures r.Keys == jobs.Keys
    ensures forall id :: id in jobs && !(LogsCompletion(stored, p) && stored.job == Some(id)) ==> r[id] == jobs[id]
    ensures LogsCompletion(stored, p) && stored.job.value in jobs ==> (
      var id := stored.job.value;
      r[id] == jobs[id].(activities := jobs[id].activities + [J.Activity(J.OtherActivity, "Completed reminder: " + stored.title, now)]))
  {
    if LogsCompletion(stored, p) && stored.job.value in jobs then
      var job := jobs[stored.job.value];
      jobs[stored.job.value := job.(activities := Push(job.activities,
                                   J.Activity(J.OtherActivity, "Completed reminder: " + stored.title, now)))]
    else jobs
  }

  /** Only completing an open reminder that has a job touches the jobs; reopening, or
      completing one already completed, never does. */
  lemma CompletionLoggedOnlyOnce(jobs: map<Id, J.Job>, stored: Reminder, p: ReminderPatch, now: int)
    ensures stored.completed || p.completed != Some(true) || stored.job.None? ==>
      JobsAfterUpdate(jobs, stored, p, now) == jobs
  {
  }

  /** The completion entry of updateReminder, written into the stored job. */
  method LogCompletion(db: Db, reminder: Reminder, p: ReminderPatch, now: int)
    requires db.Valid()
    modifies db
    ensures db.Valid()
    ensures db.jobs == JobsAfterUpdate(old(db.jobs), reminder, p, now)
    ensures db.reminders == old(db.reminders) && db.contacts == old(db.contacts) && db.users == old(db.users)
  {
    if p.completed == Some(true) && !reminder.completed && reminder.job.Some? {
      var jobId := reminder.job.value;
      if jobId in db.jobs {
        var job := db.jobs[jobId];
        assert J.ValidJob(job) && job.id == jobId;
        var logged := job.(activities := Push(job.activities,
                           J.Activity(J.OtherActivity, "Completed reminder: " + reminder.title, now)));
        JobStaysValid(job, logged);
        StoreJob(db.jobs, logged);
        db.jobs := db.jobs[jobId := logged];
      }
    }
  }

  /** updateReminder: 404 for a missing reminder before 401 for a foreign one; then the
      completion entry and the update. */
  method UpdateReminder(db: Db, id: Id, user: Id, p: ReminderPatch, now: int) returns (r: Result<Reminder>)
    requires db.Valid()
    modifies db
    ensures db.Valid()
    ensures OwnedReminder(old(db.reminders), id, user).Err? ==>
      r == Err(OwnedReminder(old(db.reminders), id, user).error) && db.jobs == old(db.jobs)
      && db.reminders == old(db.reminders)
    ensures OwnedReminder(old(db.reminders), id, user).Ok? ==>
      r == ApplyPatch(old(db.reminders)[id], p)
      && db.jobs == JobsAfterUpdate(old(db.jobs), old(db.reminders)[id], p, now)
      && db.reminders == if r.Ok? then old(db.reminders)[id := r.value] else old(db.reminders)
    ensures db.contacts == old(db.contacts) && db.users == old(db.users)
  {
    var found := OwnedReminder(db.reminders, id, user);
    if found.Err? {
      return Err(found.error);
    }
    var reminder := found.value;
    assert ValidReminder(reminder) && reminder.id == id;
    LogCompletion(db, reminder, p, now);
    r := ApplyPatch(reminder, p);
    if r.Ok? {
      StoreReminder(db.reminders, r.value);
      db.reminders := db.reminders[id := r.value];
    }
  }

  // ---------------------------------------------------------------------------
  // sendTestEmail

  /** sendTestEmail: 404 for a missing reminder before 401 for a foreign one, 404 when
      the asking user's document is missing, then `sendReminderEmail` on the stored
      reminder whatever its state, and 500 when the mail server refuses. A delivered
      test marks the reminder as the real e-mail would: a one-off reminder is then never
      found by the periodic pass again. `delivered` is the mail server's answer. */
  method SendTestEmail(db: Db, id: Id, user: Id, now: int, monthLater: int, delivered: bool)
    returns (r: Outcome)
    requires db.Valid()
    modifies db
    ensures db.Valid()
    ensures OwnedReminder(old(db.reminders), id, user).Err? ==>
      r == Fail(OwnedReminder(old(db.reminders), id, user).error) && db.reminders == old(db.reminders)
    ensures OwnedReminder(old(db.reminders), id, user).Ok? && user !in old(db.users) ==>
      r == Fail(NotFound) && db.reminders == old(db.reminders)
    ensures OwnedReminder(old(db.reminders), id, user).Ok? && user in old(db.users) ==>
      (r == Pass <==> delivered) && (r != Pass ==> r == Fail(ServerError))
      && db.reminders == if delivered then old(db.reminders)[id := N.Sent(old(db.reminders)[id], now, monthLater)]
                         else old(db.reminders)
    ensures (OwnedReminder(old(db.reminders), id, user).Ok? && user in old(db.users) && delivered
             && !N.Reschedules(old(db.reminders)[id])) ==> forall t :: id !in N.Due(db.reminders, t)
    ensures db.jobs == old(db.jobs) && db.contacts == old(db.contacts) && db.users == old(db.users)
  {
    var found := OwnedReminder(db.reminders, id, user);
    if found.Err? {
      return Fail(found.error);
    }
    if user !in db.users {
      return Fail(NotFound);
    }
    var sent := N.SendReminderEmail(db, id, now, monthLater, delivered);
    if sent {
      r := Pass;
      forall t ensures !N.Reschedules(old(db.reminders)[id]) ==> id !in N.Due(db.reminders, t) {
        if !N.Reschedules(old(db.reminders)[id]) {
          N.SentOnceNeverDueAgain(old(db.reminders)[id], now, monthLater, t);
        }
      }
    } else {
      r := Fail(ServerError);
    }
  }

  /** The test e-mail as evidently intended: the same checks and the same message, but
      the stored reminder is left as it was, so the periodic pass still sends it when
      it falls due. */
  method SendTestEmailIntended(db: Db, id: Id, user: Id, delivered: bool) returns (r: Outcome)
    requires db.Valid()
    ensures OwnedReminder(db.reminders, id, user).Err? ==> r == Fail(OwnedReminder(db.reminders, id, user).error)
    ensures OwnedReminder(db.reminders, id, user).Ok? && user !in db.users ==> r == Fail(NotFound)
    ensures OwnedReminder(db.reminders, id, user).Ok? && user in db.users ==>
      (r == Pass <==> delivered) && (r != Pass ==> r == Fail(ServerError))
  {
    var found := OwnedReminder(db.reminders, id, user);
    if found.Err? {
      return Fail(found.error);
    }
    if user !in db.users {
      return Fail(NotFound);
    }
    r := if delivered then Pass else Fail(ServerError);
  }
}
