/** The edit page's loading step (client/src/pages/reminders/EditReminder.tsx): the
    fetched reminder becomes the form, every missing field falling back to the add
    page's default; the change handler and the submit step are the shared ones of
    `ReminderForm`. */
module EditReminder {
  import opened Common
  import R = ReminderModel
  import opened ReminderForm

  /** A reference field as fetched: a populated document, or the bare id. */
  datatype Ref = Populated(id: Id) | RawId(raw: Id)

  /** The reminder as the API returns it: every field may be absent. */
  datatype Fetched = Fetched(title: Option<string>, description: Option<string>,
                             dueDate: Option<int>, priority: Option<string>,
                             notificationType: Option<string>, remindAt: Option<int>,
                             repeating: Option<bool>, repeatFrequency: Option<string>,
                             job: Option<Ref>, contact: Option<Ref>)

  /** `value || fallback` for a text field. */
  function TextOr(s: Option<string>, fallback: string): (r: string)
    ensures TruthyStr(s) ==> r == s.value
    ensures !TruthyStr(s) ==> r == fallback
  {
    if TruthyStr(s) then s.value else fallback
  }

  /** `ref?._id || ref || ''`: the populated document's id, else the bare id, else ''. */
  function RefId(r: Option<Ref>): (id: string)
    ensures r.None? ==> id == ""
    ensures r.Some? && r.value.Populated? ==> id == r.value.id
    ensures r.Some? && r.value.RawId? ==> id == r.value.raw
  {
    match r
    case None => ""
    case Some(Populated(i)) => i
    case Some(RawId(i)) => i
  }

  /** The loading step: `day` formats a date as `YYYY-MM-DD` (today's date when there is
      no due date), `minute` formats a date for the date-and-time input. */
  function LoadForm(data: Fetched, today: string, day: int -> string, minute: int -> string): (f: Form)
    ensures f.title == TextOr(data.title, "") && f.description == TextOr(data.description, "")
    ensures f.dueDate == if data.dueDate.Some? then day(data.dueDate.value) else today
    ensures f.remindAt == if data.remindAt.Some? then minute(data.remindAt.value) else ""
    ensures f.priority == TextOr(data.priority, "Medium")
    ensures f.notificationType == TextOr(data.notificationType, "App")
    ensures f.repeating == data.repeating.GetOr(false)
    ensures f.repeatFrequency == TextOr(data.repeatFrequency, "None")
    ensures f.job == RefId(data.job) && f.contact == RefId(data.contact)
  {
    Form(TextOr(data.title, ""), TextOr(data.description, ""),
         if data.dueDate.Some? then day(data.dueDate.value) else today,
         TextOr(data.priority, "Medium"), TextOr(data.notificationType, "App"),
         if data.remindAt.Some? then minute(data.remindAt.value) else "",
         data.repeating.GetOr(false), TextOr(data.repeatFrequency, "None"),
         RefId(data.job), RefId(data.contact))
  }

  /** An empty response loads exactly the add page's initial form. */
  lemma EmptyResponseLoadsInitialForm(today: string, day: int -> string, minute: int -> string)
    ensures LoadForm(Fetched(None, None, None, None, None, None, None, None, None, None), today, day, minute)
            == InitialForm(today)
  {
  }

  /** How the single-reminder endpoint returns a stored reminder: links populated. */
  function FetchedOf(r: R.Reminder): Fetched {
    Fetched(Some(r.title), r.description, Some(r.dueDate), Some(R.PriorityName(r.priority)),
            Some(R.NotificationTypeName(r.notificationType)), r.remindAt, Some(r.repeating),
            Some(R.FrequencyName(r.repeatFrequency)),
            if r.job.Some? then Some(Populated(r.job.value)) else None,
            if r.contact.Some? then Some(Populated(r.contact.value)) else None)
  }

  /** Opening a stored reminder in the edit page and saving it unchanged sends back its
      own fields, provided the stored flag and frequency agree and links are non-empty
      ids. */
  lemma UnchangedEditSendsStoredFields(r: R.Reminder, today: string, day: int -> string,
                                       minute: int -> string)
    requires R.ValidReminder(r) && day(r.dueDate) != ""
    requires r.repeating <==> r.repeatFrequency != R.NoRepeat
    requires r.job != Some("") && r.contact != Some("")
    requires r.remindAt.Some? ==> minute(r.remindAt.value) != ""
    ensures var p := Submit(LoadForm(FetchedOf(r), today, day, minute));
      p.Some? && p.value.title == r.title && p.value.dueDate == day(r.dueDate)
      && p.value.priority == R.PriorityName(r.priority)
      && p.value.notificationType == R.NotificationTypeName(r.notificationType)
      && p.value.repeating == r.repeating && p.value.repeatFrequency == R.FrequencyName(r.repeatFrequency)
      && p.value.job == r.job && p.value.contact == r.contact
      && p.value.remindAt == (if r.remindAt.Some? then Some(minute(r.remindAt.value)) else None)
  {
    var f := LoadForm(FetchedOf(r), today, day, minute);
    assert R.FrequencyName(r.repeatFrequency) == "None" <==> r.repeatFrequency == R.NoRepeat;
  }
}
