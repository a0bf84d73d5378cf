/** The reminder document (server/src/models/Reminder.js): enumerations, defaults and
    the constraints every stored reminder satisfies. */
module ReminderModel {
  import opened Common

  datatype Priority = Low | Medium | High

  function PriorityName(p: Priority): string {
    match p
    case Low => "Low"
    case Medium => "Medium"
    case High => "High"
  }

  function ParsePriority(name: string): (r: Option<Priority>)
    ensures r.Some? <==> name in ["Low", "Medium", "High"]
    ensures r.Some? ==> PriorityName(r.value) == name
  {
    if name == "Low" then Some(Low)
    else if name == "Medium" then Some(Medium)
    else if name == "High" then Some(High)
    else None
  }

  datatype NotificationType = NotifyEmail | NotifyApp | NotifyBoth

  function NotificationTypeName(n: NotificationType): string {
    match n
    case NotifyEmail => "Email"
    case NotifyApp => "App"
    case NotifyBoth => "Both"
  }

  function ParseNotificationType(name: string): (r: Option<NotificationType>)
    ensures r.Some? <==> name in ["Email", "App", "Both"]
    ensures r.Some? ==> NotificationTypeName(r.value) == name
  {
    if name == "Email" then Some(NotifyEmail)
    else if name == "App" then Some(NotifyApp)
    else if name == "Both" then Some(NotifyBoth)
    else None
  }

  /** The repeat frequencies; `NoRepeat` is the value spelled "None". */
  datatype Frequency = Daily | Weekly | BiWeekly | Monthly | NoRepeat

  function FrequencyName(f: Frequency): string {
    match f
    case Daily => "Daily"
    case Weekly => "Weekly"
    case BiWeekly => "Bi-weekly"
    case Monthly => "Monthly"
    case NoRepeat => "None"
  }

  const FrequencyNames: seq<string> := ["Daily", "Weekly", "Bi-weekly", "Monthly", "None"]

  function ParseFrequency(name: string): (r: Option<Frequency>)
    ensures r.Some? <==> name in FrequencyNames
    ensures r.Some? ==> FrequencyName(r.value) == name
  {
    if name == "Daily" then Some(Daily)
    else if name == "Weekly" then Some(Weekly)
    else if name == "Bi-weekly" then Some(BiWeekly)
    else if name == "Monthly" then Some(Monthly)
    else if name == "None" then Some(NoRepeat)
    else None
  }

  lemma FrequencyRoundTrip(f: Frequency)
    ensures ParseFrequency(FrequencyName(f)) == Some(f)
  {
  }

  datatype Reminder = Reminder(id: Id, user: Id, title: string, description: Option<string>,
                               dueDate: int, completed: bool, priority: Priority,
                               notificationType: NotificationType, remindAt: Option<int>,
                               repeating: bool, repeatFrequency: Frequency,
                               job: Option<Id>, contact: Option<Id>, createdAt: int,
                               emailSent: bool, lastNotificationSent: Option<int>,
                               nextNotificationDate: Option<int>)

  /** Everything the schema guarantees about a stored reminder beyond its types. */
  predicate ValidReminder(r: Reminder) {
    ValidRequiredText(r.title, 100)
    && (r.description.Some? ==> Utf16Length(r.description.value) <= 500)
  }

  /** The fields of a create request body. */
  datatype ReminderInput = ReminderInput(title: Option<string>, description: Option<string>,
                                         dueDate: Option<int>, completed: Option<bool>,
                                         priority: Option<string>, notificationType: Option<string>,
                                         remindAt: Option<int>, repeating: Option<bool>,
                                         repeatFrequency: Option<string>, job: Option<Id>,
                                         contact: Option<Id>)

  /** The body passes every validator of the schema. */
  predicate ReminderInputAcceptable(input: ReminderInput) {
    RequiredTextAccepted(input.title, 100)
    && (input.description.Some? ==> Utf16Length(input.description.value) <= 500)
    && input.dueDate.Some?
    && (input.priority.Some? ==> input.priority.value in ["Low", "Medium", "High"])
    && (input.notificationType.Some? ==> input.notificationType.value in ["Email", "App", "Both"])
    && (input.repeatFrequency.Some? ==> input.repeatFrequency.value in FrequencyNames)
  }

  /** `Reminder.create(body)`: trims the title, fills the defaults (not completed,
      Medium, App, not repeating, None, e-mail not sent) and validates. */
  function CreateReminderDocument(input: ReminderInput, id: Id, user: Id, now: int): (r: Result<Reminder>)
    ensures r.Ok? <==> ReminderInputAcceptable(input)
    ensures r.Err? ==> r.error == BadRequest
    ensures r.Ok? ==> ValidReminder(r.value)
    ensures r.Ok? ==> (r.value.id == id && r.value.user == user
      && r.value.title == Trim(input.title.value) && r.value.dueDate == input.dueDate.value
      && r.value.completed == input.completed.GetOr(false)
      && (input.priority.None? ==> r.value.priority == Medium)
      && (input.priority.Some? ==> PriorityName(r.value.priority) == input.priority.value)
      && (input.notificationType.None? ==> r.value.notificationType == NotifyApp)
      && (input.notificationType.Some? ==> NotificationTypeName(r.value.notificationType) == input.notificationType.value)
      && r.value.repeating == input.repeating.GetOr(false)
      && (input.repeatFrequency.None? ==> r.value.repeatFrequency == NoRepeat)
      && (input.repeatFrequency.Some? ==> FrequencyName(r.value.repeatFrequency) == input.repeatFrequency.value)
      && !r.value.emailSent && r.value.createdAt == now)
    ensures r.Ok? ==> (r.value.description == input.description && r.value.remindAt == input.remindAt
      && r.value.job == input.job && r.value.contact == input.contact
      && r.value.lastNotificationSent == None && r.value.nextNotificationDate == None)
  {
    if !ReminderInputAcceptable(input) then Err(BadRequest)
    else
      AcceptedTextIsValid(input.title, 100);
      Ok(Reminder(id, user, Trim(input.title.value), input.description, input.dueDate.value,
                  input.completed.GetOr(false),
                  if input.priority.Some? then ParsePriority(input.priority.value).value else Medium,
                  if input.notificationType.Some? then ParseNotificationType(input.notificationType.value).value else NotifyApp,
                  input.remindAt, input.repeating.GetOr(false),
                  if input.repeatFrequency.Some? then ParseFrequency(input.repeatFrequency.value).value else NoRepeat,
                  input.job, input.contact, now, false, None, None))
  }

  /** The body a client would send to recreate a reminder. */
  function ReminderInputOf(r: Reminder): ReminderInput {
    ReminderInput(Some(r.title), r.description, Some(r.dueDate), Some(r.completed),
                  Some(PriorityName(r.priority)), Some(NotificationTypeName(r.notificationType)),
                  r.remindAt, Some(r.repeating), Some(FrequencyName(r.repeatFrequency)),
                  r.job, r.contact)
  }

  /** Round trip: a valid reminder never notified, sent back as a create body at its
      creation time, is recreated field for field. */
  lemma {:induction false} ResubmittedReminderRecreated(r: Reminder)
    requires ValidReminder(r) && !r.emailSent
    requires r.lastNotificationSent.None? && r.nextNotificationDate.None?
    ensures CreateReminderDocument(ReminderInputOf(r), r.id, r.user, r.createdAt) == Ok(r)
  {
    TrimmedIffFixed(r.title);
    FrequencyRoundTrip(r.repeatFrequency);
  }

  /** A reminder created from a body that names only a title and a due date carries
      every schema default. */
  lemma MinimalReminderDefaults(title: string, due: int, id: Id, user: Id, now: int)
    requires Trim(title) != "" && Utf16Length(Trim(title)) <= 100
    ensures var input := ReminderInput(Some(title), None, Some(due), None, None, None, None,
                                       None, None, None, None);
      var r := CreateReminderDocument(input, id, user, now);
      r.Ok? && !r.value.completed && r.value.priority == Medium
      && r.value.notificationType == NotifyApp && !r.value.repeating
      && r.value.repeatFrequency == NoRepeat && !r.value.emailSent
  {
  }
}
