/** The reminder form of the add and edit pages (client/src/pages/reminders/AddReminder.tsx,
    client/src/pages/reminders/EditReminder.tsx): the form state, the change handler,
    the submit check and the payload normalisation, which both pages share line for
    line. */
module ReminderForm {
  import opened Common

  /** The form state: every value is the text of its input, except the checkbox. */
  datatype Form = Form(title: string, description: string, dueDate: string, priority: string,
                       notificationType: string, remindAt: string, repeating: bool,
                       repeatFrequency: string, job: string, contact: string)

  /** The request body: a copy of the form with empty optional fields removed. */
  datatype Payload = Payload(title: string, description: string, dueDate: string, priority: string,
                             notificationType: string, remindAt: Option<string>, repeating: bool,
                             repeatFrequency: string, job: Option<string>, contact: Option<string>)

  /** The add page's initial form; `today` is the current date as `YYYY-MM-DD`. */
  function InitialForm(today: string): (f: Form)
    ensures f.priority == "Medium" && f.notificationType == "App"
    ensures !f.repeating && f.repeatFrequency == "None"
    ensures f.title == "" && f.dueDate == today && f.job == "" && f.contact == "" && f.remindAt == ""
  {
    Form("", "", today, "Medium", "App", "", false, "None", "", "")
  }

  // ---------------------------------------------------------------------------
  // Changes

  datatype TextField = TitleField | DescriptionField | DueDateField | PriorityField
                     | NotificationTypeField | RemindAtField | RepeatFrequencyField
                     | JobField | ContactField

  /** A change event: a text input, select or text area, or the repeating checkbox. */
  datatype Change = TextChange(field: TextField, value: string) | CheckboxChange(checked: bool)

  function TextOf(f: Form, field: TextField): string {
    match field
    case TitleField => f.title
    case DescriptionField => f.description
    case DueDateField => f.dueDate
    case PriorityField => f.priority
    case NotificationTypeField => f.notificationType
    case RemindAtField => f.remindAt
    case RepeatFrequencyField => f.repeatFrequency
    case JobField => f.job
    case ContactField => f.contact
  }

  /** handleChange: the named field takes the input's value, or the checkbox's state. */
  function HandleChange(f: Form, c: Change): (g: Form)
    ensures c.TextChange? ==> TextOf(g, c.field) == c.value && g.repeating == f.repeating
    ensures c.TextChange? ==> forall other :: other != c.field ==> TextOf(g, other) == TextOf(f, other)
    ensures c.CheckboxChange? ==> g == f.(repeating := c.checked)
  {
    match c
    case CheckboxChange(checked) => f.(repeating := checked)
    case TextChange(field, value) =>
      match field
      case TitleField => f.(title := value)
      case DescriptionField => f.(description := value)
      case DueDateField => f.(dueDate := value)
      case PriorityField => f.(priority := value)
      case NotificationTypeField => f.(notificationType := value)
      case RemindAtField => f.(remindAt := value)
      case RepeatFrequencyField => f.(repeatFrequency := value)
      case JobField => f.(job := value)
      case ContactField => f.(contact := value)
  }

  /** Typing the value a field already holds changes nothing. */
  lemma SameValueNoChange(f: Form, field: TextField)
    ensures HandleChange(f, TextChange(field, TextOf(f, field))) == f
  {
  }

  // ---------------------------------------------------------------------------
  // Submitting

  /** The submit check: a title that is not blank once trimmed, and a due date. */
  predicate Submittable(f: Form) {
    Trim(f.title) != "" && f.dueDate != ""
  }

  function Present(s: string): Option<string> {
    if s == "" then None else Some(s)
  }

  /** The payload normalisation: empty optional fields are dropped, a "None" frequency
      turns repeating off, and a reminder that is not repeating gets the "None"
      frequency. */
  function Normalize(p: Payload): (q: Payload)
    ensures q.repeating <==> q.repeatFrequency != "None"
    ensures q.remindAt != Some("") && q.job != Some("") && q.contact != Some("")
    ensures q.title == p.title && q.description == p.description && q.dueDate == p.dueDate
    ensures q.priority == p.priority && q.notificationType == p.notificationType
    ensures q.repeating ==> q.repeatFrequency == p.repeatFrequency
    ensures p.repeatFrequency != "None" && p.repeating ==> q.repeating
  {
    var dropped := p.(job := if p.job == Some("") then None else p.job,
                      contact := if p.contact == Some("") then None else p.contact,
                      remindAt := if p.remindAt == Some("") then None else p.remindAt);
    var repeating := dropped.repeating && dropped.repeatFrequency != "None";
    dropped.(repeating := repeating, repeatFrequency := if repeating then dropped.repeatFrequency else "None")
  }

  /** The normalisation as handleSubmit performs it, one statement at a time: the three
      deletions, then the frequency check, then the repeating check. */
  method NormalizePayload(p: Payload) returns (q: Payload)
    ensures q == Normalize(p)
  {
    q := p;
    if q.job == Some("") { q := q.(job := None); }
    if q.contact == Some("") { q := q.(contact := None); }
    if q.remindAt == Some("") { q := q.(remindAt := None); }
    if q.repeatFrequency == "None" {
      q := q.(repeating := false);
    }
    if !q.repeating {
      q := q.(repeatFrequency := "None");
    }
  }

  lemma NormalizeIdempotent(p: Payload)
    ensures Normalize(Normalize(p)) == Normalize(p)
  {
  }

  /** `{ ...formData }`: every field is copied. */
  function Copy(f: Form): Payload {
    Payload(f.title, f.description, f.dueDate, f.priority, f.notificationType, Some(f.remindAt),
            f.repeating, f.repeatFrequency, Some(f.job), Some(f.contact))
  }

  /** handleSubmit: a form failing the check sends nothing; otherwise the normalised
      copy is sent. */
  function Submit(f: Form): (r: Option<Payload>)
    ensures r.Some? <==> Submittable(f)
    ensures r.Some? ==> r.value.title == f.title && r.value.dueDate == f.dueDate
    ensures r.Some? ==> r.value.job == Present(f.job) && r.value.contact == Present(f.contact)
    ensures r.Some? ==> r.value.remindAt == Present(f.remindAt)
    ensures r.Some? ==> (r.value.repeating <==> f.repeating && f.repeatFrequency != "None")
  {
    if Submittable(f) then Some(Normalize(Copy(f))) else None
  }

  /** The initial form is refused until a title is typed. */
  lemma InitialFormNeedsTitle(today: string)
    ensures Submit(InitialForm(today)).None?
  {
    assert Trim("") == "";
  }

  /** Typing a title into the initial form is enough to submit it, and the request asks
      for a one-off reminder with no link. */
  lemma TitledInitialFormSubmits(today: string, title: string)
    requires today != "" && Trim(title) != ""
    ensures var p := Submit(HandleChange(InitialForm(today), TextChange(TitleField, title)));
      p.Some? && !p.value.repeating && p.value.repeatFrequency == "None"
      && p.value.job.None? && p.value.contact.None? && p.value.remindAt.None?
      && p.value.priority == "Medium" && p.value.notificationType == "App"
  {
  }
}
