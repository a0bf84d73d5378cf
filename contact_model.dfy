/** The contact document (server/src/models/Contact.js): required fields, the e-mail
    pattern, the role and interaction enumerations and their defaults. */
module ContactModel {
  import opened Common

  datatype Role = Recruiter | HiringManager | HR | TeamMember | OtherRole

  function RoleName(r: Role): string {
    match r
    case Recruiter => "Recruiter"
    case HiringManager => "Hiring Manager"
    case HR => "HR"
    case TeamMember => "Team Member"
    case OtherRole => "Other"
  }

  const RoleNames: seq<string> := ["Recruiter", "Hiring Manager", "HR", "Team Member", "Other"]

  function ParseRole(name: string): (r: Option<Role>)
    ensures r.Some? <==> name in RoleNames
    ensures r.Some? ==> RoleName(r.value) == name
  {
    if name == "Recruiter" then Some(Recruiter)
    else if name == "Hiring Manager" then Some(HiringManager)
    else if name == "HR" then Some(HR)
    else if name == "Team Member" then Some(TeamMember)
    else if name == "Other" then Some(OtherRole)
    else None
  }

  datatype InteractionType = ByEmail | ByPhone | VideoCall | InPerson | OtherInteraction

  const InteractionTypeNames: seq<string> := ["Email", "Phone", "Video Call", "In-person", "Other"]

  function InteractionTypeName(t: InteractionType): string {
    match t
    case ByEmail => "Email"
    case ByPhone => "Phone"
    case VideoCall => "Video Call"
    case InPerson => "In-person"
    case OtherInteraction => "Other"
  }

  function ParseInteractionType(name: string): (r: Option<InteractionType>)
    ensures r.Some? <==> name in InteractionTypeNames
    ensures r.Some? ==> InteractionTypeName(r.value) == name
  {
    if name == "Email" then Some(ByEmail)
    else if name == "Phone" then Some(ByPhone)
    else if name == "Video Call" then Some(VideoCall)
    else if name == "In-person" then Some(InPerson)
    else if name == "Other" then Some(OtherInteraction)
    else None
  }

  /** An interaction sub-document; an absent type takes the default Other. */
  function NewInteraction(kind: Option<string>, notes: Option<string>, date: int): (r: Option<Interaction>)
    ensures kind.None? ==> r == Some(Interaction(date, OtherInteraction, notes))
    ensures kind.Some? ==> (r.Some? <==> kind.value in InteractionTypeNames)
    ensures r.Some? && kind.Some? ==> InteractionTypeName(r.value.kind) == kind.value
  {
    if kind.None? then Some(Interaction(date, OtherInteraction, notes))
    else if ParseInteractionType(kind.value).Some? then Some(Interaction(date, ParseInteractionType(kind.value).value, notes))
    else None
  }

  datatype Interaction = Interaction(date: int, kind: InteractionType, notes: Option<string>)

  datatype Contact = Contact(id: Id, user: Id, name: string, email: Option<string>,
                             phone: Option<string>, company: string, role: Role,
                             notes: Option<string>, lastContacted: Option<int>,
                             jobs: seq<Id>, interactions: seq<Interaction>, createdAt: int)

  // ---------------------------------------------------------------------------
  // The e-mail pattern /^\w+([\.-]?\w+)*@\w+([\.-]?\w+)*(\.\w{2,3})+$/

  /** `\w` without the `u` flag: an ASCII letter, digit or underscore. */
  predicate IsWordChar(c: char) {
    ('a' <= c <= 'z') || ('A' <= c <= 'Z') || ('0' <= c <= '9') || c == '_'
  }

  predicate IsSeparator(c: char) {
    c == '.' || c == '-'
  }

  /** `\w+([\.-]?\w+)*`: word characters, with single dots or hyphens between them. */
  predicate DottedWord(s: string) {
    |s| > 0 && IsWordChar(s[0]) && IsWordChar(s[|s| - 1])
    && (forall i :: 0 <= i < |s| ==> IsWordChar(s[i]) || IsSeparator(s[i]))
    && (forall i :: 0 <= i < |s| - 1 && IsSeparator(s[i]) ==> IsWordChar(s[i + 1]))
  }

  /** The string ends with a dot followed by `k` word characters. */
  predicate EndsWithTopLevel(s: string, k: nat) {
    |s| > k + 1 && s[|s| - k - 1] == '.'
    && forall i | |s| - k <= i < |s| :: IsWordChar(s[i])
  }

  /** `\w+([\.-]?\w+)*(\.\w{2,3})+`: a dotted word whose last segment is a dot followed
      by two or three word characters. */
  predicate EmailDomain(s: string) {
    DottedWord(s) && (EndsWithTopLevel(s, 2) || EndsWithTopLevel(s, 3))
  }

  predicate IsEmail(s: string) {
    exists i | 0 <= i < |s| :: s[i] == '@' && DottedWord(s[..i]) && EmailDomain(s[i + 1..])
  }

  /** The match validator skips absent and empty values. */
  predicate ValidEmail(email: Option<string>) {
    email.None? || email.value == "" || IsEmail(email.value)
  }

  lemma SampleEmailAccepted()
    ensures IsEmail("ann@x.io")
  {
    var s := "ann@x.io";
    assert s[3] == '@' && s[..3] == "ann" && s[4..] == "x.io";
    assert EndsWithTopLevel("x.io", 2);
  }

  /** An address with no dot at all is refused: the top-level part is mandatory. */
  lemma NoTopLevelRefused(s: string)
    requires forall i :: 0 <= i < |s| ==> s[i] != '.'
    ensures !IsEmail(s)
  {
    forall i | 0 <= i < |s| && s[i] == '@' && DottedWord(s[..i])
      ensures !EmailDomain(s[i + 1..])
    {
      var d := s[i + 1..];
      if |d| > 3 {
        assert d[|d| - 3] == s[i + 1 + |d| - 3];
      }
      if |d| > 4 {
        assert d[|d| - 4] == s[i + 1 + |d| - 4];
      }
    }
  }

  /** Everything the schema guarantees about a stored contact beyond its types. */
  predicate ValidContact(c: Contact) {
    ValidRequiredText(c.name, 50)
    && c.company != "" && Trimmed(c.company)
    && ValidEmail(c.email)
  }

  /** The fields of a create request body. */
  datatype ContactInput = ContactInput(name: Option<string>, email: Option<string>,
                                       phone: Option<string>, company: Option<string>,
                                       role: Option<string>, notes: Option<string>,
                                       jobs: seq<Id>)

  predicate ContactInputAcceptable(input: ContactInput) {
    RequiredTextAccepted(input.name, 50)
    && input.company.Some? && Trim(input.company.value) != ""
    && ValidEmail(input.email)
    && (input.role.Some? ==> input.role.value in RoleNames)
  }

  /** `Contact.create(body)`: trims name and company, defaults the role to Recruiter
      and validates. */
  function CreateContactDocument(input: ContactInput, id: Id, user: Id, now: int): (r: Result<Contact>)
    ensures r.Ok? <==> ContactInputAcceptable(input)
    ensures r.Err? ==> r.error == BadRequest
    ensures r.Ok? ==> ValidContact(r.value)
    ensures r.Ok? ==> (r.value.id == id && r.value.user == user
      && r.value.name == Trim(input.name.value) && r.value.company == Trim(input.company.value)
      && r.value.email == input.email
      && (input.role.None? ==> r.value.role == Recruiter)
      && (input.role.Some? ==> RoleName(r.value.role) == input.role.value)
      && r.value.phone == input.phone && r.value.notes == input.notes
      && r.value.lastContacted == None
      && r.value.jobs == input.jobs && r.value.interactions == [] && r.value.createdAt == now)
  {
    if !ContactInputAcceptable(input) then Err(BadRequest)
    else
      AcceptedTextIsValid(input.name, 50);
      TrimIsTrimmed(input.company.value);
      Ok(Contact(id, user, Trim(input.name.value), input.email, input.phone,
                 Trim(input.company.value),
                 if input.role.Some? then ParseRole(input.role.value).value else Recruiter,
                 input.notes, None, input.jobs, [], now))
  }

  /** The body a client would send to recreate a contact. */
  function ContactInputOf(c: Contact): ContactInput {
    ContactInput(Some(c.name), c.email, c.phone, Some(c.company), Some(RoleName(c.role)),
                 c.notes, c.jobs)
  }

  /** Round trip: a valid contact never contacted, sent back as a create body at its
      creation time, is recreated field for field. */
  lemma {:induction false} ResubmittedContactRecreated(c: Contact)
    requires ValidContact(c) && c.lastContacted.None? && c.interactions == []
    ensures CreateContactDocument(ContactInputOf(c), c.id, c.user, c.createdAt) == Ok(c)
  {
    TrimmedIffFixed(c.name);
    TrimmedIffFixed(c.company);
  }
}
