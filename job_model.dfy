/** The job document (server/src/models/Job.js): its fields, enumerations, defaults and
    the constraints every stored job satisfies. Creating a document from a request
    body applies the trim setters and the defaults and then runs the validators. */
module JobModel {
  import opened Common

  datatype Status = Applied | Interviewing | OfferReceived | Rejected | Accepted | Withdrawn | NotApplied

  function StatusName(s: Status): string {
    match s
    case Applied => "Applied"
    case Interviewing => "Interviewing"
    case OfferReceived => "Offer Received"
    case Rejected => "Rejected"
    case Accepted => "Accepted"
    case Withdrawn => "Withdrawn"
    case NotApplied => "Not Applied"
  }

  /** The status enumeration, in declaration order. */
  const StatusNames: seq<string> :=
    ["Applied", "Interviewing", "Offer Received", "Rejected", "Accepted", "Withdrawn", "Not Applied"]

  /** The enum validator: only the seven names are accepted. */
  function ParseStatus(name: string): (r: Option<Status>)
    ensures r.Some? <==> name in StatusNames
    ensures r.Some? ==> StatusName(r.value) == name
  {
    if name == "Applied" then Some(Applied)
    else if name == "Interviewing" then Some(Interviewing)
    else if name == "Offer Received" then Some(OfferReceived)
    else if name == "Rejected" then Some(Rejected)
    else if name == "Accepted" then Some(Accepted)
    else if name == "Withdrawn" then Some(Withdrawn)
    else if name == "Not Applied" then Some(NotApplied)
    else None
  }

  lemma StatusRoundTrip(s: Status)
    ensures ParseStatus(StatusName(s)) == Some(s)
  {
  }

  datatype SalaryTimeFrame = Hourly | Weekly | Monthly | Yearly

  function SalaryTimeFrameName(t: SalaryTimeFrame): string {
    match t
    case Hourly => "Hourly"
    case Weekly => "Weekly"
    case Monthly => "Monthly"
    case Yearly => "Yearly"
  }

  function ParseSalaryTimeFrame(name: string): (r: Option<SalaryTimeFrame>)
    ensures r.Some? <==> name in ["Hourly", "Weekly", "Monthly", "Yearly"]
    ensures r.Some? ==> SalaryTimeFrameName(r.value) == name
  {
    if name == "Hourly" then Some(Hourly)
    else if name == "Weekly" then Some(Weekly)
    else if name == "Monthly" then Some(Monthly)
    else if name == "Yearly" then Some(Yearly)
    else None
  }

  datatype RemoteStatus = Remote | Hybrid | OnSite

  function RemoteStatusName(s: RemoteStatus): string {
    match s
    case Remote => "Remote"
    case Hybrid => "Hybrid"
    case OnSite => "On-site"
  }

  function ParseRemoteStatus(name: string): (r: Option<RemoteStatus>)
    ensures r.Some? <==> name in ["Remote", "Hybrid", "On-site"]
    ensures r.Some? ==> RemoteStatusName(r.value) == name
  {
    if name == "Remote" then Some(Remote)
    else if name == "Hybrid" then Some(Hybrid)
    else if name == "On-site" then Some(OnSite)
    else None
  }

  /** The interview `type` enumeration. Interviews arrive from request bodies, so the
      stored type stays a string and the validator checks it on save. */
  const InterviewTypeNames: seq<string> :=
    ["Phone Screen", "Technical", "Behavioral", "Take-home", "Final Round", "Other"]

  datatype ActivityType = StatusChange | NoteAdded | ReminderSet | ContactAdded | OtherActivity

  function ActivityTypeName(t: ActivityType): string {
    match t
    case StatusChange => "Status Change"
    case NoteAdded => "Note Added"
    case ReminderSet => "Reminder Set"
    case ContactAdded => "Contact Added"
    case OtherActivity => "Other"
  }

  datatype Interview = Interview(id: Id, kind: Option<string>, date: Option<int>,
                                 duration: Option<real>, interviewer: Option<string>,
                                 notes: Option<string>, completed: bool)

  /** One entry of the job's activity log; `date` defaults to the time of the push. */
  datatype Activity = Activity(kind: ActivityType, description: string, date: int)

  datatype Retirement = Retirement(has401k: Option<bool>, matchPercentage: Option<real>)

  datatype OfferBenefits = OfferBenefits(healthcare: Option<bool>, dental: Option<bool>,
                                         vision: Option<bool>, retirement: Option<Retirement>,
                                         pto: Option<real>)

  datatype OfferDetails = OfferDetails(baseSalary: Option<real>, bonus: Option<real>,
                                       stockOptions: Option<real>, benefits: Option<OfferBenefits>,
                                       negotiationNotes: Option<string>, offerDeadline: Option<int>)

  const NoOffer := OfferDetails(None, None, None, None, None, None)

  datatype Job = Job(id: Id, user: Id, company: string, title: string, status: Status,
                     dateApplied: int, jobPostingLink: Option<string>, salary: Option<real>,
                     salaryTimeFrame: SalaryTimeFrame, location: Option<string>,
                     remoteStatus: RemoteStatus, description: Option<string>, notes: Option<string>,
                     interviews: seq<Interview>, activities: seq<Activity>, contacts: seq<Id>,
                     offer: Option<OfferDetails>)

  /** The `offerDetails && offerDetails.baseSalary` test both Sankey copies and the
      market comparison use as evidence of an offer. */
  predicate OfferEvidence(j: Job) {
    j.offer.Some? && TruthyNum(j.offer.value.baseSalary)
  }

  /** The `interview_process && interview_process.length > 0` test. */
  predicate InterviewEvidence(j: Job) {
    |j.interviews| > 0
  }

  /** `/^(http|https):\/\/[^ "]+$/`: a scheme, `://`, then at least one character that
      is neither a space nor a double quote, up to the end of the string. */
  predicate IsHttpUrl(s: string) {
    exists scheme | scheme in ["http://", "https://"] ::
      |s| > |scheme| && s[..|scheme|] == scheme && NoSpaceOrQuote(s[|scheme|..])
  }

  predicate NoSpaceOrQuote(s: string) {
    forall i :: 0 <= i < |s| ==> s[i] != ' ' && s[i] != '"'
  }

  /** The match validator skips absent and empty values. */
  predicate ValidLink(link: Option<string>) {
    link.None? || link.value == "" || IsHttpUrl(link.value)
  }

  predicate ValidInterview(iv: Interview) {
    iv.kind.None? || iv.kind.value in InterviewTypeNames
  }

  /** Everything the schema guarantees about a stored job. */
  predicate ValidJob(j: Job) {
    ValidRequiredText(j.company, 100)
    && ValidRequiredText(j.title, 100)
    && ValidLink(j.jobPostingLink)
    && (j.salary.Some? ==> j.salary.value >= 0.0)
    && (j.location.Some? ==> Trimmed(j.location.value))
    && (forall iv | iv in j.interviews :: ValidInterview(iv))
  }

  /** `save()` runs the validators over the whole document and stores nothing when one
      fails (the error handler answers 400). */
  function SaveJob(j: Job): (r: Result<Job>)
    ensures r.Ok? <==> ValidJob(j)
    ensures r.Ok? ==> r.value == j
    ensures r.Err? ==> r.error == BadRequest
  {
    if ValidJob(j) then Ok(j) else Err(BadRequest)
  }

  /** The fields of a create request body (the fields the model tracks). */
  datatype JobInput = JobInput(company: Option<string>, title: Option<string>,
                               status: Option<string>, dateApplied: Option<int>,
                               jobPostingLink: Option<string>, salary: Option<real>,
                               salaryTimeFrame: Option<string>, location: Option<string>,
                               remoteStatus: Option<string>, description: Option<string>,
                               notes: Option<string>, contacts: seq<Id>,
                               offer: Option<OfferDetails>)

  /** The body passes every validator of the schema. */
  predicate JobInputAcceptable(input: JobInput) {
    RequiredTextAccepted(input.company, 100)
    && RequiredTextAccepted(input.title, 100)
    && input.status.Some? && input.status.value in StatusNames
    && ValidLink(input.jobPostingLink)
    && (input.salary.Some? ==> input.salary.value >= 0.0)
    && (input.salaryTimeFrame.Some? ==> input.salaryTimeFrame.value in ["Hourly", "Weekly", "Monthly", "Yearly"])
    && (input.remoteStatus.Some? ==> input.remoteStatus.value in ["Remote", "Hybrid", "On-site"])
  }

  /** `Job.create(body)`: trims, fills the defaults (`dateApplied` now, Yearly, On-site,
      empty interview and activity lists) and validates. */
  function CreateJobDocument(input: JobInput, id: Id, user: Id, now: int): (r: Result<Job>)
    ensures r.Ok? <==> JobInputAcceptable(input)
    ensures r.Err? ==> r.error == BadRequest
    ensures r.Ok? ==> ValidJob(r.value)
    ensures r.Ok? ==> (r.value.id == id && r.value.user == user
      && r.value.company == Trim(input.company.value) && r.value.title == Trim(input.title.value)
      && StatusName(r.value.status) == input.status.value
      && r.value.dateApplied == input.dateApplied.GetOr(now)
      && (input.salaryTimeFrame.None? ==> r.value.salaryTimeFrame == Yearly)
      && (input.salaryTimeFrame.Some? ==> SalaryTimeFrameName(r.value.salaryTimeFrame) == input.salaryTimeFrame.value)
      && (input.remoteStatus.None? ==> r.value.remoteStatus == OnSite)
      && (input.remoteStatus.Some? ==> RemoteStatusName(r.value.remoteStatus) == input.remoteStatus.value)
      && r.value.interviews == [] && r.value.activities == []
      && r.value.contacts == input.contacts)
    ensures r.Ok? ==> (r.value.jobPostingLink == input.jobPostingLink && r.value.salary == input.salary
      && r.value.location == TrimOpt(input.location)
      && r.value.description == input.description && r.value.notes == input.notes
      && r.value.offer == input.offer)
  {
    if !JobInputAcceptable(input) then Err(BadRequest)
    else
      AcceptedTextIsValid(input.company, 100);
      AcceptedTextIsValid(input.title, 100);
      TrimOptIdempotent(input.location);
      var j := Job(id, user, Trim(input.company.value), Trim(input.title.value),
                   ParseStatus(input.status.value).value, input.dateApplied.GetOr(now),
                   input.jobPostingLink, input.salary,
                   if input.salaryTimeFrame.Some? then ParseSalaryTimeFrame(input.salaryTimeFrame.value).value else Yearly,
                   TrimOpt(input.location),
                   if input.remoteStatus.Some? then ParseRemoteStatus(input.remoteStatus.value).value else OnSite,
                   input.description, input.notes, [], [], input.contacts, input.offer);
      assert ValidJob(j);
      Ok(j)
  }

  /** The body a client would send to recreate a job: every stored field by its name. */
  function JobInputOf(j: Job): JobInput {
    JobInput(Some(j.company), Some(j.title), Some(StatusName(j.status)), Some(j.dateApplied),
             j.jobPostingLink, j.salary, Some(SalaryTimeFrameName(j.salaryTimeFrame)), j.location,
             Some(RemoteStatusName(j.remoteStatus)), j.description, j.notes, j.contacts, j.offer)
  }

  /** Round trip: a valid job without interviews or activity, sent back as a create
      body, is recreated field for field. */
  lemma {:induction false} ResubmittedJobRecreated(j: Job, now: int)
    requires ValidJob(j) && j.interviews == [] && j.activities == []
    ensures CreateJobDocument(JobInputOf(j), j.id, j.user, now) == Ok(j)
  {
    TrimmedIffFixed(j.company);
    TrimmedIffFixed(j.title);
    if j.location.Some? {
      TrimmedIffFixed(j.location.value);
    }
    StatusRoundTrip(j.status);
  }

  /** An input whose company is blank is refused: `required` sees the trimmed value. */
  lemma BlankCompanyRefused(input: JobInput, id: Id, user: Id, now: int)
    requires input.company.Some? && AllSpace(input.company.value)
    ensures CreateJobDocument(input, id, user, now) == Err(BadRequest)
  {
    TrimEmptyIffBlank(input.company.value);
  }
}
