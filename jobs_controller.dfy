/** The job handlers (server/src/controllers/jobs.js) that change documents: creating a
    job from a body merged with scraped data, updating it, adding a note, adding and
    updating an interview, recording an offer, and deleting a job. Each handler looks
    the job up, answers 404 for a missing one before 401 for a foreign one, then
    changes the loaded document and saves it, or deletes it. */
module JobsController {
  import opened Common
  import J = JobModel
  import C = ContactModel
  import opened Store

  // ---------------------------------------------------------------------------
  // createJob

  /** The fields `scrapeJobPosting` extracts from a posting page. */
  datatype Scraped = Scraped(title: string, company: string, location: string, description: string)

  /** `{ ...jobData, ...req.body }`: a field the body provides wins over the scraped one. */
  function MergeScraped(scraped: Scraped, body: J.JobInput): (m: J.JobInput)
    ensures m.title == (if body.title.Some? then body.title else Some(scraped.title))
    ensures m.company == (if body.company.Some? then body.company else Some(scraped.company))
    ensures m.location == (if body.location.Some? then body.location else Some(scraped.location))
    ensures m.description == (if body.description.Some? then body.description else Some(scraped.description))
    ensures m.(title := body.title, company := body.company, location := body.location,
               description := body.description) == body
  {
    body.(title := if body.title.Some? then body.title else Some(scraped.title),
          company := if body.company.Some? then body.company else Some(scraped.company),
          location := if body.location.Some? then body.location else Some(scraped.location),
          description := if body.description.Some? then body.description else Some(scraped.description))
  }

  /** Merging twice is merging once, and a body that names all four fields is kept as
      it is. */
  lemma MergeScrapedIdempotent(scraped: Scraped, body: J.JobInput)
    ensures MergeScraped(scraped, MergeScraped(scraped, body)) == MergeScraped(scraped, body)
    ensures body.title.Some? && body.company.Some? && body.location.Some? && body.description.Some?
            ==> MergeScraped(scraped, body) == body
  {
  }

  /** The body `Job.create` receives: merged when a link is given, auto-population is
      asked for and scraping succeeded (`scrape`); the body itself otherwise. */
  function CreateInput(body: J.JobInput, autoPopulate: bool, scrape: Option<Scraped>): J.JobInput {
    if TruthyStr(body.jobPostingLink) && autoPopulate && scrape.Some? then MergeScraped(scrape.value, body)
    else body
  }

  /** One contact of the body after the new job is linked: an owned contact gets the job
      id appended to its jobs; a missing or foreign one is left alone. */
  function LinkJob(contacts: map<Id, C.Contact>, contactId: Id, user: Id, jobId: Id): (r: map<Id, C.Contact>)
    ensures r.Keys == contacts.Keys
  {
    if contactId in contacts && contacts[contactId].user == user then
      contacts[contactId := contacts[contactId].(jobs := Push(contacts[contactId].jobs, jobId))]
    else contacts
  }

  lemma LinkJobValid(contacts: map<Id, C.Contact>, contactId: Id, user: Id, jobId: Id)
    requires ContactsValid(contacts)
    ensures ContactsValid(LinkJob(contacts, contactId, user, jobId))
  {
    if contactId in contacts && contacts[contactId].user == user {
      var c := contacts[contactId];
      ContactStaysValid(c, c.(jobs := Push(c.jobs, jobId)));
      StoreContact(contacts, c.(jobs := Push(c.jobs, jobId)));
    }
  }

  /** The listed contacts, linked one after the other. */
  function LinkJobAll(contacts: map<Id, C.Contact>, ids: seq<Id>, user: Id, jobId: Id): (r: map<Id, C.Contact>)
    ensures r.Keys == contacts.Keys
    decreases |ids|
  {
    if ids == [] then contacts
    else LinkJob(LinkJobAll(contacts, ids[..|ids| - 1], user, jobId), ids[|ids| - 1], user, jobId)
  }

  /** Linking changes only the jobs list, and adds the job once per time the contact is
      listed when the contact is owned; contacts not listed are unchanged. */
  lemma {:induction false} LinkJobAllEffect(contacts: map<Id, C.Contact>, ids: seq<Id>, user: Id, jobId: Id, c: Id)
    requires c in contacts
    ensures var r := LinkJobAll(contacts, ids, user, jobId);
      r[c].(jobs := contacts[c].jobs) == contacts[c]
      && Occurrences(r[c].jobs, jobId) == Occurrences(contacts[c].jobs, jobId)
           + (if contacts[c].user == user then Occurrences(ids, c) else 0)
    decreases |ids|
  {
    if ids != [] {
      var front := ids[..|ids| - 1];
      LinkJobAllEffect(contacts, front, user, jobId, c);
      var before := LinkJobAll(contacts, front, user, jobId);
      assert ids == Push(front, ids[|ids| - 1]);
      OccurrencesPush(front, ids[|ids| - 1], c);
      if ids[|ids| - 1] == c && before[c].user == user {
        OccurrencesPush(before[c].jobs, jobId, jobId);
      }
    }
  }

  /** createJob: the (possibly merged) body is validated and stored under the new id; then
      every owned contact the body lists gets the job appended. A refused body stores
      nothing. */
  method CreateJob(db: Db, user: Id, body: J.JobInput, autoPopulate: bool, scrape: Option<Scraped>,
                   newId: Id, now: int) returns (r: Result<J.Job>)
    requires db.Valid() && newId !in db.jobs
    modifies db
    ensures db.Valid()
    ensures r == J.CreateJobDocument(CreateInput(body, autoPopulate, scrape), newId, user, now)
    ensures db.jobs == if r.Ok? then old(db.jobs)[newId := r.value] else old(db.jobs)
    ensures db.contacts == if r.Ok? then LinkJobAll(old(db.contacts), body.contacts, user, newId)
                           else old(db.contacts)
    ensures db.reminders == old(db.reminders) && db.users == old(db.users)
  {
    var input := CreateInput(body, autoPopulate, scrape);
    r := J.CreateJobDocument(input, newId, user, now);
    if r.Err? {
      return;
    }
    db.jobs := db.jobs[newId := r.value];
    LinkContacts(db, input.contacts, user, newId);
  }

  /** The linking loop of createJob. */
  method LinkContacts(db: Db, ids: seq<Id>, user: Id, jobId: Id)
    requires db.Valid()
    modifies db
    ensures db.Valid()
    ensures db.contacts == LinkJobAll(old(db.contacts), ids, user, jobId)
    ensures db.jobs == old(db.jobs) && db.reminders == old(db.reminders) && db.users == old(db.users)
  {
    for i := 0 to |ids|
      invariant ContactsValid(db.contacts)
      invariant db.jobs == old(db.jobs) && db.reminders == old(db.reminders) && db.users == old(db.users)
      invariant db.contacts == LinkJobAll(old(db.contacts), ids[..i], user, jobId)
    {
      assert ids[..i + 1][..i] == ids[..i];
      LinkJobValid(db.contacts, ids[i], user, jobId);
      db.contacts := LinkJob(db.contacts, ids[i], user, jobId);
    }
    assert ids[..|ids|] == ids;
  }

  // ---------------------------------------------------------------------------
  // updateJob

  /** The fields of an update body the model tracks. */
  datatype JobPatch = JobPatch(company: Option<string>, title: Option<string>, status: Option<string>,
                               location: Option<string>, salary: Option<real>, notes: Option<string>)

  /** The update validators: only the fields the body names are checked. */
  predicate PatchAcceptable(p: JobPatch) {
    (p.company.None? || RequiredTextAccepted(p.company, 100))
    && (p.title.None? || RequiredTextAccepted(p.title, 100))
    && (p.status.None? || p.status.value in J.StatusNames)
    && (p.salary.None? || p.salary.value >= 0.0)
  }

  /** A text field of the body through the trim setter, or the stored value. */
  function TextOr(stored: string, given: Option<string>): (r: string)
    requires given.None? || RequiredTextAccepted(given, 100)
    ensures ValidRequiredText(stored, 100) ==> ValidRequiredText(r, 100)
  {
    if given.Some? then AcceptedTextIsValid(given, 100); Trim(given.value) else stored
  }

  /** The status the body names, or the stored one. */
  function StatusOr(stored: J.Status, given: Option<string>): (r: J.Status)
    requires given.None? || given.value in J.StatusNames
    ensures given.Some? ==> J.StatusName(r) == given.value
    ensures given.None? ==> r == stored
  {
    if given.Some? then J.ParseStatus(given.value).value else stored
  }

  /** The location the body names, trimmed, or the stored one. */
  function LocationOr(stored: Option<string>, given: Option<string>): (r: Option<string>)
    ensures (stored.Some? ==> Trimmed(stored.value)) ==> (r.Some? ==> Trimmed(r.value))
  {
    if given.Some? then TrimOptIdempotent(given); TrimOpt(given) else stored
  }

  /** `findByIdAndUpdate(id, body)`: the named fields replace the stored ones, through
      the trim setters. */
  function Patched(job: J.Job, p: JobPatch): (u: J.Job)
    requires PatchAcceptable(p)
    ensures u.id == job.id && u.user == job.user && u.activities == job.activities
    ensures p.company.Some? ==> u.company == Trim(p.company.value)
    ensures p.company.None? ==> u.company == job.company
    ensures p.title.Some? ==> u.title == Trim(p.title.value)
    ensures p.title.None? ==> u.title == job.title
    ensures p.status.Some? ==> J.StatusName(u.status) == p.status.value
    ensures p.status.None? ==> u.status == job.status
    ensures p.location.Some? ==> u.location == Some(Trim(p.location.value))
    ensures p.location.None? ==> u.location == job.location
    ensures p.salary.Some? ==> u.salary == p.salary
    ensures p.salary.None? ==> u.salary == job.salary
    ensures p.notes.Some? ==> u.notes == p.notes
    ensures p.notes.None? ==> u.notes == job.notes
    ensures u.(company := job.company, title := job.title, status := job.status, location := job.location,
               salary := job.salary, notes := job.notes) == job
  {
    job.(company := TextOr(job.company, p.company), title := TextOr(job.title, p.title),
         status := StatusOr(job.status, p.status), location := LocationOr(job.location, p.location),
         salary := if p.salary.Some? then p.salary else job.salary, notes := if p.notes.Some? then p.notes else job.notes)
  }

  /** The update validators keep a valid job valid. */
  lemma PatchedValid(job: J.Job, p: JobPatch)
    requires PatchAcceptable(p)
    ensures J.ValidJob(job) ==> J.ValidJob(Patched(job, p))
  {
    var u := Patched(job, p);
    assert u.interviews == job.interviews;
  }

  /** `req.body.status && req.body.status !== job.status`. */
  predicate StatusChanges(job: J.Job, p: JobPatch) {
    TruthyStr(p.status) && p.status.value != J.StatusName(job.status)
  }

  function StatusChangeEntry(job: J.Job, p: JobPatch, now: int): J.Activity
    requires p.status.Some?
  {
    J.Activity(J.StatusChange, "Status changed from " + J.StatusName(job.status) + " to " + p.status.value, now)
  }

  /** `findByIdAndUpdate(id, body, { runValidators: true })`: a body that fails a
      validator is refused with 400; otherwise its fields are applied. */
  function ApplyPatch(job: J.Job, p: JobPatch): (r: Result<J.Job>)
    ensures r.Ok? <==> PatchAcceptable(p)
    ensures r.Err? ==> r.error == BadRequest
    ensures r.Ok? ==> r.value.id == job.id && r.value.user == job.user && r.value.activities == job.activities
    ensures r.Ok? ==> r.value == Patched(job, p)
    ensures r.Ok? && J.ValidJob(job) ==> J.ValidJob(r.value)
  {
    if PatchAcceptable(p) then PatchedValid(job, p); Ok(Patched(job, p)) else Err(BadRequest)
  }

  /** updateJob as written: the Status Change entry is pushed onto the loaded document,
      which is never saved; the stored document is then updated from the body alone. */
  function UpdateJobAsWritten(jobs: map<Id, J.Job>, id: Id, user: Id, p: JobPatch): (r: Result<J.Job>)
    ensures r.Ok? ==> id in jobs && r.value.activities == jobs[id].activities
  {
    var found := OwnedJob(jobs, id, user);
    if found.Err? then Err(found.error) else ApplyPatch(found.value, p)
  }

  /** The loaded job with the Status Change entry pushed when the body changes the
      status. */
  function LogStatusChange(job: J.Job, p: JobPatch, now: int): (u: J.Job)
    ensures u.(activities := job.activities) == job
    ensures |u.activities| == |job.activities| + (if StatusChanges(job, p) then 1 else 0)
    ensures u.activities[..|job.activities|] == job.activities
    ensures StatusChanges(job, p) ==> u.activities[|job.activities|].kind == J.StatusChange
    ensures J.ValidJob(job) ==> J.ValidJob(u)
  {
    if StatusChanges(job, p) then
      var u := job.(activities := Push(job.activities, StatusChangeEntry(job, p, now)));
      JobStaysValid(job, u);
      u
    else job
  }

  /** updateJob as intended: a status change is logged on the stored document, and the
      body's fields are applied. */
  function UpdateJobIntended(jobs: map<Id, J.Job>, id: Id, user: Id, p: JobPatch, now: int): (r: Result<J.Job>)
    ensures OwnedJob(jobs, id, user).Err? ==> r == Err(OwnedJob(jobs, id, user).error)
    ensures OwnedJob(jobs, id, user).Ok? ==> (r.Ok? <==> PatchAcceptable(p))
    ensures r.Ok? ==> r.value.id == jobs[id].id && r.value.user == user
    ensures r.Ok? && J.ValidJob(jobs[id]) ==> J.ValidJob(r.value)
    ensures r.Ok? ==> |r.value.activities| == |jobs[id].activities| + (if StatusChanges(jobs[id], p) then 1 else 0)
    ensures r.Ok? ==> r.value.activities[..|jobs[id].activities|] == jobs[id].activities
    ensures r.Ok? && StatusChanges(jobs[id], p) ==>
      r.value.activities[|jobs[id].activities|].kind == J.StatusChange
  {
    var found := OwnedJob(jobs, id, user);
    if found.Err? then Err(found.error) else ApplyPatch(LogStatusChange(found.value, p, now), p)
  }

  /** The two differ exactly on the log: a status change is recorded by the intended
      handler and lost by the written one, and nothing else differs. */
  lemma StatusChangeLost(jobs: map<Id, J.Job>, id: Id, user: Id, p: JobPatch, now: int)
    requires OwnedJob(jobs, id, user).Ok? && PatchAcceptable(p) && StatusChanges(jobs[id], p)
    ensures UpdateJobAsWritten(jobs, id, user, p).value.activities == jobs[id].activities
    ensures |UpdateJobIntended(jobs, id, user, p, now).value.activities| == |jobs[id].activities| + 1
    ensures UpdateJobIntended(jobs, id, user, p, now).value.(activities := jobs[id].activities)
            == UpdateJobAsWritten(jobs, id, user, p).value
  {
  }

  /** updateJob, with the status change logged. */
  method UpdateJob(db: Db, id: Id, user: Id, p: JobPatch, now: int) returns (r: Result<J.Job>)
    requires db.Valid()
    modifies db
    ensures db.Valid()
    ensures r == UpdateJobIntended(old(db.jobs), id, user, p, now)
    ensures db.jobs == if r.Ok? then old(db.jobs)[id := r.value] else old(db.jobs)
    ensures db.contacts == old(db.contacts) && db.reminders == old(db.reminders) && db.users == old(db.users)
  {
    var found := OwnedJob(db.jobs, id, user);
    if found.Err? {
      return Err(found.error);
    }
    var job := found.value;
    assert J.ValidJob(job) && job.id == id;
    job := LogStatusChange(job, p, now);
    r := ApplyPatch(job, p);
    if r.Ok? {
      StoreJob(db.jobs, r.value);
      db.jobs := db.jobs[id := r.value];
    }
  }

  // ---------------------------------------------------------------------------
  // addJobNote

  /** The loaded job after a note: one Note Added entry, and the note appended to the
      notes after a blank line, or the note alone when there were none. */
  function WithNote(job: J.Job, note: string, now: int): (u: J.Job)
    ensures u.activities == job.activities + [J.Activity(J.NoteAdded, note, now)]
    ensures TruthyStr(job.notes) ==> u.notes == Some(job.notes.value + "\n\n" + note)
    ensures !TruthyStr(job.notes) ==> u.notes == Some(note)
    ensures u.(notes := job.notes, activities := job.activities) == job
    ensures J.ValidJob(job) ==> J.ValidJob(u)
  {
    var logged := job.(activities := Push(job.activities, J.Activity(J.NoteAdded, note, now)));
    if TruthyStr(logged.notes) then logged.(notes := Some(logged.notes.value + "\n\n" + note))
    else logged.(notes := Some(note))
  }

  /** The old notes stay in front of the new ones, and the note ends them. */
  lemma NotesKeepHistory(job: J.Job, note: string, now: int)
    requires TruthyStr(job.notes)
    ensures var n := WithNote(job, note, now).notes.value;
      n[..|job.notes.value|] == job.notes.value && n[|n| - |note|..] == note
  {
  }

  /** addJobNote: an empty note is refused with 400 before the lookup. */
  function AddNoteResult(jobs: map<Id, J.Job>, id: Id, user: Id, note: Option<string>, now: int): (r: Result<J.Job>)
    ensures !TruthyStr(note) ==> r == Err(BadRequest)
    ensures TruthyStr(note) && OwnedJob(jobs, id, user).Err? ==> r == Err(OwnedJob(jobs, id, user).error)
    ensures r.Ok? ==> OwnedJob(jobs, id, user).Ok? && TruthyStr(note) && r.value == WithNote(jobs[id], note.value, now)
  {
    if !TruthyStr(note) then Err(BadRequest)
    else
      var found := OwnedJob(jobs, id, user);
      if found.Err? then Err(found.error) else J.SaveJob(WithNote(found.value, note.value, now))
  }

  /** A note is always saved for an owned valid job. */
  lemma NoteAlwaysSaved(jobs: map<Id, J.Job>, id: Id, user: Id, note: string, now: int)
    requires OwnedJob(jobs, id, user).Ok? && J.ValidJob(jobs[id]) && note != ""
    ensures AddNoteResult(jobs, id, user, Some(note), now) == Ok(WithNote(jobs[id], note, now))
  {
  }

  method AddJobNote(db: Db, id: Id, user: Id, note: Option<string>, now: int) returns (r: Result<J.Job>)
    requires db.Valid()
    modifies db
    ensures db.Valid()
    ensures r == AddNoteResult(old(db.jobs), id, user, note, now)
    ensures db.jobs == if r.Ok? then old(db.jobs)[id := r.value] else old(db.jobs)
    ensures db.contacts == old(db.contacts) && db.reminders == old(db.reminders) && db.users == old(db.users)
  {
    if !TruthyStr(note) {
      return Err(BadRequest);
    }
    var found := OwnedJob(db.jobs, id, user);
    if found.Err? {
      return Err(found.error);
    }
    var job := found.value;
    job := job.(activities := Push(job.activities, J.Activity(J.NoteAdded, note.value, now)));
    if TruthyStr(job.notes) {
      job := job.(notes := Some(job.notes.value + "\n\n" + note.value));
    } else {
      job := job.(notes := note);
    }
    r := J.SaveJob(job);
    if r.Ok? {
      db.jobs := db.jobs[id := r.value];
    }
  }

  // ---------------------------------------------------------------------------
  // addInterview and updateInterview

  /** An interview body; the sub-document gets the fresh id `interviewId`. */
  datatype InterviewInput = InterviewInput(kind: Option<string>, date: Option<int>, duration: Option<real>,
                                           interviewer: Option<string>, notes: Option<string>,
                                           completed: Option<bool>)

  function NewInterview(body: InterviewInput, interviewId: Id): J.Interview {
    J.Interview(interviewId, body.kind, body.date, body.duration, body.interviewer, body.notes,
                body.completed.GetOr(false))
  }

  /** The loaded job after an interview: the interview appended, Applied moved to
      Interviewing and every other status kept, and one Status Change entry; `dateText`
      is the interview date as the server's locale prints it. */
  function WithInterview(job: J.Job, body: InterviewInput, interviewId: Id, dateText: string, now: int): (u: J.Job)
    ensures u.interviews == job.interviews + [NewInterview(body, interviewId)]
    ensures u.status == if job.status == J.Applied then J.Interviewing else job.status
    ensures |u.activities| == |job.activities| + 1 && u.activities[..|job.activities|] == job.activities
    ensures u.activities[|job.activities|].kind == J.StatusChange
    ensures u.(interviews := job.interviews, status := job.status, activities := job.activities) == job
  {
    var kindText := if body.kind.Some? then body.kind.value else "undefined";
    var entry := J.Activity(J.StatusChange, "Interview scheduled: " + kindText + " on " + dateText, now);
    job.(interviews := Push(job.interviews, NewInterview(body, interviewId)),
         status := if job.status == J.Applied then J.Interviewing else job.status,
         activities := Push(job.activities, entry))
  }

  /** Adding an interview never moves a job backwards or past Interviewing. */
  lemma InterviewStatusRule(job: J.Job, body: InterviewInput, interviewId: Id, dateText: string, now: int)
    ensures var s := WithInterview(job, body, interviewId, dateText, now).status;
      s == job.status || (job.status == J.Applied && s == J.Interviewing)
  {
  }

  /** addInterview: 404, then 401, then the save, which refuses an interview type outside
      the enumeration with 400. */
  function AddInterviewResult(jobs: map<Id, J.Job>, id: Id, user: Id, body: InterviewInput,
                              interviewId: Id, dateText: string, now: int): (r: Result<J.Job>)
    ensures OwnedJob(jobs, id, user).Err? ==> r == Err(OwnedJob(jobs, id, user).error)
    ensures OwnedJob(jobs, id, user).Ok? && J.ValidJob(jobs[id]) ==>
      (r.Ok? <==> J.ValidInterview(NewInterview(body, interviewId)))
    ensures r.Ok? ==> r.value == WithInterview(jobs[id], body, interviewId, dateText, now)
  {
    var found := OwnedJob(jobs, id, user);
    if found.Err? then Err(found.error)
    else J.SaveJob(WithInterview(found.value, body, interviewId, dateText, now))
  }

  method AddInterview(db: Db, id: Id, user: Id, body: InterviewInput, interviewId: Id,
                      dateText: string, now: int) returns (r: Result<J.Job>)
    requires db.Valid()
    modifies db
    ensures db.Valid()
    ensures r == AddInterviewResult(old(db.jobs), id, user, body, interviewId, dateText, now)
    ensures db.jobs == if r.Ok? then old(db.jobs)[id := r.value] else old(db.jobs)
    ensures db.contacts == old(db.contacts) && db.reminders == old(db.reminders) && db.users == old(db.users)
  {
    var found := OwnedJob(db.jobs, id, user);
    if found.Err? {
      return Err(found.error);
    }
    var job := found.value;
    job := job.(interviews := Push(job.interviews, NewInterview(body, interviewId)));
    if job.status == J.Applied {
      job := job.(status := J.Interviewing);
    }
    var kindText := if body.kind.Some? then body.kind.value else "undefined";
    job := job.(activities := Push(job.activities,
                J.Activity(J.StatusChange, "Interview scheduled: " + kindText + " on " + dateText, now)));
    r := J.SaveJob(job);
    if r.Ok? {
      db.jobs := db.jobs[id := r.value];
    }
  }

  /** The fields of an interview update body. */
  datatype InterviewPatch = InterviewPatch(kind: Option<string>, date: Option<int>, duration: Option<real>,
                                           interviewer: Option<string>, notes: Option<string>,
                                           completed: Option<bool>)

  /** `{ ...interview.toObject(), ...req.body }`. */
  function MergeInterview(iv: J.Interview, p: InterviewPatch): (m: J.Interview)
    ensures m.id == iv.id
    ensures p == InterviewPatch(None, None, None, None, None, None) ==> m == iv
  {
    J.Interview(iv.id, if p.kind.Some? then p.kind else iv.kind, if p.date.Some? then p.date else iv.date,
                if p.duration.Some? then p.duration else iv.duration,
                if p.interviewer.Some? then p.interviewer else iv.interviewer,
                if p.notes.Some? then p.notes else iv.notes, p.completed.GetOr(iv.completed))
  }

  /** `findIndex(interview => interview._id.toString() === interviewId)`. */
  function InterviewIndex(ivs: seq<J.Interview>, interviewId: Id): (r: Option<nat>)
    ensures r.Some? ==> (r.value < |ivs| && ivs[r.value].id == interviewId
                         && forall i :: 0 <= i < r.value ==> ivs[i].id != interviewId)
    ensures r.None? ==> forall i :: 0 <= i < |ivs| ==> ivs[i].id != interviewId
  {
    if ivs == [] then None
    else if ivs[0].id == interviewId then Some(0)
    else match InterviewIndex(ivs[1..], interviewId)
      case None => None
      case Some(i) => Some(i + 1)
  }

  /** updateInterview: 404 for the job, 401, 404 for the interview; then only the first
      interview with that id changes, the body's fields over the stored ones. */
  function UpdateInterviewResult(jobs: map<Id, J.Job>, id: Id, user: Id, interviewId: Id,
                                 p: InterviewPatch): (r: Result<J.Job>)
    ensures OwnedJob(jobs, id, user).Err? ==> r == Err(OwnedJob(jobs, id, user).error)
    ensures OwnedJob(jobs, id, user).Ok? && InterviewIndex(jobs[id].interviews, interviewId).None?
            ==> r == Err(NotFound)
    ensures r.Ok? ==> (
      var i := InterviewIndex(jobs[id].interviews, interviewId).value;
      r.value == jobs[id].(interviews := jobs[id].interviews[i := MergeInterview(jobs[id].interviews[i], p)]))
  {
    var found := OwnedJob(jobs, id, user);
    if found.Err? then Err(found.error)
    else
      var job := found.value;
      var at := InterviewIndex(job.interviews, interviewId);
      if at.None? then Err(NotFound)
      else J.SaveJob(job.(interviews := job.interviews[at.value := MergeInterview(job.interviews[at.value], p)]))
  }

  /** Updating an interview keeps every other interview and the interview count. */
  lemma UpdateInterviewLocal(jobs: map<Id, J.Job>, id: Id, user: Id, interviewId: Id, p: InterviewPatch)
    requires UpdateInterviewResult(jobs, id, user, interviewId, p).Ok?
    ensures var u := UpdateInterviewResult(jobs, id, user, interviewId, p).value;
      |u.interviews| == |jobs[id].interviews|
      && forall k :: 0 <= k < |u.interviews| && jobs[id].interviews[k].id != interviewId ==>
           u.interviews[k] == jobs[id].interviews[k]
  {
  }

  method UpdateInterview(db: Db, id: Id, user: Id, interviewId: Id, p: InterviewPatch)
    returns (r: Result<J.Job>)
    requires db.Valid()
    modifies db
    ensures db.Valid()
    ensures r == UpdateInterviewResult(old(db.jobs), id, user, interviewId, p)
    ensures db.jobs == if r.Ok? then old(db.jobs)[id := r.value] else old(db.jobs)
    ensures db.contacts == old(db.contacts) && db.reminders == old(db.reminders) && db.users == old(db.users)
  {
    var found := OwnedJob(db.jobs, id, user);
    if found.Err? {
      return Err(found.error);
    }
    var job := found.value;
    var at := InterviewIndex(job.interviews, interviewId);
    if at.None? {
      return Err(NotFound);
    }
    job := job.(interviews := job.interviews[at.value := MergeInterview(job.interviews[at.value], p)]);
    r := J.SaveJob(job);
    if r.Ok? {
      db.jobs := db.jobs[id := r.value];
    }
  }

  // ---------------------------------------------------------------------------
  // addOfferDetails

  /** The fields of an offer body. */
  datatype OfferPatch = OfferPatch(baseSalary: Option<real>, bonus: Option<real>, stockOptions: Option<real>,
                                   benefits: Option<J.OfferBenefits>, negotiationNotes: Option<string>,
                                   offerDeadline: Option<int>)

  /** `{ ...job.offerDetails, ...req.body }`: each top-level field the body names replaces
      the stored one; `benefits` is replaced as a whole. */
  function MergeOffer(stored: Option<J.OfferDetails>, p: OfferPatch): (m: J.OfferDetails)
    ensures p.baseSalary.Some? ==> m.baseSalary == p.baseSalary
    ensures p.baseSalary.None? ==> m.baseSalary == stored.GetOr(J.NoOffer).baseSalary
    ensures p.bonus.Some? ==> m.bonus == p.bonus
    ensures p.bonus.None? ==> m.bonus == stored.GetOr(J.NoOffer).bonus
    ensures p.stockOptions.Some? ==> m.stockOptions == p.stockOptions
    ensures p.stockOptions.None? ==> m.stockOptions == stored.GetOr(J.NoOffer).stockOptions
    ensures p.benefits.Some? ==> m.benefits == p.benefits
    ensures p.benefits.None? ==> m.benefits == stored.GetOr(J.NoOffer).benefits
    ensures p.negotiationNotes.Some? ==> m.negotiationNotes == p.negotiationNotes
    ensures p.negotiationNotes.None? ==> m.negotiationNotes == stored.GetOr(J.NoOffer).negotiationNotes
    ensures p.offerDeadline.Some? ==> m.offerDeadline == p.offerDeadline
    ensures p.offerDeadline.None? ==> m.offerDeadline == stored.GetOr(J.NoOffer).offerDeadline
  {
    var o := stored.GetOr(J.NoOffer);
    J.OfferDetails(if p.baseSalary.Some? then p.baseSalary else o.baseSalary,
                   if p.bonus.Some? then p.bonus else o.bonus,
                   if p.stockOptions.Some? then p.stockOptions else o.stockOptions,
                   if p.benefits.Some? then p.benefits else o.benefits,
                   if p.negotiationNotes.Some? then p.negotiationNotes else o.negotiationNotes,
                   if p.offerDeadline.Some? then p.offerDeadline else o.offerDeadline)
  }

  /** A job already at the offer stage: Offer Received or Accepted. */
  predicate AtOfferStage(s: J.Status) {
    s == J.OfferReceived || s == J.Accepted
  }

  /** The loaded job after an offer: the merged offer, Offer Received unless already at
      the offer stage, and a Status Change entry exactly when the status moved;
      `amountText` is the body's base salary as JavaScript prints it. */
  function WithOffer(job: J.Job, p: OfferPatch, amountText: string, now: int): (u: J.Job)
    ensures u.offer == Some(MergeOffer(job.offer, p))
    ensures AtOfferStage(u.status)
    ensures AtOfferStage(job.status) ==> u.status == job.status && u.activities == job.activities
    ensures !AtOfferStage(job.status) ==> (u.status == J.OfferReceived
      && |u.activities| == |job.activities| + 1 && u.activities[..|job.activities|] == job.activities
      && u.activities[|job.activities|].kind == J.StatusChange)
    ensures u.(offer := job.offer, status := job.status, activities := job.activities) == job
  {
    var merged := job.(offer := Some(MergeOffer(job.offer, p)));
    if !AtOfferStage(merged.status) then
      merged.(status := J.OfferReceived,
              activities := Push(merged.activities,
                                 J.Activity(J.StatusChange, "Offer received with base salary of " + amountText, now)))
    else merged
  }

  /** After recording an offer with a non-zero base salary the job carries offer
      evidence, which both application-flow charts look for. */
  lemma OfferBodyGivesEvidence(job: J.Job, p: OfferPatch, amountText: string, now: int)
    requires TruthyNum(p.baseSalary)
    ensures J.OfferEvidence(WithOffer(job, p, amountText, now))
  {
  }

  function AddOfferResult(jobs: map<Id, J.Job>, id: Id, user: Id, p: OfferPatch, amountText: string,
                          now: int): (r: Result<J.Job>)
    ensures OwnedJob(jobs, id, user).Err? ==> r == Err(OwnedJob(jobs, id, user).error)
    ensures OwnedJob(jobs, id, user).Ok? && J.ValidJob(jobs[id]) ==>
      r == Ok(WithOffer(jobs[id], p, amountText, now))
  {
    var found := OwnedJob(jobs, id, user);
    if found.Err? then Err(found.error) else J.SaveJob(WithOffer(found.value, p, amountText, now))
  }

  method AddOfferDetails(db: Db, id: Id, user: Id, p: OfferPatch, amountText: string, now: int)
    returns (r: Result<J.Job>)
    requires db.Valid()
    modifies db
    ensures db.Valid()
    ensures r == AddOfferResult(old(db.jobs), id, user, p, amountText, now)
    ensures db.jobs == if r.Ok? then old(db.jobs)[id := r.value] else old(db.jobs)
    ensures db.contacts == old(db.contacts) && db.reminders == old(db.reminders) && db.users == old(db.users)
  {
    var found := OwnedJob(db.jobs, id, user);
    if found.Err? {
      return Err(found.error);
    }
    var job := found.value;
    job := job.(offer := Some(MergeOffer(job.offer, p)));
    if job.status != J.OfferReceived && job.status != J.Accepted {
      job := job.(status := J.OfferReceived);
      job := job.(activities := Push(job.activities,
                  J.Activity(J.StatusChange, "Offer received with base salary of " + amountText, now)));
    }
    r := J.SaveJob(job);
    if r.Ok? {
      db.jobs := db.jobs[id := r.value];
    }
  }

  // ---------------------------------------------------------------------------
  // deleteJob

  /** `Contact.updateMany({ jobs: id }, { $pull: { jobs: id } })`: no contact, whoever
      owns it, lists the job any more; each keeps its other jobs and every other field. */
  function ContactsWithoutJob(contacts: map<Id, C.Contact>, jobId: Id): (r: map<Id, C.Contact>)
    ensures r.Keys == contacts.Keys
    ensures forall c :: c in r ==> jobId !in r[c].jobs
    ensures forall c, y :: c in r && y != jobId ==> (y in r[c].jobs <==> y in contacts[c].jobs)
    ensures forall c :: c in r ==> r[c].(jobs := contacts[c].jobs) == contacts[c]
    ensures forall c :: c in r && jobId !in contacts[c].jobs ==> r[c] == contacts[c]
  {
    map c | c in contacts :: contacts[c].(jobs := Pull(contacts[c].jobs, jobId))
  }

  /** deleteJob: 404 for a missing job before 401 for a foreign one; then the job is
      unlinked from every contact and removed. Reminders that name the job keep it. */
  method DeleteJob(db: Db, id: Id, user: Id) returns (r: Outcome)
    requires db.Valid()
    modifies db
    ensures db.Valid()
    ensures OwnedJob(old(db.jobs), id, user).Err? ==>
      r == Fail(OwnedJob(old(db.jobs), id, user).error)
      && db.jobs == old(db.jobs) && db.contacts == old(db.contacts)
    ensures OwnedJob(old(db.jobs), id, user).Ok? ==>
      r == Pass && db.jobs == old(db.jobs) - {id}
      && db.contacts == ContactsWithoutJob(old(db.contacts), id)
    ensures db.reminders == old(db.reminders) && db.users == old(db.users)
  {
    var found := OwnedJob(db.jobs, id, user);
    if found.Err? {
      return Fail(found.error);
    }
    var unlinked := ContactsWithoutJob(db.contacts, id);
    forall c | c in unlinked
      ensures unlinked[c].id == c && C.ValidContact(unlinked[c])
    {
      ContactStaysValid(db.contacts[c], unlinked[c]);
    }
    db.contacts := unlinked;
    db.jobs := db.jobs - {id};
    r := Pass;
  }
}
