/** The contact handlers (server/src/controllers/contacts.js) that change documents:
    creating a contact and linking it to the jobs its body lists, recording an
    interaction, linking a contact to a job, and deleting a contact. */
module ContactsController {
  import opened Common
  import J = JobModel
  import C = ContactModel
  import opened Store

  // ---------------------------------------------------------------------------
  // createContact

  /** One job of the body after the new contact is linked: an owned job that does not
      list the contact yet gets it appended; any other job is left alone. */
  function LinkContact(jobs: map<Id, J.Job>, jobId: Id, user: Id, contactId: Id): (r: map<Id, J.Job>)
    ensures r.Keys == jobs.Keys
  {
    if jobId in jobs && jobs[jobId].user == user && contactId !in jobs[jobId].contacts then
      jobs[jobId := jobs[jobId].(contacts := Push(jobs[jobId].contacts, contactId))]
    else jobs
  }

  lemma LinkContactValid(jobs: map<Id, J.Job>, jobId: Id, user: Id, contactId: Id)
    requires JobsValid(jobs)
    ensures JobsValid(LinkContact(jobs, jobId, user, contactId))
  {
    if jobId in jobs && jobs[jobId].user == user && contactId !in jobs[jobId].contacts {
      var j := jobs[jobId];
      JobStaysValid(j, j.(contacts := Push(j.contacts, contactId)));
      StoreJob(jobs, j.(contacts := Push(j.contacts, contactId)));
    }
  }

  /** The listed jobs, linked one after the other, so that each `includes` test sees the
      links made before it: the intended linking, which the model of createContact uses. */
  function LinkContactAll(jobs: map<Id, J.Job>, ids: seq<Id>, user: Id, contactId: Id): (r: map<Id, J.Job>)
    ensures r.Keys == jobs.Keys
    decreases |ids|
  {
    if ids == [] then jobs
    else LinkContact(LinkContactAll(jobs, ids[..|ids| - 1], user, contactId), ids[|ids| - 1], user, contactId)
  }

  /** A job either stays as it was or, when it did not list the contact, gains it once
      at the end of its contacts; it lists the contact afterwards exactly when it did
      before, or it is owned and named in the body. So linking one after the other never
      lists a contact twice, however often the body names the job. */
  lemma {:induction false} LinkContactAllEffect(jobs: map<Id, J.Job>, ids: seq<Id>, user: Id,
                                                contactId: Id, j: Id)
    requires j in jobs
    ensures var r := LinkContactAll(jobs, ids, user, contactId);
      (r[j] == jobs[j]
       || (contactId !in jobs[j].contacts && r[j] == jobs[j].(contacts := jobs[j].contacts + [contactId])))
      && (contactId in r[j].contacts <==>
            contactId in jobs[j].contacts || (jobs[j].user == user && j in ids))
      && (contactId !in jobs[j].contacts ==> Occurrences(r[j].contacts, contactId) <= 1)
    decreases |ids|
  {
    if ids != [] {
      var front := ids[..|ids| - 1];
      LinkContactAllEffect(jobs, front, user, contactId, j);
      var before := LinkContactAll(jobs, front, user, contactId);
      assert ids == front + [ids[|ids| - 1]];
      assert j in ids <==> j in front || j == ids[|ids| - 1];
      OccurrencesPush(jobs[j].contacts, contactId, contactId);
    }
  }

  /** The linking of createContact as `Promise.all` schedules it: every callback loads
      its job before any of them saves, so the `includes` test sees the job as stored
      before the request, and each save appends the contact (`$push`) to the job as
      stored by then. */
  function LinkContactAllAtOnce(jobs: map<Id, J.Job>, ids: seq<Id>, user: Id, contactId: Id): (r: map<Id, J.Job>)
    ensures r.Keys == jobs.Keys
    decreases |ids|
  {
    if ids == [] then jobs
    else
      var before := LinkContactAllAtOnce(jobs, ids[..|ids| - 1], user, contactId);
      var id := ids[|ids| - 1];
      if id in jobs && jobs[id].user == user && contactId !in jobs[id].contacts then
        before[id := before[id].(contacts := Push(before[id].contacts, contactId))]
      else before
  }

  /** Under that schedule an owned job that did not list the contact lists it once per
      time the body names the job; every other job is left alone, and only the contacts
      of a job change. */
  lemma {:induction false} LinkContactAllAtOnceEffect(jobs: map<Id, J.Job>, ids: seq<Id>, user: Id,
                                                      contactId: Id, j: Id)
    requires j in jobs
    ensures var r := LinkContactAllAtOnce(jobs, ids, user, contactId);
      r[j].(contacts := jobs[j].contacts) == jobs[j]
      && (jobs[j].user == user && contactId !in jobs[j].contacts ==>
            Occurrences(r[j].contacts, contactId) == multiset(ids)[j])
      && (jobs[j].user != user || contactId in jobs[j].contacts ==> r[j] == jobs[j])
    decreases |ids|
  {
    if ids != [] {
      var front := ids[..|ids| - 1];
      var id := ids[|ids| - 1];
      LinkContactAllAtOnceEffect(jobs, front, user, contactId, j);
      assert ids == front + [id];
      assert multiset(ids)[j] == multiset(front)[j] + (if id == j then 1 else 0);
      var before := LinkContactAllAtOnce(jobs, front, user, contactId);
      OccurrencesPush(before[j].contacts, contactId, contactId);
    }
  }

  /** A body that names an owned job twice gets the new contact listed twice under
      `Promise.all`, and once when the jobs are linked one after the other. */
  lemma RepeatedJobListedTwice(jobs: map<Id, J.Job>, user: Id, contactId: Id, j: Id)
    requires j in jobs && jobs[j].user == user && contactId !in jobs[j].contacts
    ensures Occurrences(LinkContactAllAtOnce(jobs, [j, j], user, contactId)[j].contacts, contactId) == 2
    ensures Occurrences(LinkContactAll(jobs, [j, j], user, contactId)[j].contacts, contactId) == 1
  {
    LinkContactAllAtOnceEffect(jobs, [j, j], user, contactId, j);
    assert multiset([j, j])[j] == 2;
    LinkContactAllEffect(jobs, [j, j], user, contactId, j);
    OccurrencesPush(jobs[j].contacts, contactId, contactId);
  }

  /** When the body names each job at most once, the two schedules agree. */
  lemma {:induction false} AtOnceWithoutRepeats(jobs: map<Id, J.Job>, ids: seq<Id>, user: Id, contactId: Id)
    requires forall a, b :: 0 <= a < b < |ids| ==> ids[a] != ids[b]
    ensures LinkContactAllAtOnce(jobs, ids, user, contactId) == LinkContactAll(jobs, ids, user, contactId)
    decreases |ids|
  {
    if ids != [] {
      var front := ids[..|ids| - 1];
      var id := ids[|ids| - 1];
      AtOnceWithoutRepeats(jobs, front, user, contactId);
      if id in jobs {
        assert id !in front;
        LinkContactAllEffect(jobs, front, user, contactId, id);
      }
    }
  }

  /** createContact: the body is validated and stored under the new id; then every owned
      job the body lists gets the contact unless it already lists it, the jobs linked one
      after the other. A refused body stores nothing. */
  method CreateContact(db: Db, user: Id, body: C.ContactInput, newId: Id, now: int)
    returns (r: Result<C.Contact>)
    requires db.Valid() && newId !in db.contacts
    modifies db
    ensures db.Valid()
    ensures r == C.CreateContactDocument(body, newId, user, now)
    ensures db.contacts == if r.Ok? then old(db.contacts)[newId := r.value] else old(db.contacts)
    ensures db.jobs == if r.Ok? then LinkContactAll(old(db.jobs), body.jobs, user, newId) else old(db.jobs)
    ensures db.reminders == old(db.reminders) && db.users == old(db.users)
  {
    r := C.CreateContactDocument(body, newId, user, now);
    if r.Err? {
      return;
    }
    StoreContact(db.contacts, r.value);
    db.contacts := db.contacts[newId := r.value];
    LinkJobs(db, body.jobs, user, newId);
  }

  /** The linking loop of createContact. */
  method LinkJobs(db: Db, ids: seq<Id>, user: Id, contactId: Id)
    requires db.Valid()
    modifies db
    ensures db.Valid()
    ensures db.jobs == LinkContactAll(old(db.jobs), ids, user, contactId)
    ensures db.contacts == old(db.contacts) && db.reminders == old(db.reminders) && db.users == old(db.users)
  {
    for i := 0 to |ids|
      invariant JobsValid(db.jobs)
      invariant db.contacts == old(db.contacts) && db.reminders == old(db.reminders) && db.users == old(db.users)
      invariant db.jobs == LinkContactAll(old(db.jobs), ids[..i], user, contactId)
    {
      assert ids[..i + 1][..i] == ids[..i];
      LinkContactValid(db.jobs, ids[i], user, contactId);
      db.jobs := LinkContact(db.jobs, ids[i], user, contactId);
    }
    assert ids[..|ids|] == ids;
  }

  // ---------------------------------------------------------------------------
  // addInteraction

  /** The loaded contact after an interaction: one interaction appended and
      `lastContacted` set to now; None when the type is outside the enumeration (the
      save answers 400). */
  function WithInteraction(c: C.Contact, kind: string, notes: string, now: int): (u: Option<C.Contact>)
    ensures u.Some? <==> kind in C.InteractionTypeNames
    ensures u.Some? ==> (u.value.interactions == c.interactions + [C.Interaction(now, C.ParseInteractionType(kind).value, Some(notes))]
      && u.value.lastContacted == Some(now)
      && u.value.(interactions := c.interactions, lastContacted := c.lastContacted) == c)
  {
    match C.NewInteraction(Some(kind), Some(notes), now)
    case None => None
    case Some(i) => Some(c.(interactions := Push(c.interactions, i), lastContacted := Some(now)))
  }

  /** addInteraction: a missing or empty type or notes is refused with 400 before the
      lookup; then 404, 401 and the save. */
  function AddInteractionResult(contacts: map<Id, C.Contact>, id: Id, user: Id, kind: Option<string>,
                                notes: Option<string>, now: int): (r: Result<C.Contact>)
    ensures !TruthyStr(kind) || !TruthyStr(notes) ==> r == Err(BadRequest)
    ensures TruthyStr(kind) && TruthyStr(notes) && OwnedContact(contacts, id, user).Err? ==>
      r == Err(OwnedContact(contacts, id, user).error)
    ensures r.Ok? ==> (OwnedContact(contacts, id, user).Ok? && kind.value in C.InteractionTypeNames
      && |r.value.interactions| == |contacts[id].interactions| + 1
      && r.value.interactions[..|contacts[id].interactions|] == contacts[id].interactions
      && r.value.lastContacted == Some(now))
    ensures TruthyStr(kind) && TruthyStr(notes) && OwnedContact(contacts, id, user).Ok? ==>
      (r.Ok? <==> kind.value in C.InteractionTypeNames)
  {
    if !TruthyStr(kind) || !TruthyStr(notes) then Err(BadRequest)
    else
      var found := OwnedContact(contacts, id, user);
      if found.Err? then Err(found.error)
      else
        match WithInteraction(found.value, kind.value, notes.value, now)
        case None => Err(BadRequest)
        case Some(u) => Ok(u)
  }

  method AddInteraction(db: Db, id: Id, user: Id, kind: Option<string>, notes: Option<string>, now: int)
    returns (r: Result<C.Contact>)
    requires db.Valid()
    modifies db
    ensures db.Valid()
    ensures r == AddInteractionResult(old(db.contacts), id, user, kind, notes, now)
    ensures db.contacts == if r.Ok? then old(db.contacts)[id := r.value] else old(db.contacts)
    ensures db.jobs == old(db.jobs) && db.reminders == old(db.reminders) && db.users == old(db.users)
  {
    if !TruthyStr(kind) || !TruthyStr(notes) {
      return Err(BadRequest);
    }
    var found := OwnedContact(db.contacts, id, user);
    if found.Err? {
      return Err(found.error);
    }
    var contact := found.value;
    assert C.ValidContact(contact) && contact.id == id;
    var interaction := C.NewInteraction(kind, notes, now);
    if interaction.None? {
      return Err(BadRequest);
    }
    contact := contact.(interactions := Push(contact.interactions, interaction.value));
    contact := contact.(lastContacted := Some(now));
    ContactStaysValid(found.value, contact);
    StoreContact(db.contacts, contact);
    db.contacts := db.contacts[id := contact];
    r := Ok(contact);
  }

  // ---------------------------------------------------------------------------
  // linkContactToJob

  /** The Contact Added entry. */
  function ContactAddedEntry(c: C.Contact, now: int): J.Activity {
    J.Activity(J.ContactAdded, "Contact " + c.name + " (" + C.RoleName(c.role) + ") added to job", now)
  }

  /** The error linkContactToJob answers, in the order it checks: missing contact,
      missing job, either owned by someone else, already linked from the contact's
      side. */
  function LinkError(contacts: map<Id, C.Contact>, jobs: map<Id, J.Job>, id: Id, jobId: Id, user: Id)
    : (e: Option<HttpError>)
    ensures id !in contacts ==> e == Some(NotFound)
    ensures id in contacts && jobId !in jobs ==> e == Some(NotFound)
    ensures id in contacts && jobId in jobs && (contacts[id].user != user || jobs[jobId].user != user)
            ==> e == Some(Unauthorized)
    ensures id in contacts && jobId in jobs && contacts[id].user == user && jobs[jobId].user == user
            ==> (e == Some(BadRequest) <==> jobId in contacts[id].jobs)
    ensures e.None? <==> id in contacts && jobId in jobs && contacts[id].user == user
                         && jobs[jobId].user == user && jobId !in contacts[id].jobs
  {
    if id !in contacts then Some(NotFound)
    else if jobId !in jobs then Some(NotFound)
    else if contacts[id].user != user || jobs[jobId].user != user then Some(Unauthorized)
    else if jobId in contacts[id].jobs then Some(BadRequest)
    else None
  }

  /** linkContactToJob. On success the job is appended to the contact's jobs, the
      contact to the job's contacts, and one Contact Added entry to the job's log; on
      any error nothing changes. */
  method LinkContactToJob(db: Db, id: Id, jobId: Id, user: Id, now: int) returns (r: Result<C.Contact>)
    requires db.Valid()
    modifies db
    ensures db.Valid()
    ensures var e := LinkError(old(db.contacts), old(db.jobs), id, jobId, user);
      (e.Some? ==> r == Err(e.value) && db.contacts == old(db.contacts) && db.jobs == old(db.jobs))
      && (e.None? ==> (
        var c := old(db.contacts)[id];
        var j := old(db.jobs)[jobId];
        r == Ok(c.(jobs := c.jobs + [jobId]))
        && db.contacts == old(db.contacts)[id := r.value]
        && db.jobs == old(db.jobs)[jobId := j.(contacts := j.contacts + [id],
                                                 activities := j.activities + [ContactAddedEntry(c, now)])]))
    ensures db.reminders == old(db.reminders) && db.users == old(db.users)
  {
    if id !in db.contacts {
      return Err(NotFound);
    }
    if jobId !in db.jobs {
      return Err(NotFound);
    }
    var contact := db.contacts[id];
    var job := db.jobs[jobId];
    if contact.user != user || job.user != user {
      return Err(Unauthorized);
    }
    if jobId in contact.jobs {
      return Err(BadRequest);
    }
    assert C.ValidContact(contact) && contact.id == id;
    assert J.ValidJob(job) && job.id == jobId;
    var linked := contact.(jobs := Push(contact.jobs, jobId));
    ContactStaysValid(contact, linked);
    StoreContact(db.contacts, linked);
    db.contacts := db.contacts[id := linked];
    job := job.(contacts := Push(job.contacts, id));
    job := job.(activities := Push(job.activities, ContactAddedEntry(contact, now)));
    JobStaysValid(db.jobs[jobId], job);
    StoreJob(db.jobs, job);
    db.jobs := db.jobs[jobId := job];
    r := Ok(linked);
  }

  /** After a successful link the pair is linked from both sides, and a second request
      for the same pair is refused with 400. */
  lemma LinkTwiceRefused(contacts: map<Id, C.Contact>, jobs: map<Id, J.Job>, id: Id, jobId: Id, user: Id,
                         now: int)
    requires LinkError(contacts, jobs, id, jobId, user).None?
    ensures var c := contacts[id].(jobs := contacts[id].jobs + [jobId]);
      var j := jobs[jobId].(contacts := jobs[jobId].contacts + [id],
                            activities := jobs[jobId].activities + [ContactAddedEntry(contacts[id], now)]);
      LinkError(contacts[id := c], jobs[jobId := j], id, jobId, user) == Some(BadRequest)
      && id in j.contacts
  {
    var c := contacts[id].(jobs := contacts[id].jobs + [jobId]);
    assert c.jobs[|contacts[id].jobs|] == jobId;
  }

  // ---------------------------------------------------------------------------
  // deleteContact

  /** `Job.updateMany({ contacts: id }, { $pull: { contacts: id } })`: no job, whoever
      owns it, lists the contact any more; each keeps its other contacts and every other
      field. */
  function JobsWithoutContact(jobs: map<Id, J.Job>, contactId: Id): (r: map<Id, J.Job>)
    ensures r.Keys == jobs.Keys
    ensures forall j :: j in r ==> contactId !in r[j].contacts
    ensures forall j, y :: j in r && y != contactId ==> (y in r[j].contacts <==> y in jobs[j].contacts)
    ensures forall j :: j in r ==> r[j].(contacts := jobs[j].contacts) == jobs[j]
    ensures forall j :: j in r && contactId !in jobs[j].contacts ==> r[j] == jobs[j]
  {
    map j | j in jobs :: jobs[j].(contacts := Pull(jobs[j].contacts, contactId))
  }

  /** deleteContact: 404 for a missing contact before 401 for a foreign one; then the
      contact is unlinked from every job and removed. Reminders that name the contact
      keep it. */
  method DeleteContact(db: Db, id: Id, user: Id) returns (r: Outcome)
    requires db.Valid()
    modifies db
    ensures db.Valid()
    ensures OwnedContact(old(db.contacts), id, user).Err? ==>
      r == Fail(OwnedContact(old(db.contacts), id, user).error)
      && db.jobs == old(db.jobs) && db.contacts == old(db.contacts)
    ensures OwnedContact(old(db.contacts), id, user).Ok? ==>
      r == Pass && db.contacts == old(db.contacts) - {id}
      && db.jobs == JobsWithoutContact(old(db.jobs), id)
    ensures db.reminders == old(db.reminders) && db.users == old(db.users)
  {
    var found := OwnedContact(db.contacts, id, user);
    if found.Err? {
      return Fail(found.error);
    }
    var unlinked := JobsWithoutContact(db.jobs, id);
    forall j | j in unlinked
      ensures unlinked[j].id == j && J.ValidJob(unlinked[j])
    {
      JobStaysValid(db.jobs[j], unlinked[j]);
    }
    db.jobs := unlinked;
    db.contacts := db.contacts - {id};
    r := Pass;
  }
}
