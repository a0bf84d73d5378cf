/** The database the controllers work on, with Mongoose replaced by in-memory
    collections: one map per model from document id to document. Loading a document
    reads a value, and `save()` or `findByIdAndUpdate` writes one back. */
module Store {
  import opened Common
  import J = JobModel
  import C = ContactModel
  import R = ReminderModel

  /** The fields of a user the reminder e-mails need. */
  datatype User = User(id: Id, name: string, email: string)

  class Db {
    var jobs: map<Id, J.Job>
    var contacts: map<Id, C.Contact>
    var reminders: map<Id, R.Reminder>
    var users: map<Id, User>

    /** Every document is stored under its own id and passed its schema's validators. */
    predicate Valid()
      reads this
    {
      JobsValid(jobs) && ContactsValid(contacts) && RemindersValid(reminders)
    }

    constructor ()
      ensures Valid()
      ensures jobs == map[] && contacts == map[] && reminders == map[] && users == map[]
    {
      jobs, contacts, reminders, users := map[], map[], map[], map[];
    }
  }

  predicate JobsValid(jobs: map<Id, J.Job>) {
    forall id :: id in jobs ==> jobs[id].id == id && J.ValidJob(jobs[id])
  }

  predicate ContactsValid(contacts: map<Id, C.Contact>) {
    forall id :: id in contacts ==> contacts[id].id == id && C.ValidContact(contacts[id])
  }

  predicate RemindersValid(reminders: map<Id, R.Reminder>) {
    forall id :: id in reminders ==> reminders[id].id == id && R.ValidReminder(reminders[id])
  }

  /** Storing a valid document under its own id keeps a collection valid. */
  lemma StoreJob(jobs: map<Id, J.Job>, j: J.Job)
    requires JobsValid(jobs) && J.ValidJob(j)
    ensures JobsValid(jobs[j.id := j])
  {
  }

  lemma StoreContact(contacts: map<Id, C.Contact>, c: C.Contact)
    requires ContactsValid(contacts) && C.ValidContact(c)
    ensures ContactsValid(contacts[c.id := c])
  {
  }

  lemma StoreReminder(reminders: map<Id, R.Reminder>, r: R.Reminder)
    requires RemindersValid(reminders) && R.ValidReminder(r)
    ensures RemindersValid(reminders[r.id := r])
  {
  }

  /** The job validators look only at these fields, so a change elsewhere keeps a job
      valid. */
  lemma JobStaysValid(j: J.Job, u: J.Job)
    requires u.company == j.company && u.title == j.title && u.jobPostingLink == j.jobPostingLink
    requires u.salary == j.salary && u.location == j.location && u.interviews == j.interviews
    ensures J.ValidJob(u) <==> J.ValidJob(j)
  {
  }

  /** The same for the contact validators. */
  lemma ContactStaysValid(c: C.Contact, u: C.Contact)
    requires C.ValidContact(c)
    requires u.name == c.name && u.company == c.company && u.email == c.email
    ensures C.ValidContact(u)
  {
  }

  /** `Job.findById(id)` and the ownership check: a missing job is 404 before a foreign
      one is 401. */
  function OwnedJob(jobs: map<Id, J.Job>, id: Id, user: Id): (r: Result<J.Job>)
    ensures r.Ok? <==> id in jobs && jobs[id].user == user
    ensures r.Ok? ==> r.value == jobs[id]
    ensures r.Err? ==> (r.error == NotFound <==> id !in jobs)
    ensures r.Err? ==> r.error in {NotFound, Unauthorized}
  {
    if id !in jobs then Err(NotFound)
    else if jobs[id].user != user then Err(Unauthorized)
    else Ok(jobs[id])
  }

  /** The same checks for a contact. */
  function OwnedContact(contacts: map<Id, C.Contact>, id: Id, user: Id): (r: Result<C.Contact>)
    ensures r.Ok? <==> id in contacts && contacts[id].user == user
    ensures r.Ok? ==> r.value == contacts[id]
    ensures r.Err? ==> (r.error == NotFound <==> id !in contacts)
    ensures r.Err? ==> r.error in {NotFound, Unauthorized}
  {
    if id !in contacts then Err(NotFound)
    else if contacts[id].user != user then Err(Unauthorized)
    else Ok(contacts[id])
  }

  /** The same checks for a reminder. */
  function OwnedReminder(reminders: map<Id, R.Reminder>, id: Id, user: Id): (r: Result<R.Reminder>)
    ensures r.Ok? <==> id in reminders && reminders[id].user == user
    ensures r.Ok? ==> r.value == reminders[id]
    ensures r.Err? ==> (r.error == NotFound <==> id !in reminders)
    ensures r.Err? ==> r.error in {NotFound, Unauthorized}
  {
    if id !in reminders then Err(NotFound)
    else if reminders[id].user != user then Err(Unauthorized)
    else Ok(reminders[id])
  }

  /** `list.push(x)` on a document's array. */
  function Push<T>(list: seq<T>, x: T): (r: seq<T>)
    ensures |r| == |list| + 1 && r[..|list|] == list && r[|list|] == x
  {
    list + [x]
  }

  /** The number of times `x` occurs in `list`. */
  function Occurrences(list: seq<Id>, x: Id): (n: nat)
    ensures n == 0 <==> x !in list
    ensures n <= |list|
  {
    if list == [] then 0 else (if list[0] == x then 1 else 0) + Occurrences(list[1..], x)
  }

  lemma {:induction false} OccurrencesPush(list: seq<Id>, y: Id, x: Id)
    ensures Occurrences(Push(list, y), x) == Occurrences(list, x) + (if y == x then 1 else 0)
    decreases |list|
  {
    if list != [] {
      assert Push(list, y)[1..] == Push(list[1..], y);
      OccurrencesPush(list[1..], y, x);
    } else {
      assert Push(list, y) == [y];
    }
  }

  /** `$pull` on a document's id array: every occurrence of `x` removed, the other ids
      kept in order. */
  function Pull(list: seq<Id>, x: Id): (r: seq<Id>)
    ensures forall y :: y in r <==> y in list && y != x
    ensures x !in list ==> r == list
  {
    if list == [] then []
    else (if list[0] == x then [] else [list[0]]) + Pull(list[1..], x)
  }

  /** Pulling `x` keeps every other id as often as it occurred. */
  lemma {:induction false} PullKeepsOthers(list: seq<Id>, x: Id, y: Id)
    requires y != x
    ensures Occurrences(Pull(list, x), y) == Occurrences(list, y)
    decreases |list|
  {
    if list != [] {
      PullKeepsOthers(list[1..], x, y);
      var head := if list[0] == x then [] else [list[0]];
      OccurrencesAppend(head, Pull(list[1..], x), y);
    }
  }

  lemma {:induction false} OccurrencesAppend(a: seq<Id>, b: seq<Id>, x: Id)
    ensures Occurrences(a + b, x) == Occurrences(a, x) + Occurrences(b, x)
    decreases |a|
  {
    if a != [] {
      assert (a + b)[1..] == a[1..] + b;
      OccurrencesAppend(a[1..], b, x);
    } else {
      assert a + b == b;
    }
  }
}
