/**
 * The server's in-memory state, the `projects` table and the `messages` log of index.js,
 * with one method per route handler. Each method states the reply it sends and the
 * whole new state; the object invariant Valid() is what every handler keeps.
 */
module Server {
  import opened Wrappers
  import opened Projects
  import ProjectFacts

  /** Milliseconds since the epoch, as `new Date()` would stamp it. */
  type Timestamp = int

  /** A contact submission as it is logged. */
  datatype Message = Message(name: string, email: string, message: string, date: Timestamp)

  /** The status and JSON body a handler sends. */
  datatype Reply<T> = Ok(value: T) | Created(value: T) | NotFound(message: string) | BadRequest(message: string)
  {
    function Status(): nat {
      match this
      case Ok(_) => 200
      case Created(_) => 201
      case NotFound(_) => 404
      case BadRequest(_) => 400
    }
  }

  const NotFoundText: string := "Project not found"
  const DeletedText: string := "Project deleted"
  const MissingFieldsText: string := "All fields are required"
  const ReceivedText: string := "Message received successfully"

  /** The contact handler stores only submissions whose three fields are all non-empty. */
  predicate Complete(m: Message) {
    m.name != "" && m.email != "" && m.message != ""
  }

  class PortfolioStore {
    var projects: seq<Project>
    var messages: seq<Message>

    ghost predicate Valid()
      reads this
    {
      AllWellFormed(projects) && forall i :: 0 <= i < |messages| ==> Complete(messages[i])
    }

    /** The state at start-up: the two seed projects and no messages. */
    constructor ()
      ensures Valid()
      ensures projects == Seed() && messages == []
    {
      projects := Seed();
      messages := [];
    }

    /** GET /api/projects: 200 with the table as stored, in insertion order. */
    method List() returns (r: Reply<seq<Project>>)
      requires Valid()
      ensures r == Ok(projects)
      ensures AllWellFormed(r.value)
    {
      r := Ok(projects);
    }

    /** GET /api/projects/:id: the record `find` gives for the parsed id, or 404. */
    method Get(id: Option<int>) returns (r: Reply<Project>)
      requires Valid()
      ensures r.Ok? || r.NotFound?
      ensures r.Ok? ==> WellFormed(r.value)
      ensures r.NotFound? <==> id.None? || forall j :: 0 <= j < |projects| ==> projects[j].id != id.value
      ensures r.NotFound? ==> r.message == NotFoundText
      ensures r.Ok? ==> id.Some? && exists k :: IsFirstMatch(projects, id.value, k) && r.value == projects[k]
      ensures id.Some? && FindRecord(projects, id.value).Some? ==> r == Ok(FindRecord(projects, id.value).value)
    {
      if id.None? {
        r := NotFound(NotFoundText);
      } else {
        match FindRecord(projects, id.value)
        case None =>
          r := NotFound(NotFoundText);
        case Some(p) =>
          assert p in projects;
          r := Ok(p);
      }
    }

    /** POST /api/projects: append a record with id `projects.length + 1`. */
    method Create(b: Body) returns (r: Reply<Project>)
      requires Valid()
      modifies this
      ensures Valid()
      ensures r == Created(NewProject(|old(projects)| + 1, b))
      ensures projects == old(projects) + [r.value]
      ensures messages == old(messages)
    {
      var p := NewProject(|projects| + 1, b);
      projects := projects + [p];
      r := Created(p);
    }

    /** PUT /api/projects/:id: merge the body into the first record with the id. */
    method Update(id: Option<int>, b: Body) returns (r: Reply<Project>)
      requires Valid()
      modifies this
      ensures Valid()
      ensures messages == old(messages)
      ensures Locate(old(projects), id).None? ==>
                r == NotFound(NotFoundText) && projects == old(projects)
      ensures Locate(old(projects), id).Some? ==>
                var k := Locate(old(projects), id).value;
                r == Ok(Merge(old(projects)[k], b)) &&
                projects == old(projects)[k := r.value]
    {
      match Locate(projects, id)
      case None =>
        r := NotFound(NotFoundText);
      case Some(k) =>
        ProjectFacts.UpdatePreservesWellFormed(projects, k, b);
        var p := Merge(projects[k], b);
        projects := projects[k := p];
        r := Ok(p);
    }

    /** DELETE /api/projects/:id: 404 unless some record has the id; then drop every
        record with it. */
    method Delete(id: Option<int>) returns (r: Reply<string>)
      requires Valid()
      modifies this
      ensures Valid()
      ensures messages == old(messages)
      ensures Locate(old(projects), id).None? ==>
                r == NotFound(NotFoundText) && projects == old(projects)
      ensures Locate(old(projects), id).Some? ==>
                r == Ok(DeletedText) && projects == RemoveId(old(projects), id.value)
    {
      if Locate(projects, id).None? {
        r := NotFound(NotFoundText);
      } else {
        projects := RemoveId(projects, id.value);
        r := Ok(DeletedText);
      }
    }

    /** POST /api/contact: 400 when a field is missing or empty, otherwise log the
        submission with the given time and answer 201. */
    method Contact(name: Option<string>, email: Option<string>, message: Option<string>, now: Timestamp)
      returns (r: Reply<string>)
      requires Valid()
      modifies this
      ensures Valid()
      ensures projects == old(projects)
      ensures !(TruthyText(name) && TruthyText(email) && TruthyText(message)) ==>
                r == BadRequest(MissingFieldsText) && messages == old(messages)
      ensures TruthyText(name) && TruthyText(email) && TruthyText(message) ==>
                r == Created(ReceivedText) &&
                messages == old(messages) + [Message(name.value, email.value, message.value, now)]
    {
      if !TruthyText(name) || !TruthyText(email) || !TruthyText(message) {
        r := BadRequest(MissingFieldsText);
      } else {
        messages := messages + [Message(name.value, email.value, message.value, now)];
        r := Created(ReceivedText);
      }
    }
  }
}
