/**
 * Project records and the pure operations the route handlers of index.js build on:
 * JavaScript truthiness of request fields, `Array.prototype.find`/`findIndex` by id,
 * `filter` by id, the record built by create and the field merge done by update.
 */
module Projects {
  import opened Wrappers

  /** A stored project. Create copies title, description and technologies from the
      request body as given, so they may be absent; the two links are always set. */
  datatype Project = Project(
    id: int,
    title: Option<string>,
    description: Option<string>,
    technologies: Option<seq<string>>,
    imageUrl: string,
    liveUrl: string)

  /** The fields of a create or update request body that the handlers read. */
  datatype Body = Body(
    title: Option<string>,
    description: Option<string>,
    technologies: Option<seq<string>>,
    imageUrl: Option<string>,
    liveUrl: Option<string>)

  const PlaceholderImage: string := "https://via.placeholder.com/400x225"
  const NoLiveUrl: string := "#"

  /** The request body with no fields at all. */
  const EmptyBody: Body := Body(None, None, None, None, None)

  /** JavaScript truthiness of a string field: absent and "" are falsy. */
  predicate TruthyText(s: Option<string>) {
    s.Some? && s.value != ""
  }

  /** JavaScript truthiness of an array field: every array, even [], is truthy. */
  predicate TruthyList(s: Option<seq<string>>) {
    s.Some?
  }

  /** `a || b` for string-valued operands. */
  function OrText(a: Option<string>, b: Option<string>): (r: Option<string>)
    ensures TruthyText(a) ==> r == a
    ensures !TruthyText(a) ==> r == b
    ensures TruthyText(r) <==> TruthyText(a) || TruthyText(b)
  {
    if TruthyText(a) then a else b
  }

  /** `a || b` for array-valued operands. */
  function OrList(a: Option<seq<string>>, b: Option<seq<string>>): (r: Option<seq<string>>)
    ensures a.Some? ==> r == a
    ensures a.None? ==> r == b
    ensures TruthyList(r) <==> TruthyList(a) || TruthyList(b)
  {
    if TruthyList(a) then a else b
  }

  /** `a || fallback` where the fallback is a non-empty string: the result is never empty. */
  function OrDefault(a: Option<string>, fallback: string): (r: string)
    requires fallback != ""
    ensures r != ""
    ensures TruthyText(a) ==> r == a.value
    ensures !TruthyText(a) ==> r == fallback
  {
    if TruthyText(a) then a.value else fallback
  }

  /** What every stored record satisfies: a positive id and two non-empty links. */
  predicate WellFormed(p: Project) {
    p.id >= 1 && p.imageUrl != "" && p.liveUrl != ""
  }

  predicate AllWellFormed(ps: seq<Project>) {
    forall i :: 0 <= i < |ps| ==> WellFormed(ps[i])
  }

  /** `k` is the index `findIndex(p => p.id === id)` returns. */
  ghost predicate IsFirstMatch(ps: seq<Project>, id: int, k: int) {
    0 <= k < |ps| && ps[k].id == id && forall j :: 0 <= j < k ==> ps[j].id != id
  }

  /** `findIndex(p => p.id === id)`, with None for JavaScript's -1. */
  function FindIndex(ps: seq<Project>, id: int): (r: Option<nat>)
    ensures r.Some? ==> IsFirstMatch(ps, id, r.value)
    ensures r.None? <==> forall j :: 0 <= j < |ps| ==> ps[j].id != id
  {
    if ps == [] then None
    else if ps[0].id == id then Some(0)
    else match FindIndex(ps[1..], id)
      case None => None
      case Some(k) => Some(k + 1)
  }

  /** The record `find(p => p.id === id)` returns. */
  function FindRecord(ps: seq<Project>, id: int): (r: Option<Project>)
    ensures r.Some? <==> exists k :: IsFirstMatch(ps, id, k)
    ensures r.Some? ==> r.value in ps && r.value.id == id
    ensures r.Some? ==> exists k :: IsFirstMatch(ps, id, k) && r.value == ps[k]
  {
    match FindIndex(ps, id)
    case None => None
    case Some(k) => Some(ps[k])
  }

  /** The same search against a parsed path id; None (NaN) equals no id. */
  function Locate(ps: seq<Project>, id: Option<int>): (r: Option<nat>)
    ensures r.Some? ==> id.Some? && IsFirstMatch(ps, id.value, r.value)
    ensures r.None? <==> id.None? || forall j :: 0 <= j < |ps| ==> ps[j].id != id.value
  {
    if id.None? then None else FindIndex(ps, id.value)
  }

  /** `ps.filter(p => p.id !== id)`: every record with another id, in order. The
      contract says which records are kept; ProjectFacts.RemoveIdConcat and
      ProjectFacts.RemoveIdSingle give their order. */
  function RemoveId(ps: seq<Project>, id: int): (r: seq<Project>)
    ensures |r| <= |ps|
    ensures forall i :: 0 <= i < |r| ==> r[i].id != id && r[i] in ps
    ensures forall i :: 0 <= i < |ps| && ps[i].id != id ==> ps[i] in r
  {
    if ps == [] then []
    else if ps[0].id == id then RemoveId(ps[1..], id)
    else [ps[0]] + RemoveId(ps[1..], id)
  }

  /** The record create appends, given the id it assigns. */
  function NewProject(id: int, b: Body): (r: Project)
    ensures r.id == id
    ensures r.title == b.title && r.description == b.description
    ensures r.technologies == b.technologies
    ensures r.imageUrl == (if TruthyText(b.imageUrl) then b.imageUrl.value else PlaceholderImage)
    ensures r.liveUrl == (if TruthyText(b.liveUrl) then b.liveUrl.value else NoLiveUrl)
    ensures id >= 1 ==> WellFormed(r)
  {
    Project(id, b.title, b.description, b.technologies,
            OrDefault(b.imageUrl, PlaceholderImage), OrDefault(b.liveUrl, NoLiveUrl))
  }

  /** The record update leaves behind: each field is `body.field || project.field`. */
  function Merge(p: Project, b: Body): (r: Project)
    ensures r.id == p.id
    ensures r.title == (if TruthyText(b.title) then b.title else p.title)
    ensures r.description == (if TruthyText(b.description) then b.description else p.description)
    ensures r.technologies == (if b.technologies.Some? then b.technologies else p.technologies)
    ensures r.imageUrl == (if TruthyText(b.imageUrl) then b.imageUrl.value else p.imageUrl)
    ensures r.liveUrl == (if TruthyText(b.liveUrl) then b.liveUrl.value else p.liveUrl)
  {
    p.(title := OrText(b.title, p.title),
       description := OrText(b.description, p.description),
       technologies := OrList(b.technologies, p.technologies),
       imageUrl := if TruthyText(b.imageUrl) then b.imageUrl.value else p.imageUrl,
       liveUrl := if TruthyText(b.liveUrl) then b.liveUrl.value else p.liveUrl)
  }

  /** The first seed record. */
  function ShopProject(): (p: Project)
    ensures p.id == 1 && WellFormed(p)
  {
    Project(1, Some("E-commerce Website"),
            Some("A full-featured online store with cart functionality"),
            Some(["React", "Node.js", "MongoDB"]),
            "https://img.freepik.com/vektor-premium/desain-logo-e-commerce_624194-152.jpg?w=740",
            "https://example.com")
  }

  /** The second seed record. */
  function TaskProject(): (p: Project)
    ensures p.id == 2 && WellFormed(p)
  {
    Project(2, Some("Task Management App"),
            Some("Kanban-style task organizer with drag-and-drop"),
            Some(["Vue.js", "Firebase"]),
            "https://d1csarkz8obe9u.cloudfront.net/posterpreviews/e-commerce-logo-design-template_screen.jpg",
            "https://example.com")
  }

  /** The two records index.js starts with. */
  function Seed(): (r: seq<Project>)
    ensures |r| == 2 && r[0].id == 1 && r[1].id == 2
    ensures AllWellFormed(r)
  {
    [ShopProject(), TaskProject()]
  }
}
