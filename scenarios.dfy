/**
 * Request sequences run against a freshly started server, with what the replies and
 * the table provably are afterwards.
 */
module Scenarios {
  import opened Wrappers
  import opened Projects
  import opened Server

  /** From the seed, DELETE /api/projects/1 and then a POST: the new record gets id
      2, the id of the record still stored. GET /api/projects/2 then answers with the
      older record only, while DELETE /api/projects/2 removes both. */
  method IdReuseAfterDelete(b: Body) returns (ids: seq<int>, found: Reply<Project>, left: nat)
    ensures ids == [2, 2]
    ensures found == Ok(Seed()[1])
    ensures left == 0
  {
    var s := new PortfolioStore();
    var deleted := s.Delete(Some(1));
    assert s.projects == [Seed()[1]] by {
      assert Seed()[1..] == [Seed()[1]];
      assert RemoveId([Seed()[1]][1..], 1) == [];
    }
    var created := s.Create(b);
    ids := [s.projects[0].id, s.projects[1].id];
    found := s.Get(Some(2));
    assert IsFirstMatch(s.projects, 2, 0);
    var again := s.Delete(Some(2));
    left := |s.projects|;
  }

  /** From the seed, POST /api/projects with a title, a description and one technology:
      201 with id 3 and both default links. */
  method CreateWithDefaults() returns (r: Reply<Project>)
    ensures r.Status() == 201
    ensures r.value.id == 3 && r.value.title == Some("X") && r.value.technologies == Some(["Go"])
    ensures r.value.imageUrl == PlaceholderImage && r.value.liveUrl == NoLiveUrl
  {
    var s := new PortfolioStore();
    r := s.Create(Body(Some("X"), Some("Y"), Some(["Go"]), None, None));
  }

  /** A contact form with an empty email is refused and logs nothing; a complete one is
      logged with the time it was received. */
  method ContactRefusesEmptyField(now: Timestamp) returns (refused: Reply<string>, accepted: Reply<string>, log: seq<Message>)
    ensures refused.Status() == 400 && accepted.Status() == 201
    ensures log == [Message("Ada", "ada@example.com", "Hello", now)]
  {
    var s := new PortfolioStore();
    refused := s.Contact(Some("Ada"), Some(""), Some("Hello"), now);
    accepted := s.Contact(Some("Ada"), Some("ada@example.com"), Some("Hello"), now);
    log := s.messages;
  }
}
