/**
 * Properties of the lookups and record builders of module Projects that the handlers
 * rely on or that show how the store behaves: filtering keeps order, a deleted id is
 * gone while the others stay retrievable, an update is found where it was made, an
 * empty request changes nothing, and length-based ids collide after a delete.
 */
module ProjectFacts {
  import opened Wrappers
  import opened Projects

  /** Filtering distributes over concatenation, so it keeps the relative order of the
      records it keeps. */
  lemma {:induction false} RemoveIdConcat(a: seq<Project>, b: seq<Project>, id: int)
    ensures RemoveId(a + b, id) == RemoveId(a, id) + RemoveId(b, id)
  {
    if a == [] {
      assert a + b == b;
    } else {
      assert (a + b)[0] == a[0];
      assert (a + b)[1..] == a[1..] + b;
      RemoveIdConcat(a[1..], b, id);
    }
  }

  /** Filtering an id no record has gives the sequence back unchanged. */
  lemma {:induction false} RemoveIdAbsent(ps: seq<Project>, id: int)
    requires forall i :: 0 <= i < |ps| ==> ps[i].id != id
    ensures RemoveId(ps, id) == ps
  {
    if ps != [] {
      RemoveIdAbsent(ps[1..], id);
    }
  }

  /** Filtering a single record keeps it exactly when its id differs. */
  lemma RemoveIdSingle(p: Project, id: int)
    ensures RemoveId([p], id) == if p.id == id then [] else [p]
  {
    assert [p][1..] == [];
  }

  /** `find` on a table with a given first record. */
  lemma FindRecordCons(p: Project, qs: seq<Project>, id: int)
    ensures FindRecord([p] + qs, id) == if p.id == id then Some(p) else FindRecord(qs, id)
  {
    assert ([p] + qs)[0] == p;
    assert ([p] + qs)[1..] == qs;
  }

  /** After a delete, the deleted id is not found. */
  lemma FindAfterRemoveGone(ps: seq<Project>, gone: int)
    ensures FindIndex(RemoveId(ps, gone), gone) == None
  {
  }

  /** After a delete, every other id finds the same record it found before. */
  lemma {:induction false} FindAfterRemoveOther(ps: seq<Project>, gone: int, id: int)
    requires id != gone
    ensures FindRecord(RemoveId(ps, gone), id) == FindRecord(ps, id)
  {
    if ps != [] {
      var rest := RemoveId(ps[1..], gone);
      FindAfterRemoveOther(ps[1..], gone, id);
      assert ps == [ps[0]] + ps[1..];
      FindRecordCons(ps[0], ps[1..], id);
      if ps[0].id != gone {
        assert RemoveId(ps, gone) == [ps[0]] + rest;
        FindRecordCons(ps[0], rest, id);
      } else {
        assert RemoveId(ps, gone) == rest;
      }
    }
  }

  /** An update made at the first match is found again at the same place. */
  lemma FindAfterUpdate(ps: seq<Project>, id: int, k: nat, b: Body)
    requires IsFirstMatch(ps, id, k)
    ensures FindIndex(ps[k := Merge(ps[k], b)], id) == Some(k)
    ensures FindRecord(ps[k := Merge(ps[k], b)], id) == Some(Merge(ps[k], b))
  {
    var qs := ps[k := Merge(ps[k], b)];
    assert IsFirstMatch(qs, id, k);
  }

  /** An update request with no fields leaves the record as it was. */
  lemma MergeEmptyBody(p: Project)
    ensures Merge(p, EmptyBody) == p
  {
  }

  /** Sending the same update twice has the effect of sending it once. */
  lemma MergeIdempotent(p: Project, b: Body)
    ensures Merge(Merge(p, b), b) == Merge(p, b)
  {
  }

  /** Update cannot clear a text field: a non-empty value stays non-empty. An array
      field, on the other hand, is replaced by any array sent, the empty one too. */
  lemma MergeCannotClear(p: Project, b: Body)
    ensures TruthyText(p.title) ==> TruthyText(Merge(p, b).title)
    ensures TruthyText(p.description) ==> TruthyText(Merge(p, b).description)
    ensures Merge(p, b.(technologies := Some([]))).technologies == Some([])
    ensures WellFormed(p) ==> WellFormed(Merge(p, b))
  {
  }

  /** Updating a well-formed table at one index keeps it well-formed. */
  lemma UpdatePreservesWellFormed(ps: seq<Project>, k: nat, b: Body)
    requires k < |ps| && AllWellFormed(ps)
    ensures AllWellFormed(ps[k := Merge(ps[k], b)])
  {
    assert WellFormed(Merge(ps[k], b));
  }

  /** While no record was ever deleted the ids are 1..n, and the id create assigns,
      n + 1, is new. */
  lemma NewIdFreshWithoutDeletes(ps: seq<Project>)
    requires forall i :: 0 <= i < |ps| ==> ps[i].id == i + 1
    ensures FindIndex(ps, |ps| + 1) == None
  {
  }

  /** Filtering an id that exactly one record has removes exactly that record. */
  lemma {:induction false} RemoveIdOneMatch(ps: seq<Project>, id: int, k: nat)
    requires IsFirstMatch(ps, id, k)
    requires forall j :: k < j < |ps| ==> ps[j].id != id
    ensures |RemoveId(ps, id)| == |ps| - 1
  {
    if k == 0 {
      RemoveIdAbsent(ps[1..], id);
    } else {
      RemoveIdOneMatch(ps[1..], id, k - 1);
    }
  }

  /** Once any record but the last is deleted from ids 1..n, the id create assigns next,
      n, is the id of a record still in the table. */
  lemma NewIdCollidesAfterDelete(ps: seq<Project>, gone: int)
    requires forall i :: 0 <= i < |ps| ==> ps[i].id == i + 1
    requires 1 <= gone < |ps|
    ensures |RemoveId(ps, gone)| == |ps| - 1
    ensures FindIndex(RemoveId(ps, gone), |RemoveId(ps, gone)| + 1).Some?
  {
    RemoveIdOneMatch(ps, gone, gone - 1);
    var rest := RemoveId(ps, gone);
    var last := ps[|ps| - 1];
    assert last.id != gone;
    assert last in rest;
    var i :| 0 <= i < |rest| && rest[i] == last;
    assert rest[i].id == |rest| + 1;
  }
}
