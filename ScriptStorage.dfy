/**
 * The script library's list operations: reading the stored list, upserting a
 * script by id and deleting by id. Both list operations return a new list and
 * leave their argument alone; the write of the result to browser storage is
 * not part of this model, and the clock is a parameter.
 */
module ScriptStorage {
  import opened Types

  /** Some entry of `scripts` has this id. */
  predicate HasId(scripts: seq<Script>, id: string)
  {
    exists k :: 0 <= k < |scripts| && scripts[k].id == id
  }

  /** No two entries share an id. */
  predicate UniqueIds(scripts: seq<Script>)
  {
    forall j, k :: 0 <= j < k < |scripts| ==> scripts[j].id != scripts[k].id
  }

  /** What reading the storage key gave back. */
  datatype StoredValue =
    | Absent                                              // no value under the key
    | ReadFailed                                          // the storage read threw
    | Stored(raw: string, decoded: Option<seq<Script>>)   // `None`: the JSON did not parse

  /**
   * The stored library. A missing or empty value, a failed read and a value that
   * does not parse all give the empty list; only a parsed value gives scripts.
   */
  function LoadScripts(v: StoredValue): (scripts: seq<Script>)
    ensures v.Absent? || v.ReadFailed? ==> scripts == []
    ensures v.Stored? && v.decoded.None? ==> scripts == []
    ensures scripts != [] ==> v.Stored? && v.raw != [] && v.decoded == Some(scripts)
    ensures v.Stored? && v.raw != [] && v.decoded.Some? ==> scripts == v.decoded.value
  {
    match v
    case Absent => []
    case ReadFailed => []
    case Stored(raw, decoded) =>
      if raw == [] then []
      else match decoded
        case None => []
        case Some(list) => list
  }

  /** `findIndex` by id: the first position holding `id`, or -1. */
  function FindIndex(scripts: seq<Script>, id: string): (i: int)
    ensures -1 <= i < |scripts|
    ensures i == -1 <==> !HasId(scripts, id)
    ensures i >= 0 ==> scripts[i].id == id && forall j :: 0 <= j < i ==> scripts[j].id != id
  {
    if scripts == [] then -1
    else if scripts[0].id == id then 0
    else
      var j := FindIndex(scripts[1..], id);
      if j == -1 then
        assert forall k :: 1 <= k < |scripts| ==> scripts[k] == scripts[1..][k - 1];
        -1
      else
        j + 1
  }

  /**
   * `addOrUpdateScript`: the first entry with the new script's id is replaced,
   * or the script is appended when no entry has it; either way the stored copy
   * carries `lastModified == now`. All other entries stay where they were.
   */
  function AddOrUpdateScript(scripts: seq<Script>, s: Script, now: int): (r: seq<Script>)
    ensures HasId(scripts, s.id) ==>
      var i := FindIndex(scripts, s.id);
      && |r| == |scripts|
      && r[i] == s.(lastModified := now)
      && forall j :: 0 <= j < |r| && j != i ==> r[j] == scripts[j]
    ensures !HasId(scripts, s.id) ==> r == scripts + [s.(lastModified := now)]
    ensures HasId(r, s.id)
  {
    var i := FindIndex(scripts, s.id);
    var stamped := s.(lastModified := now);
    if i > -1 then
      scripts[i := stamped]
    else
      assert (scripts + [stamped])[|scripts|].id == s.id;
      scripts + [stamped]
  }

  /** `deleteScript`: the entries whose id differs from `id`, in their original order. */
  function DeleteScript(scripts: seq<Script>, id: string): (r: seq<Script>)
    ensures |r| <= |scripts|
    ensures forall x :: x in r <==> x in scripts && x.id != id
    ensures !HasId(r, id)
  {
    if scripts == [] then []
    else if scripts[0].id == id then DeleteScript(scripts[1..], id)
    else [scripts[0]] + DeleteScript(scripts[1..], id)
  }

  /** Deleting distributes over concatenation, so the kept entries keep their order. */
  lemma {:induction false} DeleteConcat(a: seq<Script>, b: seq<Script>, id: string)
    ensures DeleteScript(a + b, id) == DeleteScript(a, id) + DeleteScript(b, id)
  {
    if a != [] {
      assert (a + b)[1..] == a[1..] + b;
      DeleteConcat(a[1..], b, id);
    } else {
      assert a + b == b;
    }
  }

  /** Deleting an id that no entry has returns the list unchanged. */
  lemma {:induction false} DeleteAbsent(scripts: seq<Script>, id: string)
    requires !HasId(scripts, id)
    ensures DeleteScript(scripts, id) == scripts
  {
    if scripts != [] {
      assert scripts[0].id != id;
      assert !HasId(scripts[1..], id) by {
        forall k | 0 <= k < |scripts| - 1
          ensures scripts[1..][k].id != id
        {
          assert scripts[1..][k] == scripts[k + 1];
        }
      }
      DeleteAbsent(scripts[1..], id);
      assert scripts == [scripts[0]] + scripts[1..];
    }
  }

  lemma DeleteIdempotent(scripts: seq<Script>, id: string)
    ensures DeleteScript(DeleteScript(scripts, id), id) == DeleteScript(scripts, id)
  {
    DeleteAbsent(DeleteScript(scripts, id), id);
  }

  /** Every entry of a list that has the id is dropped by the delete. */
  lemma {:induction false} DeleteAllWithId(scripts: seq<Script>, id: string)
    requires forall k :: 0 <= k < |scripts| ==> scripts[k].id == id
    ensures DeleteScript(scripts, id) == []
  {
    if scripts != [] {
      DeleteAllWithId(scripts[1..], id);
    }
  }

  /** Deleting the id of a script just upserted gives what deleting it before would. */
  lemma DeleteAfterUpsert(scripts: seq<Script>, s: Script, now: int)
    ensures DeleteScript(AddOrUpdateScript(scripts, s, now), s.id) == DeleteScript(scripts, s.id)
  {
    var stamped := s.(lastModified := now);
    var r := AddOrUpdateScript(scripts, s, now);
    if HasId(scripts, s.id) {
      var i := FindIndex(scripts, s.id);
      assert r == scripts[..i] + [stamped] + scripts[i + 1..];
      assert scripts == scripts[..i] + [scripts[i]] + scripts[i + 1..];
      DeleteConcat(scripts[..i] + [stamped], scripts[i + 1..], s.id);
      DeleteConcat(scripts[..i], [stamped], s.id);
      DeleteConcat(scripts[..i] + [scripts[i]], scripts[i + 1..], s.id);
      DeleteConcat(scripts[..i], [scripts[i]], s.id);
      DeleteAllWithId([stamped], s.id);
      DeleteAllWithId([scripts[i]], s.id);
    } else {
      DeleteConcat(scripts, [stamped], s.id);
      DeleteAllWithId([stamped], s.id);
    }
  }

  /** Upserting the same script twice at the same time is the same as once. */
  lemma UpsertIdempotent(scripts: seq<Script>, s: Script, now: int)
    ensures AddOrUpdateScript(AddOrUpdateScript(scripts, s, now), s, now)
         == AddOrUpdateScript(scripts, s, now)
  {
    var r := AddOrUpdateScript(scripts, s, now);
    var i := FindIndex(scripts, s.id);
    if HasId(scripts, s.id) {
      FindIndexAgrees(scripts, r, s.id, i);
    } else {
      FindIndexAgrees(scripts + [s.(lastModified := now)], r, s.id, |scripts|);
    }
  }

  /** Two lists that agree up to the first occurrence of `id` locate it at the same index. */
  lemma FindIndexAgrees(a: seq<Script>, b: seq<Script>, id: string, i: int)
    requires 0 <= i < |a| && |a| == |b|
    requires a[i].id == id && b[i].id == id
    requires forall j :: 0 <= j < i ==> a[j].id != id && b[j] == a[j]
    ensures FindIndex(b, id) == i
  {
    assert HasId(b, id);
  }

  /** The upsert keeps ids unique, and its ids are the old ids plus the new one. */
  lemma UpsertKeepsIdsUnique(scripts: seq<Script>, s: Script, now: int)
    requires UniqueIds(scripts)
    ensures var r := AddOrUpdateScript(scripts, s, now);
      && UniqueIds(r)
      && (forall id :: HasId(r, id) <==> HasId(scripts, id) || id == s.id)
  {
    var r := AddOrUpdateScript(scripts, s, now);
    if HasId(scripts, s.id) {
      var i := FindIndex(scripts, s.id);
      forall id | HasId(r, id)
        ensures HasId(scripts, id) || id == s.id
      {
        var k :| 0 <= k < |r| && r[k].id == id;
        if k != i {
          assert scripts[k].id == id;
        }
      }
      forall id | HasId(scripts, id)
        ensures HasId(r, id)
      {
        var k :| 0 <= k < |scripts| && scripts[k].id == id;
        if k != i {
          assert r[k].id == id;
        } else {
          assert r[i].id == id;
        }
      }
    } else {
      forall id | HasId(r, id)
        ensures HasId(scripts, id) || id == s.id
      {
        var k :| 0 <= k < |r| && r[k].id == id;
        if k < |scripts| {
          assert scripts[k].id == id;
        }
      }
      forall id | HasId(scripts, id)
        ensures HasId(r, id)
      {
        var k :| 0 <= k < |scripts| && scripts[k].id == id;
        assert r[k].id == id;
      }
    }
  }

  /** The delete keeps ids unique. */
  lemma DeleteKeepsIdsUnique(scripts: seq<Script>, id: string)
    requires UniqueIds(scripts)
    ensures UniqueIds(DeleteScript(scripts, id))
    ensures forall x :: HasId(DeleteScript(scripts, id), x) <==> HasId(scripts, x) && x != id
  {
    DeleteUniqueIds(scripts, id);
    var r := DeleteScript(scripts, id);
    forall x | HasId(scripts, x) && x != id
      ensures HasId(r, x)
    {
      var k :| 0 <= k < |scripts| && scripts[k].id == x;
      assert scripts[k] in r;
      var m :| 0 <= m < |r| && r[m] == scripts[k];
    }
    forall x | HasId(r, x)
      ensures HasId(scripts, x)
    {
      var m :| 0 <= m < |r| && r[m].id == x;
      assert r[m] in scripts;
    }
  }

  /** Dropping entries from a list with unique ids leaves the ids unique. */
  lemma {:induction false} DeleteUniqueIds(scripts: seq<Script>, id: string)
    requires UniqueIds(scripts)
    ensures UniqueIds(DeleteScript(scripts, id))
  {
    if scripts != [] {
      var tail := scripts[1..];
      assert UniqueIds(tail) by {
        forall j, k | 0 <= j < k < |tail|
          ensures tail[j].id != tail[k].id
        {
          assert tail[j] == scripts[j + 1] && tail[k] == scripts[k + 1];
        }
      }
      DeleteUniqueIds(tail, id);
      if scripts[0].id != id {
        var rest := DeleteScript(tail, id);
        var r := [scripts[0]] + rest;
        forall k | 0 <= k < |rest|
          ensures rest[k].id != scripts[0].id
        {
          assert rest[k] in tail;
          var m :| 0 <= m < |tail| && tail[m] == rest[k];
          assert tail[m] == scripts[m + 1];
        }
        forall j, k | 0 <= j < k < |r|
          ensures r[j].id != r[k].id
        {
          if j > 0 {
            assert r[j] == rest[j - 1] && r[k] == rest[k - 1];
          } else {
            assert r[k] == rest[k - 1];
          }
        }
      }
    }
  }
}
