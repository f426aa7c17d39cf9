/**
 * The list operations shared by the per-user saved-asset lists: membership
 * by id (`list.some(e => e.id === id)`), prepend-if-absent (the guarded
 * `unshift`), removal by id (MongoDB's `$pull` on the server, `filter` on
 * the client), and the invariant that ids are unique within one list.
 * Entries are of any type; `key` reads an entry's id.
 */
module Registry {
  import opened JsText

  /** `list.some(e => key(e) === id)`, scanning from the front. */
  predicate HasId<T>(list: seq<T>, key: T -> string, id: string)
  {
    |list| > 0 && (key(list[0]) == id || HasId(list[1..], key, id))
  }

  /**
   * `list.some(e => key(e) === id)` for an id taken from a request body:
   * a stored id is a string, so strict equality never holds for a number.
   */
  predicate HasJsonId<T>(list: seq<T>, key: T -> string, id: JsonScalar)
  {
    id.JsonString? && HasId(list, key, id.text)
  }

  /**
   * A number id is never found, even when the list holds its decimal text
   * (which is what saving that number stored).
   */
  lemma NumberIdNeverFound<T>(list: seq<T>, key: T -> string, n: int)
    ensures !HasJsonId(list, key, JsonNumber(n))
    ensures HasJsonId(list, key, JsonString(NumberText(n))) <==> HasId(list, key, NumberText(n))
  {
  }

  /** The scan finds the id exactly when some position holds it. */
  lemma {:induction false} HasIdIff<T>(list: seq<T>, key: T -> string, id: string)
    ensures HasId(list, key, id) <==> exists i :: 0 <= i < |list| && key(list[i]) == id
  {
    if |list| > 0 {
      HasIdIff(list[1..], key, id);
      if HasId(list[1..], key, id) {
        var i :| 0 <= i < |list[1..]| && key(list[1..][i]) == id;
        assert key(list[i + 1]) == id;
      }
      if exists i :: 0 <= i < |list| && key(list[i]) == id {
        var i :| 0 <= i < |list| && key(list[i]) == id;
        if i > 0 {
          assert key(list[1..][i - 1]) == id;
        }
      }
    }
  }

  lemma HasIdAt<T>(list: seq<T>, key: T -> string, i: nat)
    requires i < |list|
    ensures HasId(list, key, key(list[i]))
  {
    HasIdIff(list, key, key(list[i]));
  }

  /** No two positions of the list carry the same id. */
  ghost predicate UniqueIds<T>(list: seq<T>, key: T -> string)
  {
    forall i, j :: 0 <= i < j < |list| ==> key(list[i]) != key(list[j])
  }

  /** Save: leave the list as it is when the id is there, otherwise put the entry first. */
  function PrependIfAbsent<T>(list: seq<T>, key: T -> string, entry: T): (r: seq<T>)
    ensures HasId(list, key, key(entry)) ==> r == list
    ensures !HasId(list, key, key(entry)) ==> |r| == |list| + 1 && r[0] == entry && r[1..] == list
  {
    if HasId(list, key, key(entry)) then list else [entry] + list
  }

  /** After a save the id is always present. */
  lemma SavedIdPresent<T>(list: seq<T>, key: T -> string, entry: T)
    ensures HasId(PrependIfAbsent(list, key, entry), key, key(entry))
  {
  }

  /** A save keeps ids unique. */
  lemma PrependIfAbsentKeepsUnique<T>(list: seq<T>, key: T -> string, entry: T)
    requires UniqueIds(list, key)
    ensures UniqueIds(PrependIfAbsent(list, key, entry), key)
  {
    var r := PrependIfAbsent(list, key, entry);
    if !HasId(list, key, key(entry)) {
      forall i, j | 0 <= i < j < |r| ensures key(r[i]) != key(r[j]) {
        if i == 0 {
          HasIdAt(list, key, j - 1);
        } else {
          assert r[i] == list[i - 1] && r[j] == list[j - 1];
        }
      }
    }
  }

  /** Saving an entry whose id is already saved (again, or a second entry with that id) changes nothing. */
  lemma PrependIfAbsentIdempotent<T>(list: seq<T>, key: T -> string, entry: T, again: T)
    requires key(again) == key(entry)
    ensures PrependIfAbsent(PrependIfAbsent(list, key, entry), key, again) == PrependIfAbsent(list, key, entry)
  {
    SavedIdPresent(list, key, entry);
  }

  /** Removal: the entries whose id differs, in their original order (`$pull` / `filter`). */
  function RemoveById<T>(list: seq<T>, key: T -> string, id: string): (r: seq<T>)
    ensures |r| <= |list|
  {
    if list == [] then []
    else if key(list[0]) == id then RemoveById(list[1..], key, id)
    else [list[0]] + RemoveById(list[1..], key, id)
  }

  /** An entry survives removal exactly when it was in the list with another id. */
  lemma {:induction false} RemoveByIdMembers<T>(list: seq<T>, key: T -> string, id: string, e: T)
    ensures e in RemoveById(list, key, id) <==> e in list && key(e) != id
  {
    if list != [] {
      RemoveByIdMembers(list[1..], key, id, e);
      assert list == [list[0]] + list[1..];
    }
  }

  /** Removal distributes over concatenation: the kept entries keep their relative order. */
  lemma {:induction false} RemoveByIdConcat<T>(a: seq<T>, b: seq<T>, key: T -> string, id: string)
    ensures RemoveById(a + b, key, id) == RemoveById(a, key, id) + RemoveById(b, key, id)
  {
    if a != [] {
      assert (a + b)[1..] == a[1..] + b;
      RemoveByIdConcat(a[1..], b, key, id);
    } else {
      assert a + b == b;
    }
  }

  /** Removing an id that is not there leaves the list unchanged. */
  lemma {:induction false} RemoveAbsentId<T>(list: seq<T>, key: T -> string, id: string)
    requires !HasId(list, key, id)
    ensures RemoveById(list, key, id) == list
  {
    if list != [] {
      RemoveAbsentId(list[1..], key, id);
      assert list == [list[0]] + list[1..];
    }
  }

  /** After removal no entry carries the id. */
  lemma {:induction false} RemovedIdAbsent<T>(list: seq<T>, key: T -> string, id: string)
    ensures !HasId(RemoveById(list, key, id), key, id)
  {
    if list != [] {
      RemovedIdAbsent(list[1..], key, id);
    }
  }

  /** Removal is idempotent. */
  lemma RemoveByIdIdempotent<T>(list: seq<T>, key: T -> string, id: string)
    ensures RemoveById(RemoveById(list, key, id), key, id) == RemoveById(list, key, id)
  {
    RemovedIdAbsent(list, key, id);
    RemoveAbsentId(RemoveById(list, key, id), key, id);
  }

  /** Removal keeps ids unique. */
  lemma {:induction false} RemoveByIdKeepsUnique<T>(list: seq<T>, key: T -> string, id: string)
    requires UniqueIds(list, key)
    ensures UniqueIds(RemoveById(list, key, id), key)
  {
    if list != [] {
      var tail := list[1..];
      assert UniqueIds(tail, key) by {
        forall i, j | 0 <= i < j < |tail| ensures key(tail[i]) != key(tail[j]) {
          assert tail[i] == list[i + 1] && tail[j] == list[j + 1];
        }
      }
      RemoveByIdKeepsUnique(tail, key, id);
      if key(list[0]) != id {
        var rest := RemoveById(tail, key, id);
        var r := [list[0]] + rest;
        forall i, j | 0 <= i < j < |r| ensures key(r[i]) != key(r[j]) {
          if i == 0 {
            RemoveByIdMembers(tail, key, id, r[j]);
            assert r[j] in tail;
            var k :| 0 <= k < |tail| && tail[k] == r[j];
            assert list[k + 1] == r[j];
          } else {
            assert r[i] == rest[i - 1] && r[j] == rest[j - 1];
          }
        }
      }
    }
  }

  /** In a list with unique ids, removing a present id drops exactly one entry. */
  lemma {:induction false} RemovePresentUnique<T>(list: seq<T>, key: T -> string, id: string)
    requires UniqueIds(list, key) && HasId(list, key, id)
    ensures |RemoveById(list, key, id)| == |list| - 1
  {
    var tail := list[1..];
    if key(list[0]) == id {
      forall i | 0 <= i < |tail| ensures key(tail[i]) != id {
        assert tail[i] == list[i + 1];
      }
      HasIdIff(tail, key, id);
      RemoveAbsentId(tail, key, id);
    } else {
      assert UniqueIds(tail, key) by {
        forall i, j | 0 <= i < j < |tail| ensures key(tail[i]) != key(tail[j]) {
          assert tail[i] == list[i + 1] && tail[j] == list[j + 1];
        }
      }
      RemovePresentUnique(tail, key, id);
    }
  }

  /** Removing the id of an entry that a save has just added gives back the list before the save. */
  lemma RemoveUndoesSave<T>(list: seq<T>, key: T -> string, entry: T)
    requires !HasId(list, key, key(entry))
    ensures RemoveById(PrependIfAbsent(list, key, entry), key, key(entry)) == list
  {
    assert PrependIfAbsent(list, key, entry)[1..] == list;
    RemoveAbsentId(list, key, key(entry));
  }
}
