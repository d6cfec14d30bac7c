/**
  The saved-locations store (`LocationDataSourceImpl`): a preferences store with two
  keys, the list of saved locations and the current location. Each key holds JSON
  text; here a key holds either nothing, text that does not decode, or a decoded value.
 */
module LocationStore {
  import opened Wrappers
  import opened Domain
  import opened Collections

  /** One preference key: missing, holding text that does not decode, or holding a value. */
  datatype Entry<+T> = Absent | Unreadable | Stored(value: T)

  /**
    `jsonToLocations(preferences[key] ?: "")`: a missing key reads as "", and blank or
    malformed text decodes to the empty list.
   */
  function DecodeList(e: Entry<seq<SavedLocation>>): seq<SavedLocation> {
    match e
    case Stored(s) => s
    case _ => []
  }

  /** `jsonToLocation(preferences[key] ?: "")`: missing, blank or malformed text gives null. */
  function DecodeLocation(e: Entry<SavedLocation>): Option<SavedLocation> {
    match e
    case Stored(l) => Some(l)
    case _ => None
  }

  // ---------------------------------------------------------------------------
  // The list operations: filter by id, upsert by id

  /** Kotlin `filterNot { it.id == id }`. */
  function WithoutId(s: seq<SavedLocation>, id: string): seq<SavedLocation> {
    if s == [] then []
    else (if s[0].id == id then [] else [s[0]]) + WithoutId(s[1..], id)
  }

  /** The number of entries whose id is `id`. */
  function CountId(s: seq<SavedLocation>, id: string): nat {
    if s == [] then 0
    else (if s[0].id == id then 1 else 0) + CountId(s[1..], id)
  }

  /** `removeAll { it.id == l.id }` followed by `add(l)`. */
  function Upsert(s: seq<SavedLocation>, l: SavedLocation): seq<SavedLocation> {
    WithoutId(s, l.id) + [l]
  }

  predicate UniqueIds(s: seq<SavedLocation>) {
    forall i, j :: 0 <= i < j < |s| ==> s[i].id != s[j].id
  }

  lemma {:induction false} WithoutIdAppend(a: seq<SavedLocation>, b: seq<SavedLocation>, id: string)
    ensures WithoutId(a + b, id) == WithoutId(a, id) + WithoutId(b, id)
    ensures CountId(a + b, id) == CountId(a, id) + CountId(b, id)
  {
    if a != [] {
      assert (a + b)[1..] == a[1..] + b;
      WithoutIdAppend(a[1..], b, id);
    } else {
      assert a + b == b;
    }
  }

  /**
    The filter drops exactly the entries with the id: what remains is a subsequence of
    the input (so the others keep their relative order), holds every entry with another
    id, holds none with this id, and is shorter by the number of entries with this id.
   */
  lemma {:induction false} WithoutIdSpec(s: seq<SavedLocation>, id: string)
    ensures var r := WithoutId(s, id);
      && (forall i :: 0 <= i < |r| ==> r[i].id != id)
      && IsSubsequence(r, s)
      && (forall i :: 0 <= i < |s| && s[i].id != id ==> s[i] in r)
      && |r| == |s| - CountId(s, id)
  {
    if s != [] {
      WithoutIdSpec(s[1..], id);
      var rest := WithoutId(s[1..], id);
      var r := WithoutId(s, id);
      if s[0].id == id {
        assert r == rest;
        assert IsSubsequence(r, s) by {
          if r != [] {
            assert IsSubsequence(r, s[1..]);
          }
        }
        forall i | 0 <= i < |s| && s[i].id != id ensures s[i] in r {
          assert i > 0 && s[i] == s[1..][i - 1];
        }
      } else {
        assert r == [s[0]] + rest;
        assert r[1..] == rest;
        forall i | 0 <= i < |r| ensures r[i].id != id {
          if i > 0 {
            assert r[i] == rest[i - 1];
          }
        }
        forall i | 0 <= i < |s| && s[i].id != id ensures s[i] in r {
          if i > 0 {
            assert s[i] == s[1..][i - 1];
          }
        }
      }
    }
  }

  /** Removing an id that is not present changes nothing. */
  lemma {:induction false} WithoutAbsentId(s: seq<SavedLocation>, id: string)
    requires CountId(s, id) == 0
    ensures WithoutId(s, id) == s
  {
    if s != [] {
      WithoutAbsentId(s[1..], id);
      assert s == [s[0]] + s[1..];
    }
  }

  lemma {:induction false} CountIdZero(s: seq<SavedLocation>, id: string)
    requires forall i :: 0 <= i < |s| ==> s[i].id != id
    ensures CountId(s, id) == 0
  {
    if s != [] {
      assert forall i :: 0 <= i < |s[1..]| ==> s[1..][i].id == s[i + 1].id;
      CountIdZero(s[1..], id);
    }
  }

  /** In a list with unique ids, an id that is present occurs exactly once. */
  lemma {:induction false} UniqueIdsCount(s: seq<SavedLocation>, k: nat)
    requires UniqueIds(s) && k < |s|
    ensures CountId(s, s[k].id) == 1
  {
    if k == 0 {
      forall i | 0 <= i < |s[1..]| ensures s[1..][i].id != s[0].id {
        assert s[1..][i] == s[i + 1];
      }
      CountIdZero(s[1..], s[0].id);
    } else {
      assert UniqueIds(s[1..]) by {
        forall i, j | 0 <= i < j < |s[1..]| ensures s[1..][i].id != s[1..][j].id {
          assert s[1..][i] == s[i + 1] && s[1..][j] == s[j + 1];
        }
      }
      assert s[1..][k - 1] == s[k];
      UniqueIdsCount(s[1..], k - 1);
    }
  }

  /**
    After an upsert of `l` the list holds exactly one entry with `l.id`: `l` itself, last.
    Before it come the entries with other ids, in their original order.
   */
  lemma UpsertSpec(s: seq<SavedLocation>, l: SavedLocation)
    ensures var r := Upsert(s, l);
      && |r| == |s| - CountId(s, l.id) + 1
      && r[|r| - 1] == l
      && r[..|r| - 1] == WithoutId(s, l.id)
      && CountId(r, l.id) == 1
      && (forall i :: 0 <= i < |r| - 1 ==> r[i].id != l.id)
      && IsSubsequence(r[..|r| - 1], s)
  {
    var w := WithoutId(s, l.id);
    var r := Upsert(s, l);
    assert r == w + [l];
    assert r[..|r| - 1] == w;
    assert (forall i :: 0 <= i < |w| ==> w[i].id != l.id) && IsSubsequence(w, s) && |w| == |s| - CountId(s, l.id) by {
      WithoutIdSpec(s, l.id);
    }
    assert CountId(r, l.id) == 1 by {
      CountIdZero(w, l.id);
      WithoutIdAppend(w, [l], l.id);
      assert [l][1..] == [];
    }
  }

  /** Saving an id that is already present (once) keeps the length of the list. */
  lemma UpsertExistingKeepsLength(s: seq<SavedLocation>, l: SavedLocation, k: nat)
    requires UniqueIds(s) && k < |s| && s[k].id == l.id
    ensures |Upsert(s, l)| == |s|
  {
    UniqueIdsCount(s, k);
    UpsertSpec(s, l);
  }

  /** Saving a new id appends it. */
  lemma UpsertNewAppends(s: seq<SavedLocation>, l: SavedLocation)
    requires forall i :: 0 <= i < |s| ==> s[i].id != l.id
    ensures Upsert(s, l) == s + [l]
  {
    CountIdZero(s, l.id);
    WithoutAbsentId(s, l.id);
  }

  /** Upserts keep ids unique. */
  lemma UpsertKeepsIdsUnique(s: seq<SavedLocation>, l: SavedLocation)
    requires UniqueIds(s)
    ensures UniqueIds(Upsert(s, l))
  {
    WithoutIdKeepsIdsUnique(s, l.id);
    UpsertSpec(s, l);
    var r := Upsert(s, l);
    var w := WithoutId(s, l.id);
    forall i, j | 0 <= i < j < |r| ensures r[i].id != r[j].id {
      assert r[i] == w[i];
      if j < |r| - 1 {
        assert r[j] == w[j];
      }
    }
  }

  lemma {:induction false} WithoutIdKeepsIdsUnique(s: seq<SavedLocation>, id: string)
    requires UniqueIds(s)
    ensures UniqueIds(WithoutId(s, id))
  {
    if s != [] {
      assert UniqueIds(s[1..]) by {
        forall i, j | 0 <= i < j < |s[1..]| ensures s[1..][i].id != s[1..][j].id {
          assert s[1..][i] == s[i + 1] && s[1..][j] == s[j + 1];
        }
      }
      WithoutIdKeepsIdsUnique(s[1..], id);
      var rest := WithoutId(s[1..], id);
      if s[0].id != id {
        var r := WithoutId(s, id);
        assert r == [s[0]] + rest;
        forall m | 0 <= m < |rest| ensures rest[m].id != s[0].id {
          WithoutIdMembers(s[1..], id, m);
          var i :| 0 <= i < |s[1..]| && s[1..][i] == rest[m];
          assert s[1..][i] == s[i + 1];
        }
        forall i, j | 0 <= i < j < |r| ensures r[i].id != r[j].id {
          assert r[j] == rest[j - 1];
          if i > 0 {
            assert r[i] == rest[i - 1];
          }
        }
      }
    }
  }

  /** Every entry left by the filter comes from the input. */
  lemma {:induction false} WithoutIdMembers(s: seq<SavedLocation>, id: string, m: nat)
    requires m < |WithoutId(s, id)|
    ensures exists i :: 0 <= i < |s| && s[i] == WithoutId(s, id)[m]
  {
    var rest := WithoutId(s[1..], id);
    if s[0].id == id {
      WithoutIdMembers(s[1..], id, m);
      var i :| 0 <= i < |s[1..]| && s[1..][i] == rest[m];
      assert s[i + 1] == s[1..][i];
    } else if m > 0 {
      assert WithoutId(s, id)[m] == rest[m - 1];
      WithoutIdMembers(s[1..], id, m - 1);
      var i :| 0 <= i < |s[1..]| && s[1..][i] == rest[m - 1];
      assert s[i + 1] == s[1..][i];
    } else {
      assert WithoutId(s, id)[0] == s[0];
    }
  }

  /** The in-place `removeAll { it.id == id }` on the copied list. */
  method RemoveAll(list: seq<SavedLocation>, id: string) returns (updated: seq<SavedLocation>)
    ensures updated == WithoutId(list, id)
  {
    updated := [];
    var i := 0;
    while i < |list|
      invariant 0 <= i <= |list|
      invariant updated == WithoutId(list[..i], id)
    {
      assert list[..i + 1] == list[..i] + [list[i]];
      WithoutIdAppend(list[..i], [list[i]], id);
      assert WithoutId([list[i]], id) == if list[i].id == id then [] else [list[i]] by {
        assert [list[i]][1..] == [];
      }
      if list[i].id != id {
        updated := updated + [list[i]];
      }
      i := i + 1;
    }
    assert list[..|list|] == list;
  }

  // ---------------------------------------------------------------------------
  // The store

  class LocationDataSource {
    /** The "saved_locations" key. */
    var savedLocations: Entry<seq<SavedLocation>>
    /** The "current_location" key. */
    var currentLocation: Entry<SavedLocation>

    /** A fresh store has neither key. */
    constructor ()
      ensures savedLocations == Absent && currentLocation == Absent
    {
      savedLocations := Absent;
      currentLocation := Absent;
    }

    /** `getAllSavedLocations()`: the decoded list, or the empty list. */
    function GetAllSavedLocations(): (s: seq<SavedLocation>)
      reads this
      ensures savedLocations.Stored? ==> s == savedLocations.value
      ensures !savedLocations.Stored? ==> s == []
    {
      DecodeList(savedLocations)
    }

    /** `getCurrentLocation()`: the decoded location, or null. */
    function GetCurrentLocation(): (o: Option<SavedLocation>)
      reads this
      ensures o.Some? <==> currentLocation.Stored?
      ensures o.Some? ==> o.value == currentLocation.value
    {
      DecodeLocation(currentLocation)
    }

    /**
      `saveLocation(location)`: an upsert by id of the list as it currently decodes.
      `editFails` stands for the preferences edit throwing; the edit is then not
      applied and the flow emits false instead of true.
     */
    method SaveLocation(l: SavedLocation, editFails: bool) returns (ok: bool)
      modifies this
      ensures ok == !editFails
      ensures currentLocation == old(currentLocation)
      ensures !editFails ==> savedLocations == Stored(Upsert(old(GetAllSavedLocations()), l))
      ensures editFails ==> savedLocations == old(savedLocations)
    {
      if editFails {
        return false;
      }
      var currentList := GetAllSavedLocations();
      var updatedList := RemoveAll(currentList, l.id);
      updatedList := updatedList + [l];
      savedLocations := Stored(updatedList);
      ok := true;
    }

    /** `removeLocation(locationId)`: the list without the entries of that id. */
    method RemoveLocation(locationId: string, editFails: bool) returns (ok: bool)
      modifies this
      ensures ok == !editFails
      ensures currentLocation == old(currentLocation)
      ensures !editFails ==> savedLocations == Stored(WithoutId(old(GetAllSavedLocations()), locationId))
      ensures editFails ==> savedLocations == old(savedLocations)
    {
      if editFails {
        return false;
      }
      var currentList := GetAllSavedLocations();
      savedLocations := Stored(WithoutId(currentList, locationId));
      ok := true;
    }

    /** `setCurrentLocation(location)`: overwrites the current-location key only. */
    method SetCurrentLocation(l: SavedLocation, editFails: bool) returns (ok: bool)
      modifies this
      ensures ok == !editFails
      ensures savedLocations == old(savedLocations)
      ensures !editFails ==> currentLocation == Stored(l) && GetCurrentLocation() == Some(l)
      ensures editFails ==> currentLocation == old(currentLocation)
    {
      if editFails {
        return false;
      }
      currentLocation := Stored(l);
      ok := true;
    }

    /** `clearAllLocations()`: removes both keys. */
    method ClearAllLocations(editFails: bool) returns (ok: bool)
      modifies this
      ensures ok == !editFails
      ensures !editFails ==> savedLocations == Absent && currentLocation == Absent
      ensures !editFails ==> GetAllSavedLocations() == [] && GetCurrentLocation() == None
      ensures editFails ==> savedLocations == old(savedLocations) && currentLocation == old(currentLocation)
    {
      if editFails {
        return false;
      }
      savedLocations := Absent;
      currentLocation := Absent;
      ok := true;
    }
  }
}
