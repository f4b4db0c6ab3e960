/** A profile (`PinnedProfileData`): an id, a display name and an ordered list of pinned
    entries that the profile's methods edit in place. */
module Profiles {
  import opened Wrappers
  import opened Seqs
  import opened Text
  import opened Assets

  /** What the private `IndexOf(Object)` finds: nothing when the profile's own id field is
      empty, otherwise the first entry whose GUID loads `asset`. */
  function AssetIndex(s: seq<Entry>, profileId: string, asset: Obj, db: Database): int
  {
    if profileId == "" then -1 else FirstIndex(s, ResolvesTo(db, asset))
  }

  /** What the public `IndexOf(string id)` finds: nothing for a null or empty id, otherwise
      the first entry with that id. */
  function IdIndex(s: seq<Entry>, entryId: Option<string>): int
  {
    if IsNullOrEmpty(entryId) then -1 else FirstIndex(s, HasId(entryId.value))
  }

  /** The entry list after `AddAsset(asset, index)`, or the exception it throws. */
  function AddedEntries(s: seq<Entry>, profileId: string, asset: Obj, index: int, db: Database, newId: string): Result<seq<Entry>>
  {
    if asset.None? then Raised(NullReference)
    else if AssetIndex(s, profileId, asset, db) != -1 then Ok(s)
    else
      var e := Entry(newId, GuidOf(asset.value));
      if index == -1 then Ok(s + [e])
      else if 0 <= index <= |s| then Ok(InsertAt(s, index, e))
      else Raised(ArgumentOutOfRange)
  }

  /** The entry list after `RemoveAsset(string id)`. */
  function RemovedById(s: seq<Entry>, entryId: Option<string>): seq<Entry>
  {
    var k := IdIndex(s, entryId);
    if k == -1 then s else RemoveAt(s, k)
  }

  /** The entry list after removing the entry `IndexOf(Object)` finds. */
  function RemovedByAsset(s: seq<Entry>, profileId: string, asset: Obj, db: Database): seq<Entry>
  {
    var k := AssetIndex(s, profileId, asset, db);
    if k == -1 then s else RemoveAt(s, k)
  }

  /** The entry list and completion after a loop of `AddAsset` calls. */
  datatype Batch = Batch(entries: seq<Entry>, outcome: Outcome)

  /** A loop calling `AddAsset(objs[j], index)` for each object in turn: the first exception
      stops it with the earlier additions kept; a non-negative index advances by one after
      every call, whether or not that call added anything. The j-th new entry takes its id
      from `newIds(k + j)`. */
  function AddedAll(s: seq<Entry>, profileId: string, objs: seq<Obj>, index: int, db: Database, newIds: nat -> string, k: nat): Batch
    decreases |objs|
  {
    if objs == [] then Batch(s, Done)
    else
      match AddedEntries(s, profileId, objs[0], index, db, newIds(k))
      case Raised(e) => Batch(s, Failed(e))
      case Ok(t) => AddedAll(t, profileId, objs[1..], if index > -1 then index + 1 else index, db, newIds, k + 1)
  }

  /** A loop calling `RemoveAsset(Object)` for each object in turn. */
  function RemovedAll(s: seq<Entry>, profileId: string, objs: seq<Obj>, db: Database): seq<Entry>
    decreases |objs|
  {
    if objs == [] then s else RemovedAll(RemovedByAsset(s, profileId, objs[0], db), profileId, objs[1..], db)
  }

  /** One call of the batch loop: the batch is the first add followed by the rest. */
  lemma AddedAllStep(s: seq<Entry>, profileId: string, objs: seq<Obj>, i: nat, index: int, db: Database, newIds: nat -> string)
    requires i < |objs|
    ensures var r := AddedEntries(s, profileId, objs[i], index, db, newIds(i));
            AddedAll(s, profileId, objs[i..], index, db, newIds, i)
              == if r.Raised? then Batch(s, Failed(r.error))
                 else AddedAll(r.value, profileId, objs[i + 1..], if index > -1 then index + 1 else index, db, newIds, i + 1)
  {
    assert objs[i..][0] == objs[i] && objs[i..][1..] == objs[i + 1..];
  }

  /** An asset the profile already holds adds nothing, yet a non-negative index still
      advances past it, so the rest of the batch lands one place further on, leaving a gap
      where the duplicate would have gone. */
  lemma AddedAllSkipsHeld(s: seq<Entry>, profileId: string, objs: seq<Obj>, index: int, db: Database, newIds: nat -> string, k: nat)
    requires objs != [] && objs[0].Some? && AssetIndex(s, profileId, objs[0], db) != -1
    ensures AddedAll(s, profileId, objs, index, db, newIds, k)
         == AddedAll(s, profileId, objs[1..], if index > -1 then index + 1 else index, db, newIds, k + 1)
  {
  }

  /** One call of the removal loop. */
  lemma RemovedAllStep(s: seq<Entry>, profileId: string, objs: seq<Obj>, i: nat, db: Database)
    requires i < |objs|
    ensures RemovedAll(s, profileId, objs[i..], db) == RemovedAll(RemovedByAsset(s, profileId, objs[i], db), profileId, objs[i + 1..], db)
  {
    assert objs[i..][0] == objs[i] && objs[i..][1..] == objs[i + 1..];
  }

  /** The entries a batch of non-null objects becomes, ids drawn from `newIds(k)` on. */
  function NewEntries(objs: seq<Obj>, newIds: nat -> string, k: nat): (r: seq<Entry>)
    requires forall j :: 0 <= j < |objs| ==> objs[j].Some?
    ensures |r| == |objs|
    ensures forall j :: 0 <= j < |objs| ==> r[j] == Entry(newIds(k + j), GuidOf(objs[j].value))
  {
    if objs == [] then [] else [Entry(newIds(k), GuidOf(objs[0].value))] + NewEntries(objs[1..], newIds, k + 1)
  }

  class Profile {
    /** The profile's GUID; `""` stands for a null or empty field (a profile restored without one). */
    var id: string
    var name: string
    var entries: seq<Entry>

    /** `PinnedProfileData(string name)`: the given name, a new GUID, no entries. */
    constructor (name: string, newGuid: string)
      ensures this.name == name && id == newGuid && entries == []
    {
      this.name := name;
      id := newGuid;
      entries := [];
    }

    /** The `ID` property: a GUID is generated the first time the field is found empty,
        and the same value is returned from then on. */
    method ID(newGuid: string) returns (r: string)
      requires newGuid != ""
      modifies this`id
      ensures old(id) != "" ==> id == old(id)
      ensures old(id) == "" ==> id == newGuid
      ensures r == id && r != ""
    {
      if id == "" {
        id := newGuid;
      }
      r := id;
    }

    /** `GetAsset(string id)`: the first entry with that id, or null. */
    function GetAssetById(entryId: Option<string>): (r: Option<Entry>)
      reads this
      ensures r.Some? ==> entryId.Some? && r.value in entries && r.value.id == entryId.value
      ensures r.Some? ==> exists k :: 0 <= k < |entries| && entries[k] == r.value && forall j :: 0 <= j < k ==> entries[j].id != entryId.value
      ensures r.None? <==> entryId.None? || forall i :: 0 <= i < |entries| ==> entries[i].id != entryId.value
    {
      if entryId.None? then None
      else
        var k := FirstIndex(entries, HasId(entryId.value));
        if k == -1 then None else Some(entries[k])
    }

    /** `GetAsset(int index)`: the entry at `index`, or null when the index is out of range. */
    function GetAssetAt(index: int): (r: Option<Entry>)
      reads this
      ensures r.Some? <==> 0 <= index < |entries|
      ensures r.Some? ==> r.value == entries[index]
    {
      if index < 0 || index >= |entries| then None else Some(entries[index])
    }

    /** The public `IndexOf(string id)`. */
    method IndexOfId(entryId: Option<string>) returns (r: int)
      ensures -1 <= r < |entries|
      ensures r == IdIndex(entries, entryId)
    {
      if IsNullOrEmpty(entryId) {
        return -1;
      }
      var i := 0;
      while i < |entries|
        invariant 0 <= i <= |entries|
        invariant forall j :: 0 <= j < i ==> !HasId(entryId.value)(entries[j])
      {
        if entries[i].id == entryId.value {
          return i;
        }
        i := i + 1;
      }
      return -1;
    }

    /** The private `IndexOf(Object)`: guarded by the profile's own id field. */
    method IndexOfAsset(asset: Obj, db: Database) returns (r: int)
      ensures -1 <= r < |entries|
      ensures r == AssetIndex(entries, id, asset, db)
    {
      if id == "" {
        return -1;
      }
      var i := 0;
      while i < |entries|
        invariant 0 <= i <= |entries|
        invariant forall j :: 0 <= j < i ==> !ResolvesTo(db, asset)(entries[j])
      {
        if Resolve(db, entries[i].guid) == asset {
          return i;
        }
        i := i + 1;
      }
      return -1;
    }

    /** `AddAsset(Object asset, int index = -1)`: a null asset throws; an asset already
        found is ignored; otherwise a new entry for its GUID is appended (index -1) or
        inserted at `index`, and `List.Insert` throws for any other index. */
    method AddAsset(asset: Obj, index: int, db: Database, newId: string) returns (r: Outcome)
      modifies this`entries
      ensures var res := AddedEntries(old(entries), id, asset, index, db, newId);
              && (res.Ok? ==> r == Done && entries == res.value)
              && (res.Raised? ==> r == Failed(res.error) && entries == old(entries))
    {
      if asset.None? {
        return Failed(NullReference);
      }
      var k := IndexOfAsset(asset, db);
      if k != -1 {
        return Done;
      }
      var data := Entry(newId, GuidOf(asset.value));
      if index == -1 {
        entries := entries + [data];
      } else if 0 <= index <= |entries| {
        entries := InsertAt(entries, index, data);
      } else {
        return Failed(ArgumentOutOfRange);
      }
      return Done;
    }

    /** `RemoveAsset(int index)`: throws for an index out of range, otherwise removes
        exactly that entry and returns true. */
    method RemoveAssetAt(index: int) returns (r: Result<bool>)
      modifies this`entries
      ensures 0 <= index < |old(entries)| ==> r == Ok(true) && entries == RemoveAt(old(entries), index)
      ensures !(0 <= index < |old(entries)|) ==> r == Raised(IndexOutOfRange) && entries == old(entries)
    {
      if index < 0 || index >= |entries| {
        return Raised(IndexOutOfRange);
      }
      entries := RemoveAt(entries, index);
      return Ok(true);
    }

    /** `RemoveAsset(string id)`: false and no change for a null, empty or unknown id;
        otherwise the first entry with that id is removed. */
    method RemoveAssetById(entryId: Option<string>) returns (removed: bool)
      modifies this`entries
      ensures removed <==> IdIndex(old(entries), entryId) != -1
      ensures entries == RemovedById(old(entries), entryId)
    {
      if IsNullOrEmpty(entryId) {
        return false;
      }
      var index := IndexOfId(entryId);
      if index == -1 {
        return false;
      }
      var res := RemoveAssetAt(index);
      return res.value;
    }

    /** The `RemoveAsset(Object)` the display lists call: removes the entry the private
        `IndexOf(Object)` finds, if any. */
    method RemoveAssetObject(asset: Obj, db: Database) returns (removed: bool)
      modifies this`entries
      ensures removed <==> AssetIndex(old(entries), id, asset, db) != -1
      ensures entries == RemovedByAsset(old(entries), id, asset, db)
    {
      var index := IndexOfAsset(asset, db);
      if index == -1 {
        return false;
      }
      var res := RemoveAssetAt(index);
      return res.value;
    }

    /** `SetName`: a null or empty name is ignored; anything else, white space included, replaces the name. */
    method SetName(newName: Option<string>)
      modifies this`name
      ensures IsNullOrEmpty(newName) ==> name == old(name)
      ensures !IsNullOrEmpty(newName) ==> name == newName.value
    {
      if IsNullOrEmpty(newName) {
        return;
      }
      name := newName.value;
    }

    /** `Move(oldIndex, newIndex)`: equal indices return false and change nothing. Otherwise
        the entry is read (throwing for a bad `oldIndex`), removed, and inserted at `newIndex`;
        a bad `newIndex` throws after the removal has happened. */
    method Move(oldIndex: int, newIndex: int) returns (r: Result<bool>)
      modifies this`entries
      ensures oldIndex == newIndex ==> r == Ok(false) && entries == old(entries)
      ensures oldIndex != newIndex && !(0 <= oldIndex < |old(entries)|) ==>
                r == Raised(ArgumentOutOfRange) && entries == old(entries)
      ensures oldIndex != newIndex && 0 <= oldIndex < |old(entries)| && !(0 <= newIndex < |old(entries)|) ==>
                r == Raised(ArgumentOutOfRange) && entries == RemoveAt(old(entries), oldIndex)
      ensures oldIndex != newIndex && 0 <= oldIndex < |old(entries)| && 0 <= newIndex < |old(entries)| ==>
                && r == Ok(true)
                && entries == Moved(old(entries), oldIndex, newIndex)
                && multiset(entries) == multiset(old(entries))
                && entries[newIndex] == old(entries)[oldIndex]
                && RemoveAt(entries, newIndex) == RemoveAt(old(entries), oldIndex)
    {
      if oldIndex == newIndex {
        return Ok(false);
      }
      if oldIndex < 0 || oldIndex >= |entries| {
        return Raised(ArgumentOutOfRange);
      }
      var asset := entries[oldIndex];
      ghost var before := entries;
      entries := RemoveAt(entries, oldIndex);
      if newIndex < 0 || newIndex > |entries| {
        return Raised(ArgumentOutOfRange);
      }
      entries := InsertAt(entries, newIndex, asset);
      MovedSpec(before, oldIndex, newIndex);
      return Ok(true);
    }

    /** `Equals(PinnedProfileData other)`: profiles are compared by name; null is never equal. */
    function Equals(other: Profile?): (r: bool)
      reads this, other
      ensures r <==> other != null && other.name == name
      ensures other == this ==> r
    {
      other != null && other.name == name
    }
  }

  /** The two cases in which `AddAsset` adds nothing, whatever the index: a null asset
      throws, and an asset the profile already holds leaves the list as it was. */
  lemma AddedEntriesRejects(s: seq<Entry>, profileId: string, asset: Obj, index: int, db: Database, newId: string)
    ensures asset.None? ==> AddedEntries(s, profileId, asset, index, db, newId) == Raised(NullReference)
    ensures asset.Some? && AssetIndex(s, profileId, asset, db) != -1 ==> AddedEntries(s, profileId, asset, index, db, newId) == Ok(s)
  {
  }

  /** The cases of `AddAsset` on the entry list. */
  lemma AddedEntriesCases(s: seq<Entry>, profileId: string, a: Asset, index: int, db: Database, newId: string)
    requires AssetIndex(s, profileId, Some(a), db) == -1
    ensures index == -1 ==> AddedEntries(s, profileId, Some(a), index, db, newId) == Ok(s + [Entry(newId, GuidOf(a))])
    ensures 0 <= index <= |s| ==>
              var r := AddedEntries(s, profileId, Some(a), index, db, newId);
              && r.Ok? && |r.value| == |s| + 1
              && r.value[index] == Entry(newId, GuidOf(a))
              && RemoveAt(r.value, index) == s
              && multiset(r.value) == multiset(s) + multiset{Entry(newId, GuidOf(a))}
    ensures index < -1 || index > |s| ==> AddedEntries(s, profileId, Some(a), index, db, newId) == Raised(ArgumentOutOfRange)
  {
    if 0 <= index <= |s| {
      RemoveInsertedRestores(s, index, Entry(newId, GuidOf(a)));
      MultisetInsertAt(s, index, Entry(newId, GuidOf(a)));
    }
  }

  /** Adding twice is adding once: once an asset stored under its own GUID has been added
      to a profile with an id, a second `AddAsset` of it changes nothing, and if the profile
      held no entry for it before, it now holds exactly one. */
  lemma AddTwiceIsIdempotent(s: seq<Entry>, profileId: string, a: Asset, index: int, index2: int, db: Database, id1: string, id2: string)
    requires profileId != ""
    requires Resolve(db, GuidOf(a)) == Some(a)
    ensures var r := AddedEntries(s, profileId, Some(a), index, db, id1);
            r.Ok? ==> AddedEntries(r.value, profileId, Some(a), index2, db, id2) == r
    ensures var r := AddedEntries(s, profileId, Some(a), index, db, id1);
            r.Ok? && AssetIndex(s, profileId, Some(a), db) == -1 ==>
              |Filter(r.value, ResolvesTo(db, Some(a)))| == 1
  {
    var keep := ResolvesTo(db, Some(a));
    var e := Entry(id1, GuidOf(a));
    assert keep(e);
    var r := AddedEntries(s, profileId, Some(a), index, db, id1);
    if r.Ok? && AssetIndex(s, profileId, Some(a), db) == -1 {
      FilterKeepsNone(s, keep);
      if index == -1 {
        assert r.value == s + [e];
        FilterSnoc(s, e, keep);
        assert r.value[|s|] == e;
      } else {
        assert r.value == s[..index] + [e] + s[index..];
        assert s == s[..index] + s[index..];
        FilterKeepsNone(s[..index], keep);
        FilterKeepsNone(s[index..], keep);
        FilterConcat(s[..index] + [e], s[index..], keep);
        FilterSnoc(s[..index], e, keep);
        assert r.value[index] == e;
      }
    }
  }

  /** Because `IndexOf(Object)` tests the profile's own id field, a profile whose id field
      is empty never finds duplicates: the same asset appended twice gives two entries. */
  lemma EmptyProfileIdSkipsDedup(s: seq<Entry>, a: Asset, db: Database, id1: string, id2: string)
    ensures var r1 := AddedEntries(s, "", Some(a), -1, db, id1);
            && r1 == Ok(s + [Entry(id1, GuidOf(a))])
            && AddedEntries(r1.value, "", Some(a), -1, db, id2) == Ok(s + [Entry(id1, GuidOf(a)), Entry(id2, GuidOf(a))])
  {
    assert s + [Entry(id1, GuidOf(a))] + [Entry(id2, GuidOf(a))] == s + [Entry(id1, GuidOf(a)), Entry(id2, GuidOf(a))];
  }

  /** Removing by the id an add just used undoes the add, when no older entry has that id. */
  lemma RemoveUndoesAdd(s: seq<Entry>, profileId: string, a: Asset, index: int, db: Database, newId: string)
    requires newId != ""
    requires forall i :: 0 <= i < |s| ==> s[i].id != newId
    requires AssetIndex(s, profileId, Some(a), db) == -1
    requires index == -1 || 0 <= index <= |s|
    ensures AddedEntries(s, profileId, Some(a), index, db, newId).Ok?
    ensures RemovedById(AddedEntries(s, profileId, Some(a), index, db, newId).value, Some(newId)) == s
  {
    var e := Entry(newId, GuidOf(a));
    var t := AddedEntries(s, profileId, Some(a), index, db, newId).value;
    var at := if index == -1 then |s| else index;
    assert t == s[..at] + [e] + s[at..];
    assert t[at] == e;
    assert forall j :: 0 <= j < at ==> t[j] == s[j];
    var k := FirstIndex(t, HasId(newId));
    assert HasId(newId)(t[at]);
    assert k == at;
    RemoveInsertedRestores(s, at, e);
  }

  /** Adding an asset no entry loads yet inserts its entry at the index (at the end for -1). */
  lemma AddFreshAsset(s: seq<Entry>, profileId: string, o: Obj, index: int, db: Database, newId: string)
    requires o.Some?
    requires index == -1 || 0 <= index <= |s|
    requires forall i :: 0 <= i < |s| ==> Resolve(db, s[i].guid) != o
    ensures var at := if index == -1 then |s| else index;
            AddedEntries(s, profileId, o, index, db, newId) == Ok(s[..at] + [Entry(newId, GuidOf(o.value))] + s[at..])
  {
    assert forall i :: 0 <= i < |s| ==> !ResolvesTo(db, o)(s[i]);
    assert AssetIndex(s, profileId, o, db) == -1;
    var e := Entry(newId, GuidOf(o.value));
    if index == -1 {
      assert AddedEntries(s, profileId, o, index, db, newId) == Ok(s + [e]);
      assert s[..|s|] + [e] + s[|s|..] == s + [e];
    } else {
      assert AddedEntries(s, profileId, o, index, db, newId) == Ok(InsertAt(s, index, e));
    }
  }

  /** In a consistent database, an entry made for one asset never loads an asset with another GUID. */
  lemma StillUnpinned(s: seq<Entry>, at: nat, e: Entry, rest: seq<Obj>, db: Database)
    requires Consistent(db)
    requires at <= |s|
    requires forall j :: 0 <= j < |rest| ==> rest[j].Some? && GuidOf(rest[j].value) != e.guid
    requires forall i, j :: 0 <= i < |s| && 0 <= j < |rest| ==> Resolve(db, s[i].guid) != rest[j]
    ensures var t := s[..at] + [e] + s[at..];
            forall i, j :: 0 <= i < |t| && 0 <= j < |rest| ==> Resolve(db, t[i].guid) != rest[j]
  {
    var t := s[..at] + [e] + s[at..];
    forall i, j | 0 <= i < |t| && 0 <= j < |rest| ensures Resolve(db, t[i].guid) != rest[j] {
      if i < at {
        assert t[i] == s[i];
      } else if i == at {
        assert t[i] == e;
      } else {
        assert t[i] == s[i - 1];
      }
    }
  }

  /** A batch of distinct, not yet pinned assets lands as one consecutive block: appended
      in input order for index -1, or starting at `index` with the i-th input at
      `index + i`, the entries around it unchanged. */
  lemma {:induction false} AddedAllConsecutive(s: seq<Entry>, profileId: string, objs: seq<Obj>, index: int, db: Database, newIds: nat -> string, k: nat)
    requires Consistent(db)
    requires index == -1 || 0 <= index <= |s|
    requires forall j :: 0 <= j < |objs| ==> objs[j].Some?
    requires forall i, j :: 0 <= i < j < |objs| ==> GuidOf(objs[i].value) != GuidOf(objs[j].value)
    requires forall i, j :: 0 <= i < |s| && 0 <= j < |objs| ==> Resolve(db, s[i].guid) != objs[j]
    ensures var at := if index == -1 then |s| else index;
            AddedAll(s, profileId, objs, index, db, newIds, k) == Batch(s[..at] + NewEntries(objs, newIds, k) + s[at..], Done)
    decreases |objs|
  {
    var at := if index == -1 then |s| else index;
    if objs == [] {
      assert s[..at] + [] + s[at..] == s;
    } else {
      var e := Entry(newIds(k), GuidOf(objs[0].value));
      AddFreshAsset(s, profileId, objs[0], index, db, newIds(k));
      var t := s[..at] + [e] + s[at..];
      var rest := objs[1..];
      var index' := if index > -1 then index + 1 else index;
      assert AddedAll(s, profileId, objs, index, db, newIds, k) == AddedAll(t, profileId, rest, index', db, newIds, k + 1);
      assert forall j :: 0 <= j < |rest| ==> rest[j] == objs[j + 1];
      assert forall j :: 0 <= j < |rest| ==> rest[j].Some? && GuidOf(rest[j].value) != e.guid;
      assert forall i, j :: 0 <= i < j < |rest| ==> GuidOf(rest[i].value) != GuidOf(rest[j].value);
      StillUnpinned(s, at, e, rest, db);
      AddedAllConsecutive(t, profileId, rest, index', db, newIds, k + 1);
      var at' := if index' == -1 then |t| else index';
      assert at' == at + 1;
      var n := NewEntries(rest, newIds, k + 1);
      assert NewEntries(objs, newIds, k) == [e] + n;
      SpliceAfterInsert(s, at, e, n);
    }
  }
}
