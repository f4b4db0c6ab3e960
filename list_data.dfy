/** `PinnedAssetListData`, the later revision of the display list: it holds a profile, a
    text filter and the displayed assets, and every refresh first prunes the profile's
    missing entries. */
module ListData {
  import opened Wrappers
  import opened Seqs
  import opened Text
  import opened Assets
  import opened Filtering
  import opened Profiles

  /** The entries a refresh keeps: those whose GUID still loads an asset. */
  function Pruned(s: seq<Entry>, db: Database): seq<Entry>
  {
    Filter(s, IsResolved(db))
  }

  /** What the list displays for a profile holding `s`: the whole list, or the filtered
      subsequence when the filter is valid. */
  function Display(s: seq<Entry>, filter: Option<string>, db: Database): seq<Obj>
  {
    if HasValidFilter(filter) then Filtered(Objects(s, db), Query(filter.value)) else Objects(s, db)
  }

  /** The state a refresh leaves: `before` pruned of its missing assets, and the display
      computed from what is left. */
  predicate Refreshed(before: seq<Entry>, entries: seq<Entry>, assets: seq<Obj>, filter: Option<string>, db: Database)
  {
    entries == Pruned(before, db) && assets == Display(entries, filter, db)
  }

  /** After pruning no displayed reference is null. */
  lemma PrunedLoadsAll(s: seq<Entry>, db: Database)
    ensures NoMissing(Objects(Pruned(s, db), db))
  {
    var p := Pruned(s, db);
    FilterMembers(s, IsResolved(db));
    assert forall i :: 0 <= i < |p| ==> IsResolved(db)(p[i]);
  }

  /** The display after a refresh: no missing assets, a subsequence of the pruned profile in
      its order, the whole pruned profile without a valid filter, and with one exactly the
      assets whose name or type name contains the normalised query. */
  lemma DisplaySpec(s: seq<Entry>, filter: Option<string>, db: Database)
    ensures var d := Display(Pruned(s, db), filter, db);
            && NoMissing(d)
            && IsSubsequence(d, Objects(Pruned(s, db), db))
            && (!HasValidFilter(filter) ==> d == Objects(Pruned(s, db), db))
            && (HasValidFilter(filter) ==>
                  forall o :: o in d <==> o in Objects(Pruned(s, db), db) && o.Some? && Matches(o.value, Query(filter.value)))
  {
    var objs := Objects(Pruned(s, db), db);
    PrunedLoadsAll(s, db);
    if HasValidFilter(filter) {
      FilteredSpec(objs, Query(filter.value));
    } else {
      SubsequenceReflexive(objs);
    }
  }

  /** One step of the backward pruning walk: with the tail after `i` already pruned,
      keeping or removing entry `i` leaves the tail from `i` pruned. */
  lemma PruneStep(before: seq<Entry>, i: nat, db: Database)
    requires i < |before|
    ensures var cur := before[..i + 1] + Pruned(before[i + 1..], db);
            && (IsResolved(db)(before[i]) ==> cur == before[..i] + Pruned(before[i..], db))
            && (!IsResolved(db)(before[i]) ==> RemoveAt(cur, i) == before[..i] + Pruned(before[i..], db))
  {
    var x := before[i];
    var rest := Pruned(before[i + 1..], db);
    assert before[i..][0] == x && before[i..][1..] == before[i + 1..];
    assert Pruned(before[i..], db) == (if IsResolved(db)(x) then [x] else []) + rest;
    assert before[..i + 1] == before[..i] + [x];
    if IsResolved(db)(x) {
      assert before[..i] + [x] + rest == before[..i] + ([x] + rest);
    } else {
      assert [] + rest == rest;
      RemoveAtSplice(before[..i], x, rest);
    }
  }

  class AssetListData {
    var profile: Profile
    /** The displayed assets. */
    var assets: seq<Obj>
    var filter: Option<string>

    /** A list bound to a profile, with nothing displayed and no filter. */
    constructor (profile: Profile)
      ensures this.profile == profile && assets == [] && filter == None
    {
      this.profile := profile;
      assets := [];
      filter := None;
    }

    /** The `Profile` setter: the same profile is ignored, any other one is set. */
    method SetProfileProperty(value: Profile, db: Database)
      modifies this, value`entries
      ensures value == old(profile) ==> profile == old(profile) && assets == old(assets) && filter == old(filter) && value.entries == old(value.entries)
      ensures value != old(profile) ==>
                && profile == value && filter == Some("")
                && value.entries == Pruned(old(value.entries), db)
                && assets == Objects(value.entries, db)
    {
      if profile == value {
        return;
      }
      SetProfile(value, db);
    }

    /** `SetProfile`: assigns the profile and clears the filter, so the whole pruned profile is displayed. */
    method SetProfile(p: Profile, db: Database)
      modifies this, p`entries
      ensures profile == p && filter == Some("")
      ensures p.entries == Pruned(old(p.entries), db)
      ensures assets == Objects(p.entries, db)
    {
      profile := p;
      ApplyFilter(Some(""), db);
    }

    /** `ApplyFilter`: stores the filter and refreshes. */
    method ApplyFilter(f: Option<string>, db: Database)
      modifies this`filter, this`assets, profile`entries
      ensures filter == f
      ensures Refreshed(old(profile.entries), profile.entries, assets, f, db)
    {
      filter := f;
      RefreshAssets(db);
    }

    /** `RefreshAssets`: clears the display, removes every entry whose asset is missing by
        walking the profile from the back (so no index is skipped), then displays the
        profile or its filtered subsequence. */
    method RefreshAssets(db: Database)
      modifies this`assets, profile`entries
      ensures Refreshed(old(profile.entries), profile.entries, assets, filter, db)
    {
      assets := [];
      ghost var before := profile.entries;
      var i := |profile.entries| - 1;
      while i >= 0
        invariant -1 <= i < |before|
        invariant profile.entries == before[..i + 1] + Pruned(before[i + 1..], db)
        modifies profile`entries
      {
        PruneStep(before, i, db);
        var asset := Resolve(db, profile.entries[i].guid);
        if asset == None {
          var _ := profile.RemoveAssetAt(i);
        }
        i := i - 1;
      }
      assert before[..0] == [] && before[0..] == before;
      var objs := Objects(profile.entries, db);
      PrunedLoadsAll(before, db);
      if Filtering.HasValidFilter(filter) {
        var res := GetFilteredAssets(Some(objs), filter);
        assets := res.value.value;
      } else {
        assets := objs;
      }
    }

    /** `AddRange`: a null collection throws; otherwise each asset is added at the end in
        turn (a null one throws, keeping the earlier additions and skipping the refresh),
        then the list is refreshed once. */
    method AddRange(objs: Option<seq<Obj>>, db: Database, newIds: nat -> string) returns (r: Outcome)
      modifies this`assets, profile`entries
      ensures objs.None? ==> r == Failed(NullReference) && profile.entries == old(profile.entries) && assets == old(assets)
      ensures objs.Some? ==>
                var b := AddedAll(old(profile.entries), profile.id, objs.value, -1, db, newIds, 0);
                && (b.outcome.Failed? ==> r == b.outcome && profile.entries == b.entries && assets == old(assets))
                && (b.outcome.Done? ==> r == Done && Refreshed(b.entries, profile.entries, assets, filter, db))
    {
      if objs.None? {
        return Failed(NullReference);
      }
      var list := objs.value;
      ghost var b := AddedAll(profile.entries, profile.id, list, -1, db, newIds, 0);
      var i := 0;
      while i < |list|
        invariant 0 <= i <= |list|
        invariant b == AddedAll(profile.entries, profile.id, list[i..], -1, db, newIds, i)
        modifies profile`entries
      {
        AddedAllStep(profile.entries, profile.id, list, i, -1, db, newIds);
        var res := profile.AddAsset(list[i], -1, db, newIds(i));
        if res.Failed? {
          return res;
        }
        i := i + 1;
      }
      RefreshAssets(db);
      return Done;
    }

    /** `Add`: adds the asset at the end, then refreshes; a null asset throws before the refresh. */
    method Add(asset: Obj, db: Database, newId: string) returns (r: Outcome)
      modifies this`assets, profile`entries
      ensures var res := AddedEntries(old(profile.entries), profile.id, asset, -1, db, newId);
              && (res.Raised? ==> r == Failed(res.error) && profile.entries == old(profile.entries) && assets == old(assets))
              && (res.Ok? ==> r == Done && Refreshed(res.value, profile.entries, assets, filter, db))
    {
      r := profile.AddAsset(asset, -1, db, newId);
      if r.Failed? {
        return;
      }
      RefreshAssets(db);
    }

    /** `RemoveRange`: a null collection throws; otherwise each asset is removed in turn,
        then the list is refreshed once. */
    method RemoveRange(objs: Option<seq<Obj>>, db: Database) returns (r: Outcome)
      modifies this`assets, profile`entries
      ensures objs.None? ==> r == Failed(NullReference) && profile.entries == old(profile.entries) && assets == old(assets)
      ensures objs.Some? ==>
                && r == Done
                && Refreshed(RemovedAll(old(profile.entries), profile.id, objs.value, db), profile.entries, assets, filter, db)
    {
      if objs.None? {
        return Failed(NullReference);
      }
      var list := objs.value;
      ghost var before := profile.entries;
      var i := 0;
      while i < |list|
        invariant 0 <= i <= |list|
        invariant RemovedAll(before, profile.id, list, db) == RemovedAll(profile.entries, profile.id, list[i..], db)
        modifies profile`entries
      {
        RemovedAllStep(profile.entries, profile.id, list, i, db);
        var _ := profile.RemoveAssetObject(list[i], db);
        i := i + 1;
      }
      RefreshAssets(db);
      return Done;
    }

    /** `Remove(int index)`: removes from the profile (an index out of range throws and
        nothing is refreshed), then refreshes. */
    method RemoveAtIndex(index: int, db: Database) returns (r: Outcome)
      modifies this`assets, profile`entries
      ensures !(0 <= index < |old(profile.entries)|) ==>
                r == Failed(IndexOutOfRange) && profile.entries == old(profile.entries) && assets == old(assets)
      ensures 0 <= index < |old(profile.entries)| ==>
                && r == Done
                && Refreshed(RemoveAt(old(profile.entries), index), profile.entries, assets, filter, db)
    {
      var res := profile.RemoveAssetAt(index);
      if res.Raised? {
        return Failed(res.error);
      }
      RefreshAssets(db);
      return Done;
    }

    /** `Remove(Object asset)`: removes the asset from the profile, then refreshes. */
    method Remove(asset: Obj, db: Database)
      modifies this`assets, profile`entries
      ensures Refreshed(RemovedByAsset(old(profile.entries), profile.id, asset, db), profile.entries, assets, filter, db)
    {
      var _ := profile.RemoveAssetObject(asset, db);
      RefreshAssets(db);
    }
  }
}
