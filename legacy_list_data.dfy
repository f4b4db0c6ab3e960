/** `PinnedAssetsListData`, the earlier revision of the display list: it never prunes the
    profile, so a missing asset reaches the display, and a valid filter over a missing
    asset throws. */
module LegacyListData {
  import opened Wrappers
  import opened Seqs
  import opened Text
  import opened Assets
  import opened Filtering
  import opened Profiles
  import ListData

  /** What a refresh of the earlier revision yields for a profile holding `s`: every
      reference, null ones included, without a valid filter; with one, the filtered
      subsequence, or a null reference error when some asset is missing. */
  function LegacyDisplay(s: seq<Entry>, filter: Option<string>, db: Database): Result<seq<Obj>>
  {
    var objs := Objects(s, db);
    if !HasValidFilter(filter) then Ok(objs)
    else if !NoMissing(objs) then Raised(NullReference)
    else Ok(Filtered(objs, Query(filter.value)))
  }

  /** A refresh's visible result: the computed list and no error, or a cleared list and
      the error the computation raised. */
  predicate Displays(d: Result<seq<Obj>>, r: Outcome, assets: seq<Obj>)
  {
    if d.Ok? then r == Done && assets == d.value else r == Failed(d.error) && assets == []
  }

  /** The earlier display throws exactly when the filter is valid and an asset is missing;
      otherwise it is every reference without a valid filter, and a null-free
      order-preserving subsequence with one. */
  lemma LegacyDisplaySpec(s: seq<Entry>, filter: Option<string>, db: Database)
    ensures var r := LegacyDisplay(s, filter, db);
            && (r.Raised? <==> HasValidFilter(filter) && !NoMissing(Objects(s, db)))
            && (r.Raised? ==> r.error == NullReference)
            && (r.Ok? && !HasValidFilter(filter) ==> r.value == Objects(s, db))
            && (r.Ok? && HasValidFilter(filter) ==> IsSubsequence(r.value, Objects(s, db)) && NoMissing(r.value))
  {
    var objs := Objects(s, db);
    if HasValidFilter(filter) && NoMissing(objs) {
      FilteredSpec(objs, Query(filter.value));
    }
  }

  /** With every pinned asset still loaded, the two revisions agree: pruning removes
      nothing and the earlier display is the later one. */
  lemma RevisionsAgreeWhenLoaded(s: seq<Entry>, filter: Option<string>, db: Database)
    requires NoMissing(Objects(s, db))
    ensures ListData.Pruned(s, db) == s
    ensures LegacyDisplay(s, filter, db) == Ok(ListData.Display(ListData.Pruned(s, db), filter, db))
  {
    var objs := Objects(s, db);
    forall i | 0 <= i < |s| ensures IsResolved(db)(s[i]) {
      assert objs[i] == Resolve(db, s[i].guid);
    }
    FilterKeepsAll(s, IsResolved(db));
  }

  /** A missing asset is what tells the revisions apart: the later one drops it and
      displays the rest, the earlier one shows it as a null slot without a filter and throws
      with one. */
  lemma RevisionsDifferOnMissing(s: seq<Entry>, filter: Option<string>, db: Database, i: nat)
    requires i < |s| && Resolve(db, s[i].guid) == None
    ensures ListData.Pruned(s, db) != s
    ensures !HasValidFilter(filter) ==> LegacyDisplay(s, filter, db).Ok? && None in LegacyDisplay(s, filter, db).value
    ensures HasValidFilter(filter) ==> LegacyDisplay(s, filter, db) == Raised(NullReference)
  {
    var objs := Objects(s, db);
    assert objs[i] == None;
    assert !IsResolved(db)(s[i]);
    FilterMembers(s, IsResolved(db));
  }

  class AssetsListData {
    var profile: Profile
    /** The displayed assets. */
    var assets: seq<Obj>
    var filter: Option<string>

    /** A list bound to a profile, with nothing displayed and no filter. */
    constructor (profile: Profile)
      ensures this.profile == profile && assets == [] && filter == None
    {
      this.profile := profile;
      assets := [];
      filter := None;
    }

    /** The `Profile` setter: the same profile is ignored, any other one is set. */
    method SetProfileProperty(value: Profile, db: Database) returns (r: Outcome)
      modifies this
      ensures value == old(profile) ==> r == Done && profile == old(profile) && assets == old(assets) && filter == old(filter)
      ensures value != old(profile) ==>
                && profile == value && filter == Some("")
                && r == Done && assets == Objects(value.entries, db)
    {
      if profile == value {
        return Done;
      }
      r := SetProfile(value, db);
    }

    /** `SetProfile`: assigns the profile and clears the filter, so every reference of the
        profile is displayed. */
    method SetProfile(p: Profile, db: Database) returns (r: Outcome)
      modifies this
      ensures profile == p && filter == Some("")
      ensures r == Done && assets == Objects(p.entries, db)
    {
      profile := p;
      r := ApplyFilter(Some(""), db);
    }

    /** `ApplyFilter`: stores the filter and refreshes. */
    method ApplyFilter(f: Option<string>, db: Database) returns (r: Outcome)
      modifies this`filter, this`assets
      ensures filter == f
      ensures Displays(LegacyDisplay(profile.entries, f, db), r, assets)
    {
      filter := f;
      r := RefreshAssets(db);
    }

    /** `RefreshAssets`: clears the display and refills it from the profile, filtered when
        the filter is valid; a throw while filtering leaves the display cleared. */
    method RefreshAssets(db: Database) returns (r: Outcome)
      modifies this`assets
      ensures Displays(LegacyDisplay(profile.entries, filter, db), r, assets)
    {
      assets := [];
      var objs := Objects(profile.entries, db);
      if Filtering.HasValidFilter(filter) {
        var res := GetFilteredAssets(Some(objs), filter);
        if res.Raised? {
          return Failed(res.error);
        }
        assets := res.value.value;
        return Done;
      }
      assets := objs;
      return Done;
    }

    /** `AddRange`: a null collection throws; otherwise each asset is added at the end in
        turn (a null one throws, keeping the earlier additions), then the list is refreshed. */
    method AddRange(objs: Option<seq<Obj>>, db: Database, newIds: nat -> string) returns (r: Outcome)
      modifies this`assets, profile`entries
      ensures objs.None? ==> r == Failed(NullReference) && profile.entries == old(profile.entries) && assets == old(assets)
      ensures objs.Some? ==>
                var b := AddedAll(old(profile.entries), profile.id, objs.value, -1, db, newIds, 0);
                && profile.entries == b.entries
                && (b.outcome.Failed? ==> r == b.outcome && assets == old(assets))
                && (b.outcome.Done? ==> Displays(LegacyDisplay(b.entries, filter, db), r, assets))
    {
      if objs.None? {
        return Failed(NullReference);
      }
      var list := objs.value;
      ghost var b := AddedAll(profile.entries, profile.id, list, -1, db, newIds, 0);
      var i := 0;
      while i < |list|
        invariant 0 <= i <= |list|
        invariant b == AddedAll(profile.entries, profile.id, list[i..], -1, db, newIds, i)
        modifies profile`entries
      {
        AddedAllStep(profile.entries, profile.id, list, i, -1, db, newIds);
        var res := profile.AddAsset(list[i], -1, db, newIds(i));
        if res.Failed? {
          return res;
        }
        i := i + 1;
      }
      r := RefreshAssets(db);
    }

    /** `Add`: adds the asset at the end, then refreshes; a null asset throws before the refresh. */
    method Add(asset: Obj, db: Database, newId: string) returns (r: Outcome)
      modifies this`assets, profile`entries
      ensures var res := AddedEntries(old(profile.entries), profile.id, asset, -1, db, newId);
              && (res.Raised? ==> r == Failed(res.error) && profile.entries == old(profile.entries) && assets == old(assets))
              && (res.Ok? ==> profile.entries == res.value)
              && (res.Ok? ==> Displays(LegacyDisplay(res.value, filter, db), r, assets))
    {
      r := profile.AddAsset(asset, -1, db, newId);
      if r.Failed? {
        return;
      }
      r := RefreshAssets(db);
    }

    /** `RemoveRange`: a null collection throws; otherwise each asset is removed in turn,
        then the list is refreshed. */
    method RemoveRange(objs: Option<seq<Obj>>, db: Database) returns (r: Outcome)
      modifies this`assets, profile`entries
      ensures objs.None? ==> r == Failed(NullReference) && profile.entries == old(profile.entries) && assets == old(assets)
      ensures objs.Some? ==>
                && profile.entries == RemovedAll(old(profile.entries), profile.id, objs.value, db)
                && Displays(LegacyDisplay(profile.entries, filter, db), r, assets)
    {
      if objs.None? {
        return Failed(NullReference);
      }
      var list := objs.value;
      ghost var after := RemovedAll(profile.entries, profile.id, list, db);
      var i := 0;
      while i < |list|
        invariant 0 <= i <= |list|
        invariant after == RemovedAll(profile.entries, profile.id, list[i..], db)
        modifies profile`entries
      {
        RemovedAllStep(profile.entries, profile.id, list, i, db);
        var _ := profile.RemoveAssetObject(list[i], db);
        i := i + 1;
      }
      r := RefreshAssets(db);
    }

    /** `Remove(int index)`: removes from the profile only; the display is not refreshed and
        still shows the removed asset. */
    method RemoveAtIndex(index: int) returns (r: Outcome)
      modifies profile`entries
      ensures !(0 <= index < |old(profile.entries)|) ==> r == Failed(IndexOutOfRange) && profile.entries == old(profile.entries)
      ensures 0 <= index < |old(profile.entries)| ==> r == Done && profile.entries == RemoveAt(old(profile.entries), index)
      ensures assets == old(assets)
    {
      var res := profile.RemoveAssetAt(index);
      if res.Raised? {
        return Failed(res.error);
      }
      return Done;
    }

    /** `Remove(Object asset)`: removes the asset from the profile, then refreshes. */
    method Remove(asset: Obj, db: Database) returns (r: Outcome)
      modifies this`assets, profile`entries
      ensures profile.entries == RemovedByAsset(old(profile.entries), profile.id, asset, db)
      ensures Displays(LegacyDisplay(profile.entries, filter, db), r, assets)
    {
      var _ := profile.RemoveAssetObject(asset, db);
      r := RefreshAssets(db);
    }
  }
}
