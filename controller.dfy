/** `PinnedAssetsController`: the window's controller, holding the active profile and the
    labels it displays, recomputed from the store's filter after every change. */
module Controllers {
  import opened Wrappers
  import opened Seqs
  import opened Text
  import opened Assets
  import opened Filtering
  import opened Profiles
  import opened Store

  /** `AssetLabelData`: a displayed entry's id and its asset (the drawn content is left out). */
  datatype Label = Label(id: string, asset: Obj)

  /** `CanShowAsset`: reading the name of a null asset, or lower-casing a null filter, throws;
      otherwise the asset shows when its lower-cased name or type name contains the
      lower-cased, trimmed filter. */
  function CanShowAsset(asset: Obj, filter: Option<string>): (r: Result<bool>)
    ensures r.Raised? <==> asset.None? || filter.None?
    ensures r.Raised? ==> r.error == NullReference
    ensures r.Ok? ==> (r.value <==> Matches(asset.value, Query(filter.value)))
  {
    if asset.None? || filter.None? then Raised(NullReference)
    else Ok(Matches(asset.value, Query(filter.value)))
  }

  /** An empty or blank filter shows every asset. */
  lemma BlankFilterShowsEverything(a: Asset, filter: string)
    requires IsNullOrWhiteSpace(Some(filter))
    ensures CanShowAsset(Some(a), Some(filter)) == Ok(true)
  {
    QueryEmptyIffWhiteSpace(filter);
    ContainsEmpty(ToLower(a.name));
  }

  /** Whether an entry's asset loads and matches the query. */
  function ShowsEntry(db: Database, q: string): Entry -> bool
  {
    (e: Entry) => Resolve(db, e.guid).Some? && Matches(Resolve(db, e.guid).value, q)
  }

  /** The labels of `s`, one per entry, in order. */
  function LabelsOf(s: seq<Entry>, db: Database): (r: seq<Label>)
    ensures |r| == |s|
    ensures forall i :: 0 <= i < |s| ==> r[i] == Label(s[i].id, Resolve(db, s[i].guid))
  {
    seq(|s|, i requires 0 <= i < |s| => Label(s[i].id, Resolve(db, s[i].guid)))
  }

  /** What `GetFilteredActiveAssets` yields for a profile holding `s`: the labels of the
      entries that pass `CanShowAsset`, or the null reference error the first missing
      asset (or a null filter) raises. */
  function ActiveLabels(s: seq<Entry>, filter: Option<string>, db: Database): Result<seq<Label>>
  {
    if s == [] then Ok([])
    else if filter.None? || !NoMissing(Objects(s, db)) then Raised(NullReference)
    else Ok(LabelsOf(Filter(s, ShowsEntry(db, Query(filter.value))), db))
  }

  /** The displayed labels are those of an order-preserving subsequence of the profile's
      entries, each label carrying its own entry's id, holding exactly the entries whose
      asset matches the query; a blank filter displays every entry. */
  lemma ActiveLabelsSpec(s: seq<Entry>, filter: Option<string>, db: Database)
    requires ActiveLabels(s, filter, db).Ok? && s != []
    ensures var q := Query(filter.value);
            var shown := Filter(s, ShowsEntry(db, q));
            && ActiveLabels(s, filter, db).value == LabelsOf(shown, db)
            && IsSubsequence(shown, s)
            && (forall e :: e in shown <==> e in s && Matches(Resolve(db, e.guid).value, q))
            && (IsNullOrWhiteSpace(filter) ==> shown == s)
  {
    var q := Query(filter.value);
    var keep := ShowsEntry(db, q);
    var shown := Filter(s, keep);
    FilterIsSubsequence(s, keep);
    var objs := Objects(s, db);
    assert forall i :: 0 <= i < |s| ==> objs[i] == Resolve(db, s[i].guid) && objs[i].Some?;
    forall e | e in s ensures Resolve(db, e.guid).Some? {
      var i :| 0 <= i < |s| && s[i] == e;
    }
    if IsNullOrWhiteSpace(filter) {
      QueryEmptyIffWhiteSpace(filter.value);
      forall i | 0 <= i < |s| ensures keep(s[i]) {
        ContainsEmpty(ToLower(objs[i].value.name));
      }
      FilterKeepsAll(s, keep);
    }
  }

  /** A missing asset, or a null filter, in a non-empty profile stops the whole display
      with an error. */
  lemma MissingAssetFailsDisplay(s: seq<Entry>, filter: Option<string>, db: Database, i: nat)
    requires i < |s| && (Resolve(db, s[i].guid).None? || filter.None?)
    ensures ActiveLabels(s, filter, db) == Raised(NullReference)
  {
    assert Objects(s, db)[i] == Resolve(db, s[i].guid);
  }

  /** With every asset loaded and a filter present, the display is the labels of the
      matching entries. */
  lemma AllLoadedDisplay(s: seq<Entry>, filter: Option<string>, db: Database)
    requires s != [] ==> filter.Some?
    requires forall j :: 0 <= j < |s| ==> Resolve(db, s[j].guid).Some?
    ensures var q := if filter.Some? then Query(filter.value) else "";
            ActiveLabels(s, filter, db) == Ok(LabelsOf(Filter(s, ShowsEntry(db, q)), db))
  {
    var objs := Objects(s, db);
    assert forall j :: 0 <= j < |s| ==> objs[j] == Resolve(db, s[j].guid);
  }

  /** One step of the label-building walk. */
  lemma LabelsStep(s: seq<Entry>, i: nat, db: Database, q: string)
    requires i < |s|
    ensures LabelsOf(Filter(s[..i + 1], ShowsEntry(db, q)), db)
         == LabelsOf(Filter(s[..i], ShowsEntry(db, q)), db)
            + (if ShowsEntry(db, q)(s[i]) then [Label(s[i].id, Resolve(db, s[i].guid))] else [])
  {
    var keep := ShowsEntry(db, q);
    assert s[..i + 1] == s[..i] + [s[i]];
    FilterSnoc(s[..i], s[i], keep);
    var a := Filter(s[..i], keep);
    if keep(s[i]) {
      assert LabelsOf(a + [s[i]], db) == LabelsOf(a, db) + [Label(s[i].id, Resolve(db, s[i].guid))];
    } else {
      assert a + [] == a;
    }
  }

  /** Why the list view lets rows be dragged only without a filter: then every entry of the
      profile is displayed, in order, so a displayed row's index is its entry's index in the
      profile, which is what `MoveAsset` takes. */
  lemma UnfilteredShowsWholeProfile(c: Controller, s: seq<Entry>, db: Database)
    requires !c.HasFilter() && ActiveLabels(s, c.model.filter, db).Ok?
    ensures ActiveLabels(s, c.model.filter, db).value == LabelsOf(s, db)
    ensures forall i :: 0 <= i < |s| ==> ActiveLabels(s, c.model.filter, db).value[i].id == s[i].id
  {
    if s != [] {
      ActiveLabelsSpec(s, c.model.filter, db);
    }
  }

  class Controller {
    const model: ProfileStore
    var activeProfile: Profile?
    /** `DisplayedAssets`. */
    var displayed: seq<Label>

    /** A controller over `data`, with no active profile yet and nothing displayed. */
    constructor (data: ProfileStore)
      ensures model == data && activeProfile == null && displayed == []
    {
      model := data;
      activeProfile := null;
      displayed := [];
    }

    /** `HasFilter`. */
    function HasFilter(): (r: bool)
      reads this, model
      ensures r <==> model.filter.Some? && model.filter.value != ""
    {
      !IsNullOrEmpty(model.filter)
    }

    /** `GetFilteredActiveAssets`: walks the active profile's entries, keeping a label for
        each entry whose asset `CanShowAsset` accepts; a null active profile or an exception
        from `CanShowAsset` ends the walk with that error. */
    method GetFilteredActiveAssets(db: Database) returns (r: Result<seq<Label>>)
      ensures activeProfile == null ==> r == Raised(NullReference)
      ensures activeProfile != null ==> r == ActiveLabels(activeProfile.entries, model.filter, db)
    {
      if activeProfile == null {
        return Raised(NullReference);
      }
      var s := activeProfile.entries;
      var filter := model.filter;
      ghost var q := if filter.Some? then Query(filter.value) else "";
      var labels := [];
      var i := 0;
      while i < |s|
        invariant 0 <= i <= |s|
        invariant i > 0 ==> filter.Some?
        invariant forall j :: 0 <= j < i ==> Resolve(db, s[j].guid).Some?
        invariant labels == LabelsOf(Filter(s[..i], ShowsEntry(db, q)), db)
      {
        var asset := Resolve(db, s[i].guid);
        var show := CanShowAsset(asset, filter);
        if show.Raised? {
          MissingAssetFailsDisplay(s, filter, db, i);
          return Raised(show.error);
        }
        LabelsStep(s, i, db, q);
        if show.value {
          labels := labels + [Label(s[i].id, asset)];
        }
        i := i + 1;
      }
      assert s[..i] == s;
      AllLoadedDisplay(s, filter, db);
      return Ok(labels);
    }

    /** `UpdateAssetList`: replaces the displayed labels; an exception leaves them as they were. */
    method UpdateAssetList(db: Database) returns (r: Outcome)
      modifies this`displayed
      ensures activeProfile == null ==> r == Failed(NullReference) && displayed == old(displayed)
      ensures activeProfile != null ==>
                var d := ActiveLabels(activeProfile.entries, model.filter, db);
                && (d.Ok? ==> r == Done && displayed == d.value)
                && (d.Raised? ==> r == Failed(d.error) && displayed == old(displayed))
    {
      var res := GetFilteredActiveAssets(db);
      if res.Raised? {
        return Failed(res.error);
      }
      displayed := res.value;
      return Done;
    }

    /** `SetActiveProfile_Internal`: a null profile throws; otherwise its id (generated on
        first use) becomes the store's active id, it becomes the active profile, and the
        display is recomputed. */
    method SetActiveProfileInternal(data: Profile?, newGuid: string, db: Database) returns (r: Outcome)
      requires newGuid != ""
      modifies model`activeProfileId, (if data == null then {} else {data})`id, this`activeProfile, this`displayed
      ensures data == null ==> r == Failed(NullReference) && model.activeProfileId == old(model.activeProfileId) && activeProfile == old(activeProfile) && displayed == old(displayed)
      ensures data != null ==>
                && data.id == (if old(data.id) == "" then newGuid else old(data.id))
                && model.activeProfileId == data.id
                && activeProfile == data
                && var d := ActiveLabels(data.entries, model.filter, db);
                && (d.Ok? ==> r == Done && displayed == d.value)
                && (d.Raised? ==> r == Failed(d.error) && displayed == old(displayed))
    {
      if data == null {
        return Failed(NullReference);
      }
      var id := data.ID(newGuid);
      model.SetActiveProfile(id);
      activeProfile := data;
      r := UpdateAssetList(db);
    }

    /** Both `SetActiveProfile` overloads: the argument is ignored and the profile with the
        store's current active id is selected again, so a non-empty active id is unchanged. */
    method SetActiveProfile(newGuid: string, db: Database) returns (r: Outcome)
      requires newGuid != ""
      modifies model`activeProfileId, this`activeProfile, this`displayed
      modifies (var p := model.GetProfileByID(model.activeProfileId); if p == null then {} else {p})`id
      ensures var p := old(model.GetProfileByID(model.activeProfileId));
              && (p == null ==>
                    && r == Failed(NullReference) && model.activeProfileId == old(model.activeProfileId)
                    && activeProfile == old(activeProfile) && displayed == old(displayed))
              && (p != null ==>
                    && p.id == (if old(p.id) == "" then newGuid else old(p.id))
                    && model.activeProfileId == p.id
                    && activeProfile == p
                    && var d := ActiveLabels(p.entries, model.filter, db);
                    && (d.Ok? ==> r == Done && displayed == d.value)
                    && (d.Raised? ==> r == Failed(d.error) && displayed == old(displayed)))
              && (p != null && old(model.activeProfileId) != "" ==> model.activeProfileId == old(model.activeProfileId))
    {
      var p := model.GetProfileByID(model.activeProfileId);
      r := SetActiveProfileInternal(p, newGuid, db);
    }

    /** `CreateNewProfile`: the store's new default-named profile becomes the active one, and
        with no entries it displays nothing. */
    method CreateNewProfile(newGuid: string, db: Database) returns (r: Outcome)
      requires newGuid != ""
      modifies model`profiles, model`activeProfileId, this`activeProfile, this`displayed
      ensures fresh(activeProfile) && model.profiles == old(model.profiles) + [activeProfile]
      ensures activeProfile.name == DefaultName(|old(model.profiles)|) && activeProfile.entries == []
      ensures model.activeProfileId == newGuid && activeProfile.id == newGuid
      ensures r == Done && displayed == []
    {
      var p := model.CreateProfile(newGuid);
      r := SetActiveProfileInternal(p, newGuid, db);
    }

    /** `SetFilter`: stores the filter and recomputes the display. */
    method SetFilter(filter: Option<string>, db: Database) returns (r: Outcome)
      modifies model`filter, this`displayed
      ensures model.filter == filter
      ensures activeProfile == null ==> r == Failed(NullReference) && displayed == old(displayed)
      ensures activeProfile != null ==>
                var d := ActiveLabels(activeProfile.entries, filter, db);
                && (d.Ok? ==> r == Done && displayed == d.value)
                && (d.Raised? ==> r == Failed(d.error) && displayed == old(displayed))
    {
      model.filter := filter;
      r := UpdateAssetList(db);
    }

    /** `AddActiveAssets`: a null collection or a null active profile throws; otherwise each
        asset is added at `startIndex`, which advances after every call when it is not -1;
        an exception stops the loop with the earlier additions kept and no recompute. */
    method AddActiveAssets(objs: Option<seq<Obj>>, startIndex: int, db: Database, newIds: nat -> string) returns (r: Outcome)
      modifies (if activeProfile == null then {} else {activeProfile})`entries, this`displayed
      ensures activeProfile == null || objs.None? ==> r == Failed(NullReference) && displayed == old(displayed)
      ensures activeProfile != null && objs.None? ==> activeProfile.entries == old(activeProfile.entries)
      ensures activeProfile != null && objs.Some? ==>
                var b := AddedAll(old(activeProfile.entries), activeProfile.id, objs.value, startIndex, db, newIds, 0);
                && activeProfile.entries == b.entries
                && (b.outcome.Failed? ==> r == b.outcome && displayed == old(displayed))
                && (b.outcome.Done? ==> var d := ActiveLabels(b.entries, model.filter, db);
                      && (d.Ok? ==> r == Done && displayed == d.value)
                      && (d.Raised? ==> r == Failed(d.error) && displayed == old(displayed)))
    {
      if objs.None? || activeProfile == null {
        return Failed(NullReference);
      }
      var list := objs.value;
      ghost var b := AddedAll(activeProfile.entries, activeProfile.id, list, startIndex, db, newIds, 0);
      var index := startIndex;
      var i := 0;
      while i < |list|
        invariant 0 <= i <= |list|
        invariant b == AddedAll(activeProfile.entries, activeProfile.id, list[i..], index, db, newIds, i)
        modifies activeProfile`entries
      {
        AddedAllStep(activeProfile.entries, activeProfile.id, list, i, index, db, newIds);
        var res := activeProfile.AddAsset(list[i], index, db, newIds(i));
        if res.Failed? {
          return res;
        }
        if index > -1 {
          index := index + 1;
        }
        i := i + 1;
      }
      r := UpdateAssetList(db);
    }

    /** `RemoveActiveAsset`: removes the first entry with that id (an unknown id changes
        nothing), then recomputes the display. */
    method RemoveActiveAsset(id: Option<string>, db: Database) returns (r: Outcome)
      modifies (if activeProfile == null then {} else {activeProfile})`entries, this`displayed
      ensures activeProfile == null ==> r == Failed(NullReference) && displayed == old(displayed)
      ensures activeProfile != null ==> activeProfile.entries == RemovedById(old(activeProfile.entries), id)
      ensures activeProfile != null && IdIndex(old(activeProfile.entries), id) == -1 ==> activeProfile.entries == old(activeProfile.entries)
      ensures activeProfile != null ==> var d := ActiveLabels(activeProfile.entries, model.filter, db);
              && (d.Ok? ==> r == Done && displayed == d.value)
              && (d.Raised? ==> r == Failed(d.error) && displayed == old(displayed))
    {
      if activeProfile == null {
        return Failed(NullReference);
      }
      var _ := activeProfile.RemoveAssetById(id);
      r := UpdateAssetList(db);
    }

    /** `MoveAsset`: moves the entry in the active profile, then recomputes the display; an
        exception from the move skips the recompute. */
    method MoveAsset(oldIndex: int, newIndex: int, db: Database) returns (r: Outcome)
      modifies (if activeProfile == null then {} else {activeProfile})`entries, this`displayed
      ensures activeProfile == null ==> r == Failed(NullReference) && displayed == old(displayed)
      ensures activeProfile != null ==> var n := |old(activeProfile.entries)|;
              oldIndex != newIndex && 0 <= oldIndex < n && 0 <= newIndex < n ==>
                activeProfile.entries == Moved(old(activeProfile.entries), oldIndex, newIndex)
      ensures activeProfile != null && oldIndex == newIndex ==> activeProfile.entries == old(activeProfile.entries)
      ensures activeProfile != null && oldIndex != newIndex && !(0 <= oldIndex < |old(activeProfile.entries)|) ==>
                activeProfile.entries == old(activeProfile.entries)
      ensures activeProfile != null && oldIndex != newIndex && 0 <= oldIndex < |old(activeProfile.entries)| && !(0 <= newIndex < |old(activeProfile.entries)|) ==>
                activeProfile.entries == RemoveAt(old(activeProfile.entries), oldIndex)
      ensures activeProfile != null ==> var n := |old(activeProfile.entries)|;
              oldIndex != newIndex && !(0 <= oldIndex < n && 0 <= newIndex < n) ==>
                r == Failed(ArgumentOutOfRange) && displayed == old(displayed)
      ensures activeProfile != null ==> var n := |old(activeProfile.entries)|;
              oldIndex == newIndex || (0 <= oldIndex < n && 0 <= newIndex < n) ==>
                var d := ActiveLabels(activeProfile.entries, model.filter, db);
                && (d.Ok? ==> r == Done && displayed == d.value)
                && (d.Raised? ==> r == Failed(d.error) && displayed == old(displayed))
    {
      if activeProfile == null {
        return Failed(NullReference);
      }
      var res := activeProfile.Move(oldIndex, newIndex);
      if res.Raised? {
        return Failed(res.error);
      }
      r := UpdateAssetList(db);
    }
  }
}
