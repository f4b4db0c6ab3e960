# PinnedAssets — a Dafny model of the pinned-asset bookkeeping

PinnedAssets is a Unity editor extension that lets a user pin project assets into named
*profiles*. The store (`PinnedAssetsData`) holds the profiles. A profile
(`PinnedProfileData`) holds an ordered list of pinned entries (`PinnedAssetData`), each of which
names an asset by its GUID. The display lists show a profile through a text filter:

- `PinnedAssetListData` is the later revision;
- `PinnedAssetsListData` is the earlier one;
- `PinnedAssetsController` drives the window.

The inspector `PinnedAssetsEditor` keeps a popup index over the profiles. An asset
postprocessor in `PinnedAssetsManager` reports moved assets.

This project models that bookkeeping and proves what it does.

- **`wrappers.dfy`**: `Option`, plus `Result`/`Outcome` for the exceptions the code throws: null reference, index out of range, argument out of range.
- **`seqs.dfy`**: generic list operations, with their lemmas:
  - the order-preserving `Filter`, `FirstIndex`, `InsertAt` and `RemoveAt` (the operations `List<T>` performs);
  - `Moved` (remove, then insert).
- **`text.dfy`**:
  - the `string` helpers the code calls: `IsNullOrEmpty`, `IsNullOrWhiteSpace`, `ToLower`, `Trim` and `Contains`;
  - `Query`, the lower-cased and trimmed filter.
- **`assets.dfy`**: the entities.
  - Assets are `Asset(guid, name, typeName)`.
  - A Unity object reference is `Option<Asset>`, where `None` is Unity's null or missing object.
  - The asset database is a map from GUID to asset.
  - An entry is `Entry(id, guid)`, compared by GUID.
- **`filtering.dfy`**: the shared text filter and `GetFilteredAssets`.
- **`profile.dfy`**: class `Profile`, whose methods edit its entry list in place. Each method is proved against a specification function of the old list.
- **`list_data.dfy`, `legacy_list_data.dfy`**: the two display-list revisions.
- **`store.dfy`**: class `ProfileStore`, the store.
- **`editor.dfy`**: class `ProfileEditor`, the inspector's index and name bookkeeping.
- **`controller.dfy`**: class `Controller`, `PinnedAssetsController`.
- **`processor.dfy`**: class `AssetProcessor`, the move-notification rule. The events it fires are recorded as an appended trace.

Values the code draws from outside its control are parameters of the model:

- the asset database (`db`);
- new GUIDs (`newGuid`);
- the ids of new entries (`newId`, or `newIds(k)` for the k-th add of a batch).

Where the prose design and the code differ, the model follows the code:

- A whitespace-only name is accepted by `SetName`. Only null or empty names are ignored.
- `AddAsset` with an index other than -1 and outside 0..Count throws. It does not append.
- `GetAsset(int)` out of range returns null. It does not throw.
- Duplicate detection in `AddAsset` is skipped when the profile's own id field is empty.
- `Move` with a bad new index throws after the removal. The entry stays removed.
- `DeleteProfile` works as follows:
  - it takes a profile and removes the first profile with an equal *name*;
  - it throws on null;
  - it does not refuse to delete the last profile. Only the disabled inspector button does.

## Model

| member | source | states |
|---|---|---|
| Seqs.MovedSpec | Editor/PinnedProfileData.cs:175-187 | Remove-then-insert keeps the length and the multiset of elements: a permutation. The moved element lands at the new index. Taking it out again gives the list with it taken out of the old index. |
| Seqs.MovedInverse | Editor/PinnedProfileData.cs:175-187 | Moving back from the new index to the old one restores the original list. |
| Seqs.FilterIsSubsequence | Editor/PinnedAssetListData.cs:223-235 | A filtered list is an order-preserving subsequence of its input. |
| Seqs.FilterMembers | Editor/PinnedAssetListData.cs:223-235 | An element is in the filtered list exactly when it is in the input and the predicate accepts it. |
| Seqs.FilterIdempotent | Editor/PinnedAssetListData.cs:223-235 | Filtering twice with the same predicate is filtering once. |
| Text.TrimSpec | Editor/PinnedAssetListData.cs:221 | `Trim` yields the empty string exactly for white-space-only input. Otherwise the result starts and ends with a non-white-space character. |
| Text.QueryEmptyIffWhiteSpace | Editor/PinnedAssetListData.cs:221 | The normalised query `filter.ToLower().Trim()` is empty exactly when `IsNullOrWhiteSpace(filter)` holds, so lower-casing never turns a blank filter into a valid one. |
| Text.TrimStartSpec | Editor/PinnedAssetListData.cs:221 | Trimming the start leaves a suffix of the input. The suffix is empty iff the input is all white space, and otherwise starts with a non-white-space character. |
| Text.TrimEndSpec | Editor/PinnedAssetListData.cs:221 | Trimming the end leaves a prefix of the input. The prefix is empty iff the input is all white space, and otherwise ends with a non-white-space character. |
| Text.ToLowerKeepsWhiteSpace | Editor/PinnedAssetListData.cs:221 | A string is all white space iff its lower-cased form is. |
| Text.ContainsSlice | Editor/PinnedAssetListData.cs:230 | `Contains` finds every slice of a string, so an asset whose name includes the query as a substring matches. |
| Text.ContainsEmpty | Editor/PinnedAssetsController.cs:144-151 | Every string contains the empty query, so an empty query matches every asset. |
| Assets.EqualsEntry | Editor/PinnedAssetData.cs:27-32 | Comparing with a null entry is false. |
| Assets.EqualsObject | Editor/PinnedAssetData.cs:34-42 | Comparing with a null object is false. A non-null object is compared by its GUID. |
| Assets.EqualsOverloadsAgree | Editor/PinnedAssetData.cs:27-47 | Both overloads compare GUIDs: an entry equals an asset iff it equals the entry built from that asset's GUID. |
| Assets.EntryEqualityByGuid | Editor/PinnedAssetData.cs:27-47 | Two entries are equal iff their GUIDs are equal, whatever their ids. Equality is reflexive, symmetric and transitive. |
| Assets.EntryForAsset | Editor/PinnedAssetData.cs:22-25 | An entry built from an asset's GUID stores that GUID and equals the asset. In a database that files each asset under its GUID, it loads an equal asset. |
| Assets.Objects | Editor/PinnedAssetData.cs:16 | The loaded view of a profile has one reference per entry. Each is what the entry's GUID loads, or null. |
| Filtering.GetFilteredAssets | Editor/PinnedAssetListData.cs:209-236 | See the cases below. |
| Filtering.FilteredSpec | Editor/PinnedAssetListData.cs:223-235 | The filtered list is an order-preserving subsequence. It holds exactly the non-null assets whose lower-cased name or type name contains the query. |
| Filtering.EmptyQueryShowsAll | Editor/PinnedAssetsController.cs:144-151 | With an empty query and no null asset, nothing is filtered out. |
| Filtering.HasValidFilter | Editor/PinnedAssetListData.cs:63 | A filter is valid iff it is non-null and its normalised query (lower-cased, trimmed) is non-empty. |
| Filtering.BlankSearchShowsAll | Editor/PinnedAssets.cs:263-268 | A non-empty, white-space-only search passes the empty-query test but trims to the empty query, and so shows every asset. |
| Filtering.FilteredIdempotent | Editor/PinnedAssetListData.cs:221-235 | Filtering an already filtered list changes nothing. |
| Profiles.Profile.constructor | Editor/PinnedProfileData.cs:56-60 | A new profile has the given name, an id from the GUID generator, and no entries. |
| Profiles.Profile.ID | Editor/PinnedProfileData.cs:28-38 | The id is generated only when the field is empty, is never empty afterwards, and is stable from then on. |
| Profiles.Profile.GetAssetById | Editor/PinnedProfileData.cs:69-72 | Returns the first entry of the profile with that id: no earlier entry has it. Returns null exactly when the id is null or no entry has it. |
| Profiles.Profile.GetAssetAt | Editor/PinnedProfileData.cs:74-82 | Returns null exactly when the index is out of range, otherwise the entry at the index. |
| Profiles.Profile.IndexOfId | Editor/PinnedProfileData.cs:209-225 | The loop returns -1 for a null or empty id. Otherwise it returns the first index holding that id, or -1 when none does. |
| Profiles.Profile.IndexOfAsset | Editor/PinnedProfileData.cs:227-243 | The loop returns -1 when the profile's own id field is empty. Otherwise it returns the first index whose entry loads the asset. |
| Profiles.Profile.AddAsset | Editor/PinnedProfileData.cs:89-111 | The new entry list is `AddedEntries` of the old one (see `AddedEntriesCases`), and a throw leaves the list unchanged. |
| Profiles.AddedEntriesRejects | Editor/PinnedProfileData.cs:89-99 | Whatever the index, a null asset throws a null reference, and an asset the profile already holds leaves the list unchanged. |
| Profiles.AddedEntriesCases | Editor/PinnedProfileData.cs:101-110 | For a non-null asset the profile does not hold yet, the new entry is appended for -1, or inserted at an index in 0..Count: a one-longer list with the entry at the index, the old list once it is removed, the same multiset plus the entry. Any other index throws an argument-out-of-range error. |
| Profiles.AddTwiceIsIdempotent | Editor/PinnedProfileData.cs:89-99 | In a profile with an id, a second add of the same asset is a no-op. An asset absent before is now held by exactly one entry. |
| Profiles.EmptyProfileIdSkipsDedup | Editor/PinnedProfileData.cs:227-232 | With the profile's id field empty, adding the same asset twice appends two entries. |
| Profiles.RemoveUndoesAdd | Editor/PinnedProfileData.cs:89-133 | Removing by the fresh id an add just used restores the old list. |
| Profiles.AddFreshAsset | Editor/PinnedProfileData.cs:101-110 | An asset no entry loads yet is spliced in at the index, or at the end for -1. |
| Profiles.AddedAllConsecutive | Editor/PinnedAssetsController.cs:84-96 | A batch of distinct, unpinned assets lands as one consecutive block: appended in input order for -1, or with the i-th input at `startIndex + i`. The entries around the block are unchanged. |
| Profiles.AddedAllSkipsHeld | Editor/PinnedAssetsController.cs:84-96 | An asset the profile already holds adds nothing, but a non-negative start index still advances past it, so the rest of the batch lands one place later and leaves a gap. |
| Profiles.NewEntries | Editor/PinnedProfileData.cs:101-102 | The block of entries for a batch has one entry per asset, in order, each storing its asset's GUID. |
| Profiles.Profile.RemoveAssetAt | Editor/PinnedProfileData.cs:141-150 | An out-of-range index throws and changes nothing. Otherwise exactly that element is removed, the rest stay in order, and the result is true. |
| Profiles.Profile.RemoveAssetById | Editor/PinnedProfileData.cs:119-133 | Returns true iff some entry has the (non-empty) id. The first such entry is removed. Otherwise the list is unchanged. |
| Profiles.Profile.RemoveAssetObject | Editor/PinnedProfileData.cs:227-243 | Returns true iff `IndexOf(Object)` finds an entry, which is then removed. Otherwise the list is unchanged. |
| Profiles.Profile.SetName | Editor/PinnedProfileData.cs:159-167 | A null or empty name is ignored. Any other name, white space included, replaces the old one. |
| Profiles.Profile.Move | Editor/PinnedProfileData.cs:175-187 | See the cases below. |
| Profiles.Profile.Equals | Editor/PinnedProfileData.cs:194-202 | Equal iff the other profile is non-null and has the same name; a profile equals itself. |
| ListData.PrunedLoadsAll | Editor/PinnedAssetListData.cs:96-104 | After pruning, no displayed reference is null. |
| ListData.DisplaySpec | Editor/PinnedAssetListData.cs:108-112 | After a refresh the display has no null asset and is an order-preserving subsequence of the pruned profile. It is the whole pruned profile without a valid filter. With one, it holds exactly the assets whose name or type name contains the normalised query. |
| ListData.PruneStep | Editor/PinnedAssetListData.cs:96-104 | Walking backwards, keeping or removing entry i leaves the suffix from i pruned, so no entry is skipped. |
| ListData.AssetListData.RefreshAssets | Editor/PinnedAssetListData.cs:90-114 | The profile becomes its pruned list: the entries that load, in order. The display becomes that list, filtered when the filter is valid. |
| ListData.AssetListData.SetProfileProperty | Editor/PinnedAssetListData.cs:37-53 | The same profile changes nothing. Another profile is set as by `SetProfile`. |
| ListData.AssetListData.SetProfile | Editor/PinnedAssetListData.cs:69-75 | The filter becomes empty, so the display is the whole pruned profile. |
| ListData.AssetListData.ApplyFilter | Editor/PinnedAssetListData.cs:81-85 | Stores the filter. The display becomes the pruned profile filtered by it. |
| ListData.AssetListData.AddRange | Editor/PinnedAssetListData.cs:131-144 | A null collection throws. Each asset is added at the end in order. A throw keeps the earlier additions and skips the refresh. Otherwise the list is refreshed once. |
| ListData.AssetListData.Add | Editor/PinnedAssetListData.cs:150-154 | Adds at the end and then refreshes. A null asset throws before the refresh. |
| ListData.AssetListData.RemoveRange | Editor/PinnedAssetListData.cs:161-174 | A null collection throws. Otherwise each asset is removed in order, then the list is refreshed once. |
| ListData.AssetListData.RemoveAtIndex | Editor/PinnedAssetListData.cs:183-187 | Propagates the out-of-range throw with nothing changed. Otherwise removes that entry and refreshes. |
| ListData.AssetListData.Remove | Editor/PinnedAssetListData.cs:196-200 | Removes the entry loading the asset, then refreshes. |
| LegacyListData.LegacyDisplaySpec | Editor/PinnedAssetsListData.cs:86-99 | Without a valid filter the display is exactly the profile's references, null ones included. With a valid filter it throws iff some asset is missing; otherwise it is a null-free order-preserving subsequence. |
| LegacyListData.RevisionsAgreeWhenLoaded | Editor/PinnedAssetListData.cs:90-114 | When every asset loads, the later revision prunes nothing and both revisions display the same list. |
| LegacyListData.RevisionsDifferOnMissing | Editor/PinnedAssetListData.cs:96-104 | A missing asset is pruned by the later revision. The earlier one shows it as null without a filter and throws with one. |
| LegacyListData.AssetsListData.RefreshAssets | Editor/PinnedAssetsListData.cs:86-99 | The display becomes `LegacyDisplay`. A throw leaves it cleared. The profile is not touched. |
| LegacyListData.AssetsListData.SetProfileProperty | Editor/PinnedAssetsListData.cs:33-49 | The same profile changes nothing. Another profile is set with an empty filter. |
| LegacyListData.AssetsListData.SetProfile | Editor/PinnedAssetsListData.cs:65-71 | The filter becomes empty, so the display is every reference of the profile. |
| LegacyListData.AssetsListData.ApplyFilter | Editor/PinnedAssetsListData.cs:77-81 | Stores the filter and refreshes. |
| LegacyListData.AssetsListData.AddRange | Editor/PinnedAssetsListData.cs:116-129 | A null collection throws. Otherwise each asset is added in order, stopping at a throw, and then the list is refreshed. |
| LegacyListData.AssetsListData.Add | Editor/PinnedAssetsListData.cs:135-139 | Adds at the end, then refreshes. |
| LegacyListData.AssetsListData.RemoveRange | Editor/PinnedAssetsListData.cs:146-159 | A null collection throws. Otherwise each asset is removed, then the list is refreshed. |
| LegacyListData.AssetsListData.RemoveAtIndex | Editor/PinnedAssetsListData.cs:165-168 | Removes from the profile (or throws), but the display is unchanged: it still shows the removed asset. |
| LegacyListData.AssetsListData.Remove | Editor/PinnedAssetsListData.cs:174-178 | Removes the entry loading the asset, then refreshes. |
| Store.NatToString | Editor/PinnedAssets.cs:40 | Formats the count as a non-empty string of decimal digits. |
| Store.NatToStringInjective | Editor/PinnedAssets.cs:40 | Distinct counts are formatted differently. |
| Store.DefaultNamesDistinct | Editor/PinnedAssets.cs:38-41 | "New Profile n" names are equal iff their counts are. |
| Store.NameIndex | Editor/PinnedAssets.cs:62-67 | `List.Remove` finds the first profile whose name equals the given one, or -1 when no name matches. |
| Store.NameIndexMatchesEquals | Editor/PinnedAssets.cs:67 | The position `List.Remove` finds with the profiles' `Equals` is `NameIndex` of the name: the first profile `Equals` accepts, or -1 exactly when none does. |
| Store.DeletedSpec | Editor/PinnedAssets.cs:55-68 | Deleting changes nothing iff no profile has the name. Otherwise exactly the first namesake is removed, the others keep their order, and the multiset loses just that profile. |
| Store.DeleteRemovesEarlierNamesake | Editor/PinnedAssets.cs:67 | When an earlier profile shares the name of the one passed in, the earlier one is deleted and the one passed in stays. |
| Store.ProfileStore.constructor | Editor/PinnedAssets.cs:17-20 | A fresh store holds exactly one profile, named "Default", with no entries. |
| Store.ProfileStore.GetProfile | Editor/PinnedAssets.cs:28-36 | As written: in range, returns `profiles[i]`; below 0 or above the count, returns `profiles[0]`; at the count, or on an empty store, throws. |
| Store.ProfileStore.GetProfileOrFirst | Editor/PinnedAssets.cs:28-36 | With the guard `i >= Count`: every out-of-range index gives the first profile. It throws only on an empty store. |
| Store.GetProfileAtCount | Editor/PinnedAssets.cs:30 | The as-written guard throws at `i == Count`, where the corrected one returns the first profile. |
| Store.GetProfileGuardsAgree | Editor/PinnedAssets.cs:30 | At every other index the two guards agree. |
| Store.ProfileStore.GetProfileByID | Editor/PinnedAssetsController.cs:66-69 | Returns a profile of the store with that id. Returns null exactly when none has it. |
| Store.ProfileStore.SetActiveProfile | Editor/PinnedAssetsController.cs:60 | Records the active id. |
| Store.ProfileStore.CreateProfileNamed | Editor/PinnedAssets.cs:43-53 | Appends one fresh, empty profile with that name. The earlier profiles are unchanged. |
| Store.ProfileStore.CreateProfile | Editor/PinnedAssets.cs:38-41 | As above, named "New Profile n" with n the count before adding. |
| Store.ProfileStore.DeleteProfile | Editor/PinnedAssets.cs:55-68 | Null throws with nothing changed. Otherwise the store becomes `Deleted(old profiles, name)`, which can empty it. |
| Editors.Clamp | Editor/PinnedAssets.cs:147 | `Mathf.Clamp` returns min below min, max above max, and the value in range. With min <= max the result is in range. |
| Editors.ProfileEditor.OnEnable | Editor/PinnedAssets.cs:88-91 | Loads the first profile. An empty store throws. |
| Editors.ProfileEditor.SelectProfile | Editor/PinnedAssets.cs:124-129 | Stores the popup index and loads that profile, or the first one for an index out of range. |
| Editors.ProfileEditor.CreateProfileButton | Editor/PinnedAssets.cs:119-122 | The new default-named profile becomes the edited one. The popup index is left unchanged. |
| Editors.ProfileEditor.RenameCurrent | Editor/PinnedAssets.cs:131-136 | Renames the edited profile: a null or empty name is ignored. Its id and entries stay as they were. No edited profile throws. |
| Editors.ProfileEditor.DeleteCurrentProfile | Editor/PinnedAssets.cs:140-150 | With one profile the button is disabled and nothing changes. Otherwise the edited profile is deleted by name. The index is clamped into the shrunk list, and the profile there is loaded. An emptied store throws, with the index clamped and the edited profile kept. No edited profile throws with nothing changed. |
| Editors.ProfileEditor.GetProfileNames | Editor/PinnedAssets.cs:287-297 | Has the same length and order as the profiles, with position i holding profile i's name. |
| Editors.DeleteKeepsSelectionValid | Editor/PinnedAssets.cs:140-148 | Deleting a present name from two or more profiles leaves one fewer profile, and the clamped index is in range. |
| Controllers.CanShowAsset | Editor/PinnedAssetsController.cs:144-151 | A null asset or a null filter throws. Otherwise the asset shows iff its lower-cased name or type name contains the lower-cased, trimmed filter. |
| Controllers.BlankFilterShowsEverything | Editor/PinnedAssetsController.cs:144-151 | An empty or blank filter shows every asset. |
| Controllers.LabelsOf | Editor/PinnedAssetsController.cs:153-156 | One label per entry, in order, each carrying its own entry's id and asset. |
| Controllers.ActiveLabelsSpec | Editor/PinnedAssetsController.cs:130-142 | The display is the labels of an order-preserving subsequence of the profile. It holds exactly the entries whose asset matches the query. A blank filter shows every entry. |
| Controllers.MissingAssetFailsDisplay | Editor/PinnedAssetsController.cs:133-148 | One missing asset, or a null filter, makes the whole display computation throw. |
| Controllers.AllLoadedDisplay | Editor/PinnedAssetsController.cs:130-142 | When every asset loads, the display is the labels of the matching entries. |
| Controllers.LabelsStep | Editor/PinnedAssetsController.cs:133-139 | Each step of the walk appends the entry's label exactly when the entry is shown. |
| Controllers.Controller.HasFilter | Editor/PinnedAssetsController.cs:32 | True iff the store's filter is non-null and non-empty. |
| Controllers.UnfilteredShowsWholeProfile | Editor/PinnedAssetListView.cs:51-55 | Without a filter a successful display shows every entry of the profile in order, so row i is entry i. This is why rows can be dragged, and their indices passed to `MoveAsset`, only then. |
| Controllers.Controller.GetFilteredActiveAssets | Editor/PinnedAssetsController.cs:130-142 | A null active profile throws. Otherwise the loop yields `ActiveLabels` of the profile, whose meaning is `ActiveLabelsSpec`. |
| Controllers.Controller.UpdateAssetList | Editor/PinnedAssetsController.cs:117-121 | Replaces the displayed labels. A throw leaves them as they were. |
| Controllers.Controller.SetActiveProfileInternal | Editor/PinnedAssetsController.cs:58-64 | A null profile throws. Otherwise its lazily made id becomes the store's active id, it becomes the active profile, and the display is recomputed. |
| Controllers.Controller.SetActiveProfile | Editor/PinnedAssetsController.cs:48-56 | Only the re-selected profile's id may change. The argument is ignored. The profile with the current active id is selected again, as `SetActiveProfileInternal` does: its lazily made id becomes the active id (so a non-empty active id is unchanged), it becomes the active profile, and the display is recomputed. No such profile throws with nothing changed. |
| Controllers.Controller.CreateNewProfile | Editor/PinnedAssetsController.cs:43-46 | The new default-named profile is appended and becomes active. The active id becomes its id, and the display is empty. |
| Controllers.Controller.SetFilter | Editor/PinnedAssetsController.cs:73-77 | Stores the filter and recomputes the display. |
| Controllers.Controller.AddActiveAssets | Editor/PinnedAssetsController.cs:84-96 | See the cases below. |
| Controllers.Controller.RemoveActiveAsset | Editor/PinnedAssetsController.cs:105-109 | Removes the first entry with that id (an unknown id changes nothing), then recomputes the display. |
| Controllers.Controller.MoveAsset | Editor/PinnedAssetsController.cs:111-115 | Moves as `Profile.Move` does, including the removal a bad new index leaves behind. A throw skips the recompute. |
| Processor.MovesAreRealMoves | Editor/PinnedAssetsManager.cs:29-52 | The move notices are exactly the index pairs whose source and destination differ, in index order. |
| Processor.MovesAreAllMoves | Editor/PinnedAssetsManager.cs:44-52 | Every move notice names two different paths. None is an "after process" notice. |
| Processor.MovesNonEmptyIff | Editor/PinnedAssetsManager.cs:29-52 | Some move notice fires iff some pair's paths differ. |
| Processor.AssetProcessor.GetMovedAsset | Editor/PinnedAssetsManager.cs:44-53 | Equal paths fire nothing and leave the flag alone. Different paths fire one move notice and set the flag. |
| Processor.AssetProcessor.OnPostprocessAllAssets | Editor/PinnedAssetsManager.cs:27-42 | See the cases below. |
| Processor.AfterProcessAtMostOnce | Editor/PinnedAssetsManager.cs:37-41 | A batch fires "after process" at most once: exactly once when it moved something or the flag was already set. |
| Processor.CountConcat | Editor/PinnedAssetsManager.cs:37-41 | Counting notices is additive over concatenated traces. |

The members whose contracts split into several cases:

- `Filtering.GetFilteredAssets`:
  - null input gives null;
  - a null or empty query returns the input itself;
  - otherwise the loop returns exactly the matching assets in order, and any null asset throws a null reference.
- `Profiles.Profile.Move`:
  - equal indices return false and change nothing;
  - a bad old index throws with the list unchanged;
  - a bad new index throws after the entry was removed;
  - otherwise the result is the moved list, which is a permutation with the entry at the new index.
- `Controllers.Controller.AddActiveAssets`:
  - a null collection or a null active profile throws;
  - each asset goes to a `startIndex` that advances after every call, no-op or not, unless it is -1;
  - a throw keeps the earlier additions and skips the recompute.
- `Processor.AssetProcessor.OnPostprocessAllAssets`:
  - the trace gains the move notices in index order, then one "after process" if the flag was set or anything moved;
  - the flag is cleared on return;
  - fewer source paths than destinations throw partway, with no "after process".

## Left out

- IMGUI drawing, layout, dialogs, drag and drop, selection, and the text truncation that measures widths with floating-point ratios.
- Unity's asset database: paths, loading, `SaveAssets`. It is replaced by the `db` map from GUID to asset. An object's GUID is its `guid` field.
- `Guid.NewGuid()` is a parameter. Freshness and uniqueness of the ids are assumed only where a lemma states them as a precondition.
- The static events (`OnProfileChange`, `OnAssetsChanged`, `OnAssetMoved`, `OnAfterProcess`) have no subscribers here. The processor's events are an appended trace; the display lists' events are not recorded.
- The controller's instance events `OnProfileChanged` and `OnAssetsChanged`, raised after a profile switch and after a display update, are not recorded either (they only notify the window).
- `Debug.LogWarning` in `DeleteProfile` (logging only).
- `Text.ToLower`: lower-cases ASCII letters only, not culture-sensitive case mapping. `Text.IsWhiteSpace` covers the ASCII white-space characters only.
- `ListData.AssetListData.SetProfile`, `ListData.AssetListData.SetProfileProperty`, `LegacyListData.AssetsListData.SetProfile` and `LegacyListData.AssetsListData.SetProfileProperty` take a non-null profile. The `profile` field of both list classes is never null. In the code, setting a null profile stores it, and the refresh that follows throws a null reference when it reads the profile's assets. That path, and every later call on a list with no profile, is not modelled.
- Null strings are modelled only where the code tests for them: filters, queries, ids and `SetName`'s argument. Profile names and paths are never null here, so `CreateProfile(null)` and `source.Equals` on a null path are not modelled.
- `Profiles.Profile.RemoveAssetObject`: the profile shown has no `RemoveAsset(Object)`, which the list classes call. It is modelled as a lookup with `IndexOf(Object)` followed by `RemoveAsset(int)`.
- `Store.ProfileStore.GetProfileByID`, `SetActiveProfile`, `activeProfileId` and `filter`: the controller calls store members that the store class shown does not define. They are modelled as:
  - a field holding the active id;
  - a field holding the filter text, initially empty;
  - a lookup of the first profile whose id field matches.
- `Controllers.Controller.constructor`: only the field assignments are modelled. The constructor's call to `SetActiveProfile` is the separate method `SetActiveProfile`.
- The profiles' lazy `ID` is compared through the stored field in `GetProfileByID`, so a profile whose id field is empty is found only by the empty id.
- The label's drawn content (`GUIContent`, icon and tooltip) is left out. A label keeps its entry's id and asset.
- `SelectActiveAssetsFromReorderable` and `GetActiveAsset` (selection and GUI access).
- `Editors.ProfileEditor.SelectProfile` loads through the corrected guard `GetProfileOrFirst`. The popup only offers indices below the count, where the two guards agree (`Store.GetProfileGuardsAgree`).
- The editor's `DrawAssets` loop and its `i--` retry after a removal are GUI code. Its filtering is `Filtering.GetFilteredAssets`.

## Findings

| source | as written | input that shows it | evidently intended | confidence | as-written member | corrected member |
|---|---|---|---|---|---|---|
| Editor/PinnedAssets.cs:30 | The fallback guard is `i < 0 \|\| i > profiles.Count`, so `i == Count` reaches `profiles[i]`, which throws `ArgumentOutOfRangeException`. | A store with one profile and `GetProfile(1)`. | Every index outside 0..Count-1 falls back to the first profile (`i >= profiles.Count`). | high (not executed) | Store.ProfileStore.GetProfile, Store.GetProfileAtCount | Store.ProfileStore.GetProfileOrFirst |
