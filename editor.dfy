/** The bookkeeping of the store's inspector (`PinnedAssetsEditor`): the selected popup
    index, the profile being edited, and the profile-name list the popup shows. */
module Editors {
  import opened Wrappers
  import opened Profiles
  import opened Store

  /** `Mathf.Clamp(int value, int min, int max)`: below `min` gives `min`, otherwise above
      `max` gives `max`. */
  function Clamp(value: int, min: int, max: int): (r: int)
    ensures min <= max ==> min <= r <= max
    ensures min <= value <= max ==> r == value
    ensures value < min ==> r == min
    ensures min <= value && max < value ==> r == max
  {
    if value < min then min else if value > max then max else value
  }

  class ProfileEditor {
    const target: ProfileStore
    var profileIndex: int
    var currentProfile: Profile?

    /** An inspector over `target`, with the first popup entry selected and no profile loaded. */
    constructor (target: ProfileStore)
      ensures this.target == target && profileIndex == 0 && currentProfile == null
    {
      this.target := target;
      profileIndex := 0;
      currentProfile := null;
    }

    /** `OnEnable`: loads the first profile through `GetProfile(0)`. */
    method OnEnable() returns (r: Outcome)
      modifies this`currentProfile
      ensures |target.profiles| > 0 ==> r == Done && currentProfile == target.profiles[0]
      ensures |target.profiles| == 0 ==> r == Failed(ArgumentOutOfRange) && currentProfile == old(currentProfile)
    {
      var p := target.GetProfile(0);
      if p.Raised? {
        return Failed(p.error);
      }
      currentProfile := p.value;
      return Done;
    }

    /** Choosing popup entry `index`: the index is kept and its profile loaded, through the
        corrected guard (the popup only offers indices below the count, where both agree). */
    method SelectProfile(index: int) returns (r: Outcome)
      modifies this`profileIndex, this`currentProfile
      ensures profileIndex == index
      ensures 0 <= index < |target.profiles| ==> r == Done && currentProfile == target.profiles[index]
      ensures !(0 <= index < |target.profiles|) && |target.profiles| > 0 ==> r == Done && currentProfile == target.profiles[0]
      ensures |target.profiles| == 0 ==> r == Failed(ArgumentOutOfRange) && currentProfile == old(currentProfile)
    {
      profileIndex := index;
      var p := target.GetProfileOrFirst(index);
      if p.Raised? {
        return Failed(p.error);
      }
      currentProfile := p.value;
      return Done;
    }

    /** The "+" button: a new default-named profile becomes the edited one; the popup index
        is left as it was. */
    method CreateProfileButton(newGuid: string)
      modifies target`profiles, this`currentProfile
      ensures fresh(currentProfile) && target.profiles == old(target.profiles) + [currentProfile]
      ensures currentProfile.name == DefaultName(|old(target.profiles)|) && currentProfile.entries == []
      ensures profileIndex == old(profileIndex)
    {
      currentProfile := target.CreateProfile(newGuid);
    }

    /** The name field: renames the edited profile (a null or empty name is ignored). */
    method RenameCurrent(name: Option<string>) returns (r: Outcome)
      modifies currentProfile
      ensures currentProfile == null ==> r == Failed(NullReference)
      ensures currentProfile != null ==>
                r == Done && currentProfile.entries == old(currentProfile.entries) && currentProfile.id == old(currentProfile.id)
      ensures currentProfile != null && (name.None? || name.value == "") ==> currentProfile.name == old(currentProfile.name)
      ensures currentProfile != null && name.Some? && name.value != "" ==> currentProfile.name == name.value
    {
      if currentProfile == null {
        return Failed(NullReference);
      }
      currentProfile.SetName(name);
      return Done;
    }

    /** The delete button after confirmation: disabled while exactly one profile exists;
        otherwise deletes the edited profile (by name), clamps the popup index into the
        shrunk list and loads the profile there, which throws when no profile is left. */
    method DeleteCurrentProfile() returns (r: Outcome)
      modifies target`profiles, this`profileIndex, this`currentProfile
      ensures |old(target.profiles)| == 1 ==>
                r == Done && target.profiles == old(target.profiles) && profileIndex == old(profileIndex) && currentProfile == old(currentProfile)
      ensures |old(target.profiles)| != 1 && old(currentProfile) == null ==>
                && r == Failed(NullReference) && target.profiles == old(target.profiles)
                && profileIndex == old(profileIndex) && currentProfile == null
      ensures |old(target.profiles)| != 1 && old(currentProfile) != null ==>
                && target.profiles == old(Deleted(target.profiles, currentProfile.name))
                && (|target.profiles| > 0 ==>
                      && r == Done
                      && profileIndex == Clamp(old(profileIndex), 0, |target.profiles| - 1)
                      && 0 <= profileIndex < |target.profiles|
                      && currentProfile == target.profiles[profileIndex])
                && (|target.profiles| == 0 ==>
                      && r == Failed(IndexOutOfRange)
                      && profileIndex == Clamp(old(profileIndex), 0, -1)
                      && currentProfile == old(currentProfile))
    {
      if |target.profiles| == 1 {
        return Done;
      }
      r := target.DeleteProfile(currentProfile);
      if r.Failed? {
        return;
      }
      profileIndex := Clamp(profileIndex, 0, |target.profiles| - 1);
      if !(0 <= profileIndex < |target.profiles|) {
        return Failed(IndexOutOfRange);
      }
      currentProfile := target.profiles[profileIndex];
      return Done;
    }

    /** `GetProfileNames`: the popup labels, one per profile, in order. */
    method GetProfileNames() returns (names: seq<string>)
      ensures names == Names(target.profiles)
    {
      names := [];
      var i := 0;
      while i < |target.profiles|
        invariant 0 <= i <= |target.profiles|
        invariant names == Names(target.profiles[..i])
      {
        names := names + [target.profiles[i].name];
        i := i + 1;
      }
      assert target.profiles[..i] == target.profiles;
    }
  }

  /** After deleting from a store of at least two profiles that holds the edited profile's
      name, the inspector again edits a profile that is in the store. */
  lemma DeleteKeepsSelectionValid(ps: seq<Profile>, name: string, index: int)
    requires |ps| >= 2 && NameIndex(ps, name) != -1
    ensures var rest := Deleted(ps, name);
            |rest| == |ps| - 1 && 0 <= Clamp(index, 0, |rest| - 1) < |rest|
  {
    DeletedSpec(ps, name);
  }
}
