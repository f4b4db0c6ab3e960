/** The profile store (`PinnedAssetsData`): the list of profiles, plus the active profile id
    and the filter text that the controller keeps on it. */
module Store {
  import opened Wrappers
  import opened Seqs
  import opened Assets
  import opened Profiles

  /** The decimal digits of `n`, most significant first, as `int.ToString()` writes them. */
  function NatToString(n: nat): (r: string)
    ensures |r| >= 1
    ensures forall i :: 0 <= i < |r| ==> '0' <= r[i] <= '9'
    decreases n
  {
    if n < 10 then [Digit(n)] else NatToString(n / 10) + [Digit(n % 10)]
  }

  function Digit(d: nat): (c: char)
    requires d < 10
    ensures '0' <= c <= '9'
  {
    "0123456789"[d]
  }

  /** A single digit prints as one character, a larger count as at least two. */
  lemma NatToStringLength(n: nat)
    ensures n < 10 <==> |NatToString(n)| == 1
  {
    if n >= 10 {
      assert |NatToString(n)| == |NatToString(n / 10)| + 1;
    }
  }

  lemma DigitInjective(a: nat, b: nat)
    requires a < 10 && b < 10 && Digit(a) == Digit(b)
    ensures a == b
  {
  }

  /** Distinct counts print differently. */
  lemma {:induction false} NatToStringInjective(n: nat, m: nat)
    requires NatToString(n) == NatToString(m)
    ensures n == m
    decreases n
  {
    NatToStringLength(n);
    NatToStringLength(m);
    if n < 10 {
      DigitInjective(n, m);
    } else {
      var a, b := NatToString(n / 10), NatToString(m / 10);
      var s := NatToString(n);
      assert s == a + [Digit(n % 10)] && s == b + [Digit(m % 10)];
      assert a == s[..|s| - 1] == b;
      DigitInjective(n % 10, m % 10);
      NatToStringInjective(n / 10, m / 10);
      assert n == 10 * (n / 10) + n % 10;
      assert m == 10 * (m / 10) + m % 10;
    }
  }

  /** The name `CreateProfile()` gives the profile it adds when `count` profiles exist. */
  function DefaultName(count: nat): string
  {
    "New Profile " + NatToString(count)
  }

  /** Default names made at different counts differ. */
  lemma DefaultNamesDistinct(n: nat, m: nat)
    ensures DefaultName(n) == DefaultName(m) <==> n == m
  {
    if DefaultName(n) == DefaultName(m) {
      var p := "New Profile ";
      assert NatToString(n) == DefaultName(n)[|p|..] == DefaultName(m)[|p|..] == NatToString(m);
      NatToStringInjective(n, m);
    }
  }

  /** The profiles' names, in order. */
  function Names(ps: seq<Profile>): (r: seq<string>)
    reads ps
    ensures |r| == |ps|
    ensures forall i :: 0 <= i < |ps| ==> r[i] == ps[i].name
  {
    seq(|ps|, i requires 0 <= i < |ps| reads ps => ps[i].name)
  }

  /** The profiles' id fields, in order. */
  function Ids(ps: seq<Profile>): (r: seq<string>)
    reads ps
    ensures |r| == |ps|
    ensures forall i :: 0 <= i < |ps| ==> r[i] == ps[i].id
  {
    seq(|ps|, i requires 0 <= i < |ps| reads ps => ps[i].id)
  }

  /** The test for strings equal to `s`. */
  function EqualTo(s: string): string -> bool
  {
    (t: string) => t == s
  }

  /** The position `List.Remove` and `List.Contains` find for a profile: the first one whose
      name equals `name`, since profiles compare by name; -1 when there is none. */
  function NameIndex(ps: seq<Profile>, name: string): (r: int)
    reads ps
    ensures -1 <= r < |ps|
    ensures r >= 0 ==> ps[r].name == name && forall j :: 0 <= j < r ==> ps[j].name != name
    ensures r == -1 ==> forall j :: 0 <= j < |ps| ==> ps[j].name != name
  {
    var names := Names(ps);
    var r := FirstIndex(names, EqualTo(name));
    assert r >= 0 ==> EqualTo(name)(names[r]);
    assert forall j :: 0 <= j < |ps| && (r == -1 || j < r) ==> !EqualTo(name)(names[j]);
    r
  }

  /** `List.Remove(p)` compares with the profiles' own `Equals`, which goes by name, so the
      position `NameIndex` finds for `p.name` is the first profile that `Equals` accepts,
      and -1 exactly when none does. */
  lemma NameIndexMatchesEquals(ps: seq<Profile>, p: Profile)
    ensures NameIndex(ps, p.name) == -1 <==> forall j :: 0 <= j < |ps| ==> !ps[j].Equals(p)
    ensures var k := NameIndex(ps, p.name);
            k >= 0 ==> ps[k].Equals(p) && forall j :: 0 <= j < k ==> !ps[j].Equals(p)
  {
  }

  /** The profile list after `DeleteProfile` of a profile called `name`. */
  function Deleted(ps: seq<Profile>, name: string): seq<Profile>
    reads ps
  {
    var k := NameIndex(ps, name);
    if k == -1 then ps else RemoveAt(ps, k)
  }

  /** Deleting removes exactly one profile when some profile bears the name (the first
      such), and nothing otherwise; the rest keep their order. */
  lemma DeletedSpec(ps: seq<Profile>, name: string)
    ensures var r := Deleted(ps, name);
            && (NameIndex(ps, name) == -1 <==> r == ps)
            && (NameIndex(ps, name) != -1 ==>
                  var k := NameIndex(ps, name);
                  && |r| == |ps| - 1
                  && ps[k].name == name
                  && InsertAt(r, k, ps[k]) == ps
                  && multiset(r) + multiset{ps[k]} == multiset(ps))
  {
    var k := NameIndex(ps, name);
    if k != -1 {
      InsertRemovedRestores(ps, k);
      MultisetRemoveAt(ps, k);
    }
  }

  /** Name-based equality means deleting a profile that shares its name with an earlier
      one removes the earlier one and keeps the one passed in. */
  lemma DeleteRemovesEarlierNamesake(ps: seq<Profile>, i: nat, j: nat)
    requires i < j < |ps| && ps[i].name == ps[j].name
    requires forall k :: 0 <= k < i ==> ps[k].name != ps[i].name
    ensures Deleted(ps, ps[j].name) == RemoveAt(ps, i)
    ensures ps[j] in Deleted(ps, ps[j].name)
  {
    assert Deleted(ps, ps[j].name)[j - 1] == ps[j];
  }

  class ProfileStore {
    var profiles: seq<Profile>
    /** `ActiveProfileID`, read and set by the controller. */
    var activeProfileId: string
    /** `Filter`, read and set by the controller; `None` is a null string. */
    var filter: Option<string>

    /** A new store holds one profile, "Default", with a fresh GUID and no entries. */
    constructor (newGuid: string)
      ensures |profiles| == 1 && fresh(profiles[0])
      ensures profiles[0].name == "Default" && profiles[0].id == newGuid && profiles[0].entries == []
      ensures activeProfileId == "" && filter == Some("")
    {
      var p := new Profile("Default", newGuid);
      profiles := [p];
      activeProfileId := "";
      filter := Some("");
    }

    /** `GetProfile(int i)` as written: an index below 0 or above the count falls back to the
        first profile, but the guard lets `i == Count` through to the list indexer, which
        throws; with no profiles every index throws. */
    function GetProfile(i: int): (r: Result<Profile>)
      reads this
      ensures 0 <= i < |profiles| ==> r == Ok(profiles[i])
      ensures (i < 0 || i > |profiles|) && |profiles| > 0 ==> r == Ok(profiles[0])
      ensures i == |profiles| || |profiles| == 0 ==> r == Raised(ArgumentOutOfRange)
    {
      if i < 0 || i > |profiles| then
        if |profiles| == 0 then Raised(ArgumentOutOfRange) else Ok(profiles[0])
      else if i < |profiles| then Ok(profiles[i])
      else Raised(ArgumentOutOfRange)
    }

    /** `GetProfile` with the guard `i >= Count`: every index out of range falls back to the
        first profile, so it throws only when there are no profiles. */
    function GetProfileOrFirst(i: int): (r: Result<Profile>)
      reads this
      ensures r.Raised? <==> |profiles| == 0
      ensures r.Raised? ==> r.error == ArgumentOutOfRange
      ensures r.Ok? ==> r.value in profiles
      ensures 0 <= i < |profiles| ==> r == Ok(profiles[i])
      ensures !(0 <= i < |profiles|) && |profiles| > 0 ==> r == Ok(profiles[0])
    {
      if i < 0 || i >= |profiles| then
        if |profiles| == 0 then Raised(ArgumentOutOfRange) else Ok(profiles[0])
      else Ok(profiles[i])
    }

    /** `GetProfileByID`: the first profile whose id is `id`, or null. */
    function GetProfileByID(id: string): (r: Profile?)
      reads this, profiles
      ensures r != null ==> r in profiles && r.id == id
      ensures r == null <==> forall j :: 0 <= j < |profiles| ==> profiles[j].id != id
    {
      var ids := Ids(profiles);
      var k := FirstIndex(ids, EqualTo(id));
      assert k >= 0 ==> EqualTo(id)(ids[k]);
      assert forall j :: 0 <= j < |profiles| && k == -1 ==> !EqualTo(id)(ids[j]);
      if k == -1 then null else profiles[k]
    }

    /** `SetActiveProfile(string id)`: records the active profile's id. */
    method SetActiveProfile(id: string)
      modifies this`activeProfileId
      ensures activeProfileId == id
    {
      activeProfileId := id;
    }

    /** `CreateProfile(string name)`: appends one new, empty profile with that name (the
        extra `SetName` call changes nothing), leaving the earlier profiles in place. */
    method CreateProfileNamed(name: string, newGuid: string) returns (p: Profile)
      modifies this`profiles
      ensures fresh(p) && p.name == name && p.id == newGuid && p.entries == []
      ensures profiles == old(profiles) + [p]
    {
      p := new Profile(name, newGuid);
      p.SetName(Some(name));
      profiles := profiles + [p];
    }

    /** `CreateProfile()`: as above, named "New Profile n" where n is the count before adding. */
    method CreateProfile(newGuid: string) returns (p: Profile)
      modifies this`profiles
      ensures fresh(p) && p.name == DefaultName(|old(profiles)|) && p.id == newGuid && p.entries == []
      ensures profiles == old(profiles) + [p]
    {
      p := CreateProfileNamed(DefaultName(|profiles|), newGuid);
    }

    /** `DeleteProfile`: null throws; otherwise the first profile equal to it by name is
        removed, and nothing happens (beyond a logged warning) when there is none. Deleting
        the last profile is not prevented. */
    method DeleteProfile(p: Profile?) returns (r: Outcome)
      modifies this`profiles
      ensures p == null ==> r == Failed(NullReference) && profiles == old(profiles)
      ensures p != null ==> r == Done && profiles == old(Deleted(profiles, p.name))
    {
      if p == null {
        return Failed(NullReference);
      }
      var k := NameIndex(profiles, p.name);
      if k != -1 {
        profiles := RemoveAt(profiles, k);
      }
      return Done;
    }
  }

  /** The as-written guard rejects one index the corrected one accepts: `Count` itself. */
  lemma GetProfileAtCount(store: ProfileStore)
    requires |store.profiles| > 0
    ensures store.GetProfile(|store.profiles|) == Raised(ArgumentOutOfRange)
    ensures store.GetProfileOrFirst(|store.profiles|) == Ok(store.profiles[0])
  {
  }

  /** On every other index the two guards agree. */
  lemma GetProfileGuardsAgree(store: ProfileStore, i: int)
    requires i != |store.profiles|
    ensures store.GetProfile(i) == store.GetProfileOrFirst(i)
  {
  }
}
