/** Assets, the asset database, and the pinned-asset entry (`PinnedAssetData`). */
module Assets {
  import opened Wrappers

  /** A project asset as the editor sees it: its GUID, its name and the name of its type. */
  datatype Asset = Asset(guid: string, name: string, typeName: string)

  /** A Unity object reference; `None` is a null or missing asset. */
  type Obj = Option<Asset>

  /** The asset database, from GUID to the asset stored under it. */
  type Database = map<string, Asset>

  /** Loading the asset a GUID names; `None` when nothing is stored under it. */
  function Resolve(db: Database, guid: string): Obj
  {
    if guid in db then Some(db[guid]) else None
  }

  /** The GUID the database reports for an asset's path. */
  function GuidOf(a: Asset): string
  {
    a.guid
  }

  /** Every asset is stored under its own GUID. */
  predicate Consistent(db: Database)
  {
    forall g :: g in db ==> db[g].guid == g
  }

  /** A pinned asset: an entry id and the GUID of the asset it refers to. */
  datatype Entry = Entry(id: string, guid: string)

  /** `PinnedAssetData.Equals(PinnedAssetData other)`: a null entry is never equal; otherwise the GUIDs decide. */
  function EqualsEntry(e: Entry, other: Option<Entry>): (r: bool)
    ensures other.None? ==> !r
  {
    other.Some? && e.guid == other.value.guid
  }

  /** `PinnedAssetData.Equals(Object other)`: a null object is never equal; otherwise the object's GUID is compared with the stored one. */
  function EqualsObject(e: Entry, other: Obj): (r: bool)
    ensures other.None? ==> !r
    ensures other.Some? ==> (r <==> e.guid == GuidOf(other.value))
  {
    other.Some? && e.guid == GuidOf(other.value)
  }

  /** Entries are equal exactly when their GUIDs are, whatever their ids; hence equality is reflexive, symmetric and transitive. */
  lemma EntryEqualityByGuid(a: Entry, b: Entry, c: Entry)
    ensures EqualsEntry(a, Some(b)) <==> a.guid == b.guid
    ensures EqualsEntry(a, Some(a))
    ensures EqualsEntry(a, Some(b)) == EqualsEntry(b, Some(a))
    ensures EqualsEntry(a, Some(b)) && EqualsEntry(b, Some(c)) ==> EqualsEntry(a, Some(c))
  {
  }

  /** Both overloads come down to the same GUID comparison: an entry equals an asset exactly
      when it equals the entry built from that asset's GUID, whatever either id is. */
  lemma EqualsOverloadsAgree(e: Entry, a: Asset, id: string)
    ensures EqualsObject(e, Some(a)) <==> EqualsEntry(e, Some(Entry(id, GuidOf(a))))
  {
  }

  /** An entry built from an asset's GUID equals that asset, and in a consistent database
      the GUID it stores loads an asset equal to it. */
  lemma EntryForAsset(db: Database, id: string, a: Asset)
    requires Consistent(db)
    ensures EqualsObject(Entry(id, GuidOf(a)), Some(a))
    ensures Resolve(db, Entry(id, GuidOf(a)).guid).Some? ==> EqualsObject(Entry(id, GuidOf(a)), Resolve(db, GuidOf(a)))
  {
  }

  /** `PinnedProfileData.Assets` seen as `Object[]`: each entry loaded from the database. */
  function Objects(s: seq<Entry>, db: Database): (r: seq<Obj>)
    ensures |r| == |s|
    ensures forall i :: 0 <= i < |s| ==> r[i] == Resolve(db, s[i].guid)
  {
    seq(|s|, i requires 0 <= i < |s| => Resolve(db, s[i].guid))
  }

  /** No reference in the list is null. */
  predicate NoMissing(objs: seq<Obj>)
  {
    forall i :: 0 <= i < |objs| ==> objs[i].Some?
  }

  /** The entry's GUID loads an asset. */
  function IsResolved(db: Database): Entry -> bool
  {
    (e: Entry) => Resolve(db, e.guid).Some?
  }

  /** The entry's GUID loads exactly `o` (Unity's `==` on objects; null matches a missing asset). */
  function ResolvesTo(db: Database, o: Obj): Entry -> bool
  {
    (e: Entry) => Resolve(db, e.guid) == o
  }

  /** The entry has the given id. */
  function HasId(id: string): Entry -> bool
  {
    (e: Entry) => e.id == id
  }
}
