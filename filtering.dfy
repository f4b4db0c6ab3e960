/** The text filter shared by every display list: an asset is shown when its lower-cased
    name or type name contains the lower-cased, trimmed query. */
module Filtering {
  import opened Wrappers
  import opened Seqs
  import opened Text
  import opened Assets

  /** The name or the type name contains the (already normalised) query. */
  predicate Matches(a: Asset, q: string)
  {
    Contains(ToLower(a.name), q) || Contains(ToLower(a.typeName), q)
  }

  function Shows(q: string): Obj -> bool
  {
    (o: Obj) => o.Some? && Matches(o.value, q)
  }

  /** The assets a normalised query shows, in list order. */
  function Filtered(objs: seq<Obj>, q: string): seq<Obj>
  {
    Filter(objs, Shows(q))
  }

  /** `HasValidFilter`: the filter is neither null, empty nor white space only, that is,
      it is non-null and its normalised query is non-empty. */
  predicate HasValidFilter(filter: Option<string>): (r: bool)
    ensures r <==> filter.Some? && Query(filter.value) != ""
  {
    if filter.Some? then
      QueryEmptyIffWhiteSpace(filter.value);
      !IsNullOrWhiteSpace(filter)
    else
      false
  }

  /** `GetFilteredAssets(Object[] assets, string query)` (the editor's `GetFilertedAssets`):
      null in, null out; a null or empty query returns the array itself; otherwise the
      loop keeps the matching assets and dereferences every element, so a null one throws. */
  method GetFilteredAssets(assets: Option<seq<Obj>>, query: Option<string>) returns (r: Result<Option<seq<Obj>>>)
    ensures assets.None? ==> r == Ok(None)
    ensures assets.Some? && IsNullOrEmpty(query) ==> r == Ok(assets)
    ensures assets.Some? && !IsNullOrEmpty(query) && NoMissing(assets.value) ==>
              r == Ok(Some(Filtered(assets.value, Query(query.value))))
    ensures assets.Some? && !IsNullOrEmpty(query) && !NoMissing(assets.value) ==>
              r == Raised(NullReference)
  {
    if assets.None? {
      return Ok(None);
    }
    if IsNullOrEmpty(query) {
      return Ok(assets);
    }
    var q := Query(query.value);
    var list := assets.value;
    var kept: seq<Obj> := [];
    var i := 0;
    while i < |list|
      invariant 0 <= i <= |list|
      invariant NoMissing(list[..i])
      invariant kept == Filtered(list[..i], q)
    {
      var asset := list[i];
      if asset.None? {
        return Raised(NullReference);
      }
      if Matches(asset.value, q) {
        kept := kept + [asset];
      }
      FilterSnoc(list[..i], asset, Shows(q));
      assert list[..i + 1] == list[..i] + [asset];
      i := i + 1;
    }
    assert list[..i] == list;
    return Ok(Some(kept));
  }

  /** The filtered list is an order-preserving subsequence of the input, and an asset is in
      it exactly when it is non-null and its name or type name contains the query. */
  lemma FilteredSpec(objs: seq<Obj>, q: string)
    ensures IsSubsequence(Filtered(objs, q), objs)
    ensures forall i :: 0 <= i < |Filtered(objs, q)| ==>
              Filtered(objs, q)[i] in objs && Filtered(objs, q)[i].Some? && Matches(Filtered(objs, q)[i].value, q)
    ensures forall i :: 0 <= i < |objs| && objs[i].Some? && Matches(objs[i].value, q) ==> objs[i] in Filtered(objs, q)
  {
    FilterIsSubsequence(objs, Shows(q));
    FilterMembers(objs, Shows(q));
  }

  /** The empty query shows every asset. */
  lemma EmptyQueryShowsAll(objs: seq<Obj>)
    requires NoMissing(objs)
    ensures Filtered(objs, "") == objs
  {
    forall i | 0 <= i < |objs| ensures Shows("")(objs[i]) {
      ContainsEmpty(ToLower(objs[i].value.name));
    }
    FilterKeepsAll(objs, Shows(""));
  }

  /** A search of white space only passes the empty-string test but trims to the empty
      query, so it shows every asset. */
  lemma BlankSearchShowsAll(objs: seq<Obj>, search: string)
    requires search != "" && IsNullOrWhiteSpace(Some(search))
    requires NoMissing(objs)
    ensures !IsNullOrEmpty(Some(search))
    ensures Filtered(objs, Query(search)) == objs
  {
    QueryEmptyIffWhiteSpace(search);
    EmptyQueryShowsAll(objs);
  }

  /** Filtering an already filtered list with the same query changes nothing. */
  lemma FilteredIdempotent(objs: seq<Obj>, q: string)
    ensures Filtered(Filtered(objs, q), q) == Filtered(objs, q)
  {
    FilterIdempotent(objs, Shows(q));
  }
}
