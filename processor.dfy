/** The asset postprocessor of `PinnedAssetsManager`: it reports each real move Unity hands
    it and, when something was reported, one "after process" notice. Subscribers are left
    out; the events fired are recorded as a trace. */
module Processor {
  import opened Wrappers
  import opened Seqs

  /** An event fired: `OnAssetMoved(source, destination)` or `OnAfterProcess`. */
  datatype Notice = AssetMoved(source: string, destination: string) | AfterProcess

  /** The move notices for the first `n` pairs: pair i fires when its source and
      destination differ. */
  function Moves(moved: seq<string>, movedFrom: seq<string>, n: nat): seq<Notice>
    requires n <= |moved| && n <= |movedFrom|
  {
    if n == 0 then []
    else Moves(moved, movedFrom, n - 1) + (if movedFrom[n - 1] == moved[n - 1] then [] else [AssetMoved(movedFrom[n - 1], moved[n - 1])])
  }

  /** Every one of the first `n` pairs, as a notice. */
  function Pairs(moved: seq<string>, movedFrom: seq<string>, n: nat): (r: seq<Notice>)
    requires n <= |moved| && n <= |movedFrom|
    ensures |r| == n
    ensures forall i :: 0 <= i < n ==> r[i] == AssetMoved(movedFrom[i], moved[i])
  {
    seq(n, i requires 0 <= i < n => AssetMoved(movedFrom[i], moved[i]))
  }

  function IsRealMove(x: Notice): bool
  {
    x.AssetMoved? && x.source != x.destination
  }

  /** The move notices are exactly the pairs whose paths differ, in index order. */
  lemma {:induction false} MovesAreRealMoves(moved: seq<string>, movedFrom: seq<string>, n: nat)
    requires n <= |moved| && n <= |movedFrom|
    ensures Moves(moved, movedFrom, n) == Filter(Pairs(moved, movedFrom, n), IsRealMove)
  {
    if n > 0 {
      MovesAreRealMoves(moved, movedFrom, n - 1);
      var p := AssetMoved(movedFrom[n - 1], moved[n - 1]);
      assert Pairs(moved, movedFrom, n) == Pairs(moved, movedFrom, n - 1) + [p];
      FilterSnoc(Pairs(moved, movedFrom, n - 1), p, IsRealMove);
    }
  }

  /** A move notice never names the same path twice, and none is an "after process" notice. */
  lemma MovesAreAllMoves(moved: seq<string>, movedFrom: seq<string>, n: nat)
    requires n <= |moved| && n <= |movedFrom|
    ensures forall x :: x in Moves(moved, movedFrom, n) ==> x.AssetMoved? && x.source != x.destination
    ensures AfterProcess !in Moves(moved, movedFrom, n)
  {
    MovesAreRealMoves(moved, movedFrom, n);
    var ps := Pairs(moved, movedFrom, n);
    var ms := Filter(ps, IsRealMove);
    FilterMembers(ps, IsRealMove);
    assert forall i :: 0 <= i < |ms| ==> IsRealMove(ms[i]);
  }

  /** Some notice fires exactly when some pair's paths differ. */
  lemma MovesNonEmptyIff(moved: seq<string>, movedFrom: seq<string>, n: nat)
    requires n <= |moved| && n <= |movedFrom|
    ensures Moves(moved, movedFrom, n) != [] <==> exists i :: 0 <= i < n && movedFrom[i] != moved[i]
  {
    MovesAreRealMoves(moved, movedFrom, n);
    var ps := Pairs(moved, movedFrom, n);
    var ms := Filter(ps, IsRealMove);
    FilterMembers(ps, IsRealMove);
    if ms != [] {
      assert ms[0] in ps && IsRealMove(ms[0]);
      var i :| 0 <= i < n && ps[i] == ms[0];
      assert movedFrom[i] != moved[i];
    }
    if exists i :: 0 <= i < n && movedFrom[i] != moved[i] {
      var i :| 0 <= i < n && movedFrom[i] != moved[i];
      assert IsRealMove(ps[i]) && ps[i] in ms;
    }
  }

  /** How many times a notice appears. */
  function Count(t: seq<Notice>, x: Notice): nat
  {
    if t == [] then 0 else (if t[0] == x then 1 else 0) + Count(t[1..], x)
  }

  lemma {:induction false} CountConcat(a: seq<Notice>, b: seq<Notice>, x: Notice)
    ensures Count(a + b, x) == Count(a, x) + Count(b, x)
  {
    if a == [] {
      assert a + b == b;
    } else {
      assert (a + b)[0] == a[0] && (a + b)[1..] == a[1..] + b;
      CountConcat(a[1..], b, x);
    }
  }

  lemma {:induction false} CountAbsent(a: seq<Notice>, x: Notice)
    requires x !in a
    ensures Count(a, x) == 0
  {
    if a != [] {
      assert x !in a[1..];
      CountAbsent(a[1..], x);
    }
  }

  class AssetProcessor {
    var dirty: bool
    /** The events fired so far. */
    var trace: seq<Notice>

    constructor ()
      ensures !dirty && trace == []
    {
      dirty := false;
      trace := [];
    }

    /** `GetMovedAsset`: a pair with equal paths does nothing; otherwise the move is
        reported and the processor marked dirty. */
    method GetMovedAsset(source: string, destination: string)
      modifies this
      ensures source == destination ==> trace == old(trace) && dirty == old(dirty)
      ensures source != destination ==> trace == old(trace) + [AssetMoved(source, destination)] && dirty
    {
      if source == destination {
        return;
      }
      trace := trace + [AssetMoved(source, destination)];
      dirty := true;
    }

    /** `OnPostprocessAllAssets`: reports the moves pair by pair, then, when the processor is
        dirty, fires "after process" once and clears the flag. Fewer source paths than
        destinations make the indexing throw partway, with no "after process". */
    method OnPostprocessAllAssets(imported: seq<string>, deleted: seq<string>, moved: seq<string>, movedFrom: seq<string>) returns (r: Outcome)
      modifies this
      ensures |movedFrom| >= |moved| ==>
                var ms := Moves(moved, movedFrom, |moved|);
                && r == Done && !dirty
                && trace == old(trace) + ms + (if old(dirty) || ms != [] then [AfterProcess] else [])
      ensures |movedFrom| < |moved| ==>
                var ms := Moves(moved, movedFrom, |movedFrom|);
                && r == Failed(IndexOutOfRange)
                && trace == old(trace) + ms
                && dirty == (old(dirty) || ms != [])
    {
      var i := 0;
      while i < |moved|
        invariant 0 <= i <= |moved| && i <= |movedFrom|
        invariant trace == old(trace) + Moves(moved, movedFrom, i)
        invariant dirty == (old(dirty) || Moves(moved, movedFrom, i) != [])
      {
        if i >= |movedFrom| {
          return Failed(IndexOutOfRange);
        }
        var source := movedFrom[i];
        var destination := moved[i];
        GetMovedAsset(source, destination);
        i := i + 1;
      }
      if dirty {
        trace := trace + [AfterProcess];
        dirty := false;
      }
      return Done;
    }
  }

  /** One batch fires "after process" at most once, and exactly once when it moved
      something or the processor was already dirty. */
  lemma AfterProcessAtMostOnce(moved: seq<string>, movedFrom: seq<string>, wasDirty: bool)
    requires |movedFrom| >= |moved|
    ensures var ms := Moves(moved, movedFrom, |moved|);
            var fired := ms + (if wasDirty || ms != [] then [AfterProcess] else []);
            Count(fired, AfterProcess) == (if wasDirty || ms != [] then 1 else 0)
  {
    var ms := Moves(moved, movedFrom, |moved|);
    MovesAreAllMoves(moved, movedFrom, |moved|);
    CountAbsent(ms, AfterProcess);
    var tail: seq<Notice> := if wasDirty || ms != [] then [AfterProcess] else [];
    CountConcat(ms, tail, AfterProcess);
    assert tail != [] ==> tail[1..] == [];
  }
}
