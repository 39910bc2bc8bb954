/**
 * Named half-open address ranges and what it means for a list of them to
 * tile an address window: laid end to end, in ascending order, with no gap
 * and no overlap, so that every byte of the window belongs to exactly one
 * region.
 */
module Intervals {

  /** The range [start, start + size) of one bus, labelled with `name`. */
  datatype Region<N> = Region(name: N, start: int, size: nat) {

    function End(): int {
      start + size
    }

    predicate Contains(a: int) {
      start <= a < start + size
    }
  }

  /** `rs` lies end to end from `lo`, each region starting where the previous one ends, up to `hi`. */
  predicate Tiles<N>(rs: seq<Region<N>>, lo: int, hi: int)
    decreases |rs|
  {
    if rs == [] then lo == hi
    else rs[0].start == lo && Tiles(rs[1..], rs[0].End(), hi)
  }

  /** A tiling stays inside its window and is strictly ordered, so no two of its regions overlap. */
  lemma {:induction false} TilesOrdered<N>(rs: seq<Region<N>>, lo: int, hi: int)
    requires Tiles(rs, lo, hi)
    ensures lo <= hi
    ensures forall i :: 0 <= i < |rs| ==> lo <= rs[i].start && rs[i].End() <= hi
    ensures forall i, j :: 0 <= i < j < |rs| ==> rs[i].End() <= rs[j].start
    decreases |rs|
  {
    if rs != [] {
      var tail := rs[1..];
      TilesOrdered(tail, rs[0].End(), hi);
      assert forall i :: 1 <= i < |rs| ==> rs[i] == tail[i - 1];
    }
  }

  /**
   * The index of the region of a tiling that holds address `a`: there is one,
   * and no other region holds `a`.
   */
  function Owner<N>(rs: seq<Region<N>>, lo: int, hi: int, a: int): (i: nat)
    requires Tiles(rs, lo, hi) && lo <= a < hi
    ensures i < |rs| && rs[i].Contains(a)
    ensures forall j :: 0 <= j < |rs| && rs[j].Contains(a) ==> j == i
    decreases |rs|
  {
    TilesOrdered(rs, lo, hi);
    if a < rs[0].End() then 0
    else
      var tail := rs[1..];
      assert forall j :: 1 <= j < |rs| ==> rs[j] == tail[j - 1];
      1 + Owner(tail, rs[0].End(), hi, a)
  }

  /**
   * Tiling, stated without recursion: the first region starts at `lo`, the
   * last ends at `hi`, and each region starts where the one before it ends.
   */
  predicate Adjacent<N>(rs: seq<Region<N>>, lo: int, hi: int) {
    if rs == [] then lo == hi
    else
      && rs[0].start == lo
      && rs[|rs| - 1].End() == hi
      && forall i :: 0 <= i < |rs| - 1 ==> rs[i + 1].start == rs[i].End()
  }

  lemma {:induction false} TilesIffAdjacent<N>(rs: seq<Region<N>>, lo: int, hi: int)
    ensures Tiles(rs, lo, hi) <==> Adjacent(rs, lo, hi)
    decreases |rs|
  {
    if rs != [] {
      var tail := rs[1..];
      TilesIffAdjacent(tail, rs[0].End(), hi);
      assert forall i :: 1 <= i < |rs| ==> rs[i] == tail[i - 1];
      if |rs| > 1 && Adjacent(rs, lo, hi) {
        assert Adjacent(tail, rs[0].End(), hi) by {
          forall i | 0 <= i < |tail| - 1
            ensures tail[i + 1].start == tail[i].End()
          {
            assert rs[i + 2].start == rs[i + 1].End();
          }
        }
      }
    }
  }

  /** A tiled address lies in exactly one region of the tiling. */
  predicate OwnedOnce<N>(rs: seq<Region<N>>, a: int) {
    exists i :: 0 <= i < |rs| && rs[i].Contains(a) && forall j :: 0 <= j < |rs| && rs[j].Contains(a) ==> j == i
  }

  lemma TilesPartition<N>(rs: seq<Region<N>>, lo: int, hi: int, a: int)
    requires Tiles(rs, lo, hi) && lo <= a < hi
    ensures OwnedOnce(rs, a)
  {
    var i := Owner(rs, lo, hi, a);
  }
}
