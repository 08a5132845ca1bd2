/** Handing out the first part of a free chunk; the rest stays free. */
module Splitting {
  import opened Memory
  import opened BinLists
  import opened Chunks
  import opened Frames
  import opened FastLists
  import opened Layout
  import opened State
  import opened Release
  import opened LiveView
  import opened Trimming
  import opened Taking

  // A binned chunk is split: its first n granules are in use, the rest is on the unsorted list.
  ghost predicate SplitTook(x: St, y: St, nm: bool, v: int, n: int, e: int) {
    && v in x.c && x.c[v].tag == Binned && e == v + x.c[v].size && 2 <= n && n + 2 <= x.c[v].size
    && y == x.(lo := y.lo, hi := y.hi, s := y.s, c := Split(x.c, v, n, Live, Binned))
    && v + n in y.s && y.s[v + n].bin == 1 && y.s == (x.s - {v})[v + n := y.s[v + n]]
    && Linked(y.s, y.lo, y.hi)
    && WithinLo(x.s, v, e, x.lo, y.lo) && WithinHi(x.s, v, e, x.hi, y.hi)
    && v in y.hi && y.hi[v] == Size(n, true, nm)
    && v + n in y.hi && y.hi[v + n] == Size(e - v - n, true, false)
    && e in x.hi && e in y.hi && y.hi[e] == x.hi[e] && e in y.lo && y.lo[e] == e - v - n
  }

  lemma SplitCut(x: St, g: int, nm: bool, v: int, n: int, e: int)
    requires Good(x, g, nm) && v in x.c && x.c[v].tag == Binned && e == v + x.c[v].size && 2 <= n && n + 2 <= x.c[v].size
    ensures var d := Split(x.c, v, n, Live, Binned); Recut(x.c, d, v, e) && Tiled(d) && Placed(d, x.rs, x.top)
    ensures forall q :: q in x.c && v <= q < e ==> q == v
    ensures forall q :: q in Split(x.c, v, n, Live, Binned) && v <= q < e ==> q == v || q == v + n
  {
    hide Linked, FastLinked, FastIndexed, RegionsOk, Tagged, Indexed;
    BinnedIs(x, g, nm, v);
    var d := Split(x.c, v, n, Live, Binned);
    forall q | q in x.c && v <= q < e
      ensures q == v
    {
      assert Apart(x.c, v, q);
    }
    assert Recut(x.c, d, v, e);
    assert ChunkAt(d, v) && ChunkAt(d, v + n);
    RecutTiled(x.c, d, v, e);
    assert CornerAt(x.c, x.rs, x.top, |x.rs| - 1);
    PlacedRecut(x.c, d, x.rs, x.top, x.top, v, e);
  }

  lemma SplitSettles(x: St, y: St, g: int, nm: bool, v: int, n: int, e: int)
    requires Good(x, g, nm) && SplitTook(x, y, nm, v, n, e)
    ensures Settled(x, y, nm, v, e)
    ensures forall q :: q in x.c && v <= q < e ==> q == v
    ensures forall q :: q in y.c && v <= q < e ==> q == v || q == v + n
  {
    hide Linked, FastLinked, FastIndexed, RegionsOk, Tagged, Tiled, Placed, Indexed, WithinLo, WithinHi;
    BinnedIs(x, g, nm, v);
    SplitCut(x, g, nm, v, n, e);
    SplitHeads(x, y, g, nm, v, n, e);
    SplitSlots(x, y, g, nm, v, n, e);
  }

  lemma SplitSlots(x: St, y: St, g: int, nm: bool, v: int, n: int, e: int)
    requires Good(x, g, nm) && SplitTook(x, y, nm, v, n, e)
    ensures SlotsRecut(x.s, y.s, y.c, v, e)
  {
    hide Linked, FastLinked, FastIndexed, RegionsOk, Tagged, Placed, Tiled, WithinLo, WithinHi;
    SplitCut(x, g, nm, v, n, e);
    forall q | q in x.s && v <= q < e
      ensures q == v
    {
      assert SlotFits(x.s, x.c, g, q);
    }
  }

  lemma SplitHeads(x: St, y: St, g: int, nm: bool, v: int, n: int, e: int)
    requires Good(x, g, nm) && SplitTook(x, y, nm, v, n, e) && Recut(x.c, y.c, v, e)
    ensures HeadAt(y.c, y.lo, y.hi, nm, v) && HeadAt(y.c, y.lo, y.hi, nm, v + n) && HeadAt(y.c, y.lo, y.hi, nm, e)
  {
    hide Linked, FastLinked, FastIndexed, Placed, Indexed;
    BinnedIs(x, g, nm, v);
    SlotsIdle(x, g, v);
    HeadsKeptBy(x.c, x.s, x.lo, x.hi, y.lo, y.hi, nm, v, e);
    assert HeadAt(x.c, x.lo, x.hi, nm, v) && HeadAt(x.c, x.lo, x.hi, nm, e);
    assert v + n in y.lo by { InsideMapped(x, v, v + n); }
    HeadEnd(x.c, y.c, x.lo, x.hi, y.lo, y.hi, nm, v, e, v + n);
  }

  lemma InsideMapped(x: St, p: int, k: int)
    requires Placed(x.c, x.rs, x.top) && RegionsOk(x.rs, x.lo, x.hi) && p in x.c && p <= k < p + x.c[p].size
    ensures k in x.lo && k in x.hi
  {
    assert PlacedAt(x.c, x.rs, p);
    assert x.rs[x.c[p].home].base <= k < x.rs[x.c[p].home].end;
  }

  lemma SplitTake(x: St, y: St, g: int, nm: bool, v: int, n: int, e: int)
    requires Good(x, g, nm) && SplitTook(x, y, nm, v, n, e)
    ensures Good(y, g, nm) && HandedOut(x, y, v, n)
  {
    hide Linked, FastLinked, Indexed, FastIndexed, RegionsOk, Tagged, Tiled, Placed, BodiesKept, WithinLo, WithinHi,
      DataKept;
    SplitSettles(x, y, g, nm, v, n, e);
    Settle(x, y, g, nm, v, e);
    OutsideKept(x, y, v, e);
  }

  // The top is split: its first n granules are in use, the rest is the top.
  ghost predicate TopTook(x: St, y: St, nm: bool, n: int) {
    && |x.rs| >= 1 && x.top in x.c && 2 <= n && n + 2 <= x.c[x.top].size
    && y == x.(hi := x.hi[x.top := Size(n, true, nm)][x.top + n := Size(x.c[x.top].size - n, true, false)],
               top := x.top + n, c := Split(x.c, x.top, n, Live, Top))
  }

  lemma TopCut(x: St, y: St, g: int, nm: bool, n: int, e: int)
    requires Good(x, g, nm) && TopTook(x, y, nm, n) && e == x.top + x.c[x.top].size
    ensures Recut(x.c, y.c, x.top, e) && Tiled(y.c) && Placed(y.c, x.rs, y.top)
    ensures forall q :: q in x.c && x.top <= q < e ==> q == x.top
    ensures forall q :: q in y.c && x.top <= q < e ==> q == x.top || q == x.top + n
  {
    hide Linked, FastLinked, FastIndexed, Indexed;
    TopIsTop(x, g, nm);
    BinnedHasLivePrev(x.c, x.lo, x.hi, nm, x.top);
    NoFence(x.c, x.top);
    TopCutTiled(x, y, g, nm, n, e);
    PlacedRecut(x.c, y.c, x.rs, x.top, y.top, x.top, e);
  }

  lemma TopCutTiled(x: St, y: St, g: int, nm: bool, n: int, e: int)
    requires Good(x, g, nm) && TopTook(x, y, nm, n) && e == x.top + x.c[x.top].size
    requires NoFenceBefore(x.c, x.top) && NoBinnedBefore(x.c, x.top) && x.c[x.top].tag == Top
    ensures Recut(x.c, y.c, x.top, e) && Tiled(y.c)
    ensures forall q :: q in x.c && x.top <= q < e ==> q == x.top
    ensures forall q :: q in y.c && x.top <= q < e ==> q == x.top || q == x.top + n
  {
    hide Linked, FastLinked, FastIndexed, RegionsOk, Tagged, Indexed, Placed;
    var v := x.top;
    assert ChunkAt(x.c, v);
    forall q | q in x.c && v <= q < e
      ensures q == v
    {
      assert Apart(x.c, v, q);
    }
    assert Recut(x.c, y.c, v, e);
    assert ChunkAt(y.c, v) && ChunkAt(y.c, v + n);
    RecutTiled(x.c, y.c, v, e);
  }

  lemma TopTakeHeads(x: St, y: St, g: int, nm: bool, n: int, e: int)
    requires Good(x, g, nm) && TopTook(x, y, nm, n) && e == x.top + x.c[x.top].size && Recut(x.c, y.c, x.top, e)
    requires forall q :: q in x.c && x.top <= q < e ==> q == x.top
    ensures HeadAt(y.c, y.lo, y.hi, nm, x.top) && HeadAt(y.c, y.lo, y.hi, nm, x.top + n)
    ensures e in y.c ==> HeadAt(y.c, y.lo, y.hi, nm, e)
  {
    hide Linked, FastLinked, FastIndexed, Indexed;
    TopIsTop(x, g, nm);
    assert HeadAt(x.c, x.lo, x.hi, nm, x.top);
    InsideMapped(x, x.top, x.top + n);
    if e in y.c {
      assert HeadAt(x.c, x.lo, x.hi, nm, e);
      assert HeadsKept(x.c, x.lo, x.hi, y.lo, y.hi, x.top, e) by { TopKeepsHeads(x, y, g, nm, n, e); }
      HeadAfterTop(x, y, g, nm, x.top, e);
    }
  }

  lemma TopKeepsHeads(x: St, y: St, g: int, nm: bool, n: int, e: int)
    requires Good(x, g, nm) && TopTook(x, y, nm, n) && e == x.top + x.c[x.top].size
    ensures HeadsKept(x.c, x.lo, x.hi, y.lo, y.hi, x.top, e)
  {
    hide Linked, FastLinked, FastIndexed, Indexed, Placed, RegionsOk, Tiled;
    forall q | q in x.c && (q < x.top || e < q)
      ensures q in x.lo && q in x.hi
    {
      assert HeadAt(x.c, x.lo, x.hi, nm, q);
    }
  }

  lemma TopLists(x: St, y: St, g: int, nm: bool, n: int, e: int)
    requires Good(x, g, nm) && TopTook(x, y, nm, n) && e == x.top + x.c[x.top].size
    requires forall q :: q in x.c && x.top <= q < e ==> q == x.top
    ensures Linked(x.s, y.lo, y.hi) && SlotsRecut(x.s, x.s, y.c, x.top, e)
  {
    hide Linked, FastLinked, FastIndexed, RegionsOk, Tagged;
    TopIsTop(x, g, nm);
    assert ChunkAt(x.c, x.top);
    forall q | q in x.s
      ensures q in x.c && x.c[q].tag == Binned && (q + 1 < x.top || e <= q)
    {
      assert SlotFits(x.s, x.c, g, q) && ChunkAt(x.c, q) && Apart(x.c, q, x.top);
    }
    LinkedFrame(x.s, x.lo, x.hi, y.lo, y.hi);
  }

  lemma TopTake(x: St, y: St, g: int, nm: bool, n: int)
    requires Good(x, g, nm) && TopTook(x, y, nm, n)
    ensures Good(y, g, nm) && HandedOut(x, y, x.top, n)
  {
    hide Linked, FastLinked, Indexed, FastIndexed, Tagged, Tiled, Placed, BodiesKept, DataKept, RegionsOk;
    var e := x.top + x.c[x.top].size;
    TopIsTop(x, g, nm);
    BinnedHasLivePrev(x.c, x.lo, x.hi, nm, x.top);
    TopCut(x, y, g, nm, n, e);
    TopTakeHeads(x, y, g, nm, n, e);
    TopLists(x, y, g, nm, n, e);
    assert x.top + n in x.hi by { InsideMapped(x, x.top, x.top + n); }
    assert Settled(x, y, nm, x.top, e);
    Settle(x, y, g, nm, x.top, e);
    OutsideKept(x, y, x.top, e);
  }
}
