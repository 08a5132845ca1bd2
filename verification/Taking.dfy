/** Handing a free chunk out whole. */
module Taking {
  import opened Memory
  import opened BinLists
  import opened Chunks
  import opened Frames
  import opened FastLists
  import opened Layout
  import opened State
  import opened Freeing
  import opened LiveView

  // The client receives a chunk of n granules at p: nothing it owned is touched.
  ghost predicate HandedOut(x: St, y: St, p: int, n: int) {
    && p !in LiveOf(x.c)
    && LiveOf(y.c) == LiveOf(x.c)[p := n]
    && DataKept(x.c, x.lo, x.hi, y.lo, y.hi, 0)
  }

  ghost predicate PrevUsed(hi: map<int, Word>, p: int) { p in hi && hi[p].Size? && hi[p].p }

  lemma OutsideKept(x: St, y: St, b: int, e: int)
    requires Recut(x.c, y.c, b, e) && BodiesKept(x.c, x.lo, x.hi, y.lo, y.hi, b, e)
    requires forall q {:trigger x.c[q]} :: q in x.c && b <= q < e ==> x.c[q].tag != Live
    requires y.c[b].tag == Live && forall q {:trigger y.c[q]} :: q in y.c && b < q < e ==> y.c[q].tag != Live
    ensures HandedOut(x, y, b, y.c[b].size)
  {
    forall q | q in x.c && x.c[q].tag == Live
      ensures SameBody(x.lo, x.hi, y.lo, y.hi, q, x.c[q].size)
    {
    }
    assert forall q {:trigger q in x.c} :: q in x.c && x.c[q].tag == Live ==> q in y.c && y.c[q] == x.c[q];
    assert forall q {:trigger q in y.c} :: q in y.c && y.c[q].tag == Live && q != b ==> q in x.c && y.c[q] == x.c[q];
  }

  // A binned chunk that is off its list and marked in use.
  ghost predicate TookWhole(x: St, y: St, nm: bool, v: int, e: int) {
    && v in x.c && x.c[v].tag == Binned && e == v + x.c[v].size
    && y == x.(lo := y.lo, hi := y.hi, s := x.s - {v}, c := Retag(x.c, v, Live))
    && Linked(y.s, y.lo, y.hi)
    && WroteLo(x.s, {}, x.lo, y.lo) && WroteHi(x.s, {v, e}, x.hi, y.hi)
    && v in y.hi && y.hi[v] == Size(x.c[v].size, true, nm)
    && e in x.hi && x.hi[e].Size? && e in y.hi && y.hi[e] == x.hi[e].(p := true)
  }

  lemma BinnedIs(x: St, g: int, nm: bool, v: int)
    requires Good(x, g, nm) && v in x.c && x.c[v].tag == Binned
    ensures var e := v + x.c[v].size;
      && v in x.s && v > 0 && x.c[v].size >= 2 && e in x.c && x.c[e].tag != Binned && x.c[e].tag != Top && x.c[e].tag != Last && x.c[e].home == x.c[v].home
      && v in x.hi && x.hi[v] == Size(x.c[v].size, true, false) && v in x.lo
      && e in x.hi && x.hi[e].Size? && !x.hi[e].p && e in x.lo && x.lo[e] == x.c[v].size
      && v + 1 in x.lo && v + 1 in x.hi
      && NoBinnedBefore(x.c, v) && NoFenceBefore(x.c, v) && 0 <= x.c[v].home < |x.rs| && e <= x.rs[x.c[v].home].end
  {
    hide Linked, FastLinked, FastIndexed;
    var e := v + x.c[v].size;
    assert ChunkAt(x.c, v) && ChunkAt(x.c, e);
    assert HeadAt(x.c, x.lo, x.hi, nm, v) && HeadAt(x.c, x.lo, x.hi, nm, e);
    BinnedHasLivePrev(x.c, x.lo, x.hi, nm, v);
    NoFence(x.c, v);
    OnlyBinnedListed(x, g, nm, v);
    RoomForLinks(x, g, nm, v);
    assert PlacedAt(x.c, x.rs, v) && PlacedAt(x.c, x.rs, e);
  }

  lemma TakeWholeCut(x: St, g: int, nm: bool, v: int, e: int)
    requires Good(x, g, nm) && v in x.c && x.c[v].tag == Binned && e == v + x.c[v].size
    ensures var d := Retag(x.c, v, Live); Recut(x.c, d, v, e) && Tiled(d) && Placed(d, x.rs, x.top)
    ensures forall q :: q in x.c && v <= q < e ==> q == v
  {
    hide Linked, FastLinked, FastIndexed, RegionsOk, Tagged, Indexed;
    BinnedIs(x, g, nm, v);
    var d := Retag(x.c, v, Live);
    forall q | q in x.c && v <= q < e
      ensures q == v
    {
      assert Apart(x.c, v, q);
    }
    assert Recut(x.c, d, v, e);
    assert ChunkAt(d, v) && Apart(d, v, v);
    RecutTiled(x.c, d, v, e);
    assert CornerAt(x.c, x.rs, x.top, |x.rs| - 1);
    PlacedRecut(x.c, d, x.rs, x.top, x.top, v, e);
  }

  lemma TakeWholeSettles(x: St, y: St, g: int, nm: bool, v: int, e: int)
    requires Good(x, g, nm) && TookWhole(x, y, nm, v, e)
    ensures Settled(x, y, nm, v, e)
    ensures forall q :: q in x.c && v <= q < e ==> q == v
  {
    hide Linked, FastLinked, FastIndexed, RegionsOk, Tagged, Tiled, Placed;
    BinnedIs(x, g, nm, v);
    TakeWholeCut(x, g, nm, v, e);
    RewroteBy(x, y, x.s, v, e);
    TakeWholeHeads(x, y, g, nm, v, e);
    forall q | q in x.s && v <= q < e
      ensures q == v
    {
      assert SlotFits(x.s, x.c, g, q);
    }
  }

  lemma TakeWholeHeads(x: St, y: St, g: int, nm: bool, v: int, e: int)
    requires Good(x, g, nm) && TookWhole(x, y, nm, v, e) && Recut(x.c, y.c, v, e)
    ensures HeadAt(y.c, y.lo, y.hi, nm, v) && HeadAt(y.c, y.lo, y.hi, nm, e)
  {
    hide Linked, FastLinked, FastIndexed, RegionsOk, Placed, Indexed;
    BinnedIs(x, g, nm, v);
    SlotsIdle(x, g, v);
    RewroteBy(x, y, x.s, v, e);
    HeadsKeptBy(x.c, x.s, x.lo, x.hi, y.lo, y.hi, nm, v, e);
    assert HeadAt(x.c, x.lo, x.hi, nm, v) && HeadAt(x.c, x.lo, x.hi, nm, e);
    HeadEnd(x.c, y.c, x.lo, x.hi, y.lo, y.hi, nm, v, e, v);
  }

  lemma TakeWhole(x: St, y: St, g: int, nm: bool, v: int, e: int)
    requires Good(x, g, nm) && TookWhole(x, y, nm, v, e)
    ensures Good(y, g, nm) && HandedOut(x, y, v, x.c[v].size)
  {
    hide Linked, FastLinked, Indexed, FastIndexed, RegionsOk, Tagged, Tiled, Placed, BodiesKept, WroteLo, WroteHi,
      DataKept;
    TakeWholeSettles(x, y, g, nm, v, e);
    Settle(x, y, g, nm, v, e);
    OutsideKept(x, y, v, e);
  }
}
