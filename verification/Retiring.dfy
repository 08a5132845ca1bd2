/** The old top is closed with end markers and freed. */
module Retiring {
  import opened Memory
  import opened BinLists
  import opened Chunks
  import opened Frames
  import opened FastLists
  import opened Layout
  import opened State
  import opened Release
  import opened LiveView
  import opened Consolidating
  import opened Trimming
  import opened HeapTrim
  import opened Taking
  import opened Searching
  import opened Attaching

  // The old top at t, of m + 2 granules, ends in markers; m granules of it may be freed.
  ghost function Retired(c: map<int, Chunk>, t: int, m: int, nm: bool): map<int, Chunk>
    requires t in c
  {
    var h := c[t].home;
    if m >= 2 then c[t := Chunk(m, Live, h)][t + m := Chunk(1, Fence, h)][t + m + 1 := Chunk(1, Last, h)]
    else if nm then c[t := Chunk(m + 1, Fence, h)][t + m + 1 := Chunk(1, Last, h)]
    else if m == 1 then c[t := Chunk(1, Fence, h)][t + 1 := Chunk(1, Fence, h)][t + 2 := Chunk(1, Last, h)]
    else c[t := Chunk(1, Fence, h)][t + 1 := Chunk(1, Last, h)]
  }

  // What sYSMALLOc writes over the old top.
  ghost function RetiredHi(hi: map<int, Word>, t: int, m: int, nm: bool): map<int, Word> {
    if nm then
      if m >= 2 then hi[t + m + 1 := Size(0, true, false)][t + m := Size(1, true, false)][t := Size(m, true, true)]
      else hi[t + m + 1 := Size(0, true, false)][t := Size(m + 1, true, false)]
    else hi[t := Size(m, true, false)][t + m := Size(1, true, false)][t + m + 1 := Size(1, true, false)]
  }

  ghost function RetiredLo(lo: map<int, int>, t: int, m: int, nm: bool): map<int, int> {
    if nm then lo[t + m + 1 := if m >= 2 then 1 else m + 1] else lo
  }

  ghost predicate RetiredTo(x: St, y: St, nm: bool, r: Region, m: int) {
    && x.top in x.c && 0 <= m && x.c[x.top].size == m + 2
    && y == Attached(x, r).(c := Retired(Attached(x, r).c, x.top, m, nm), hi := RetiredHi(Attached(x, r).hi, x.top, m, nm),
                            lo := RetiredLo(Attached(x, r).lo, x.top, m, nm))
  }

  ghost predicate Retirable(x: St, y: St, g: int, nm: bool, r: Region, m: int) {
    Attachable(x, g, nm, r) && x.rs != [] && RetiredTo(x, y, nm, r, m)
  }

  lemma OldTop(x: St, y: St, g: int, nm: bool, r: Region, m: int)
    requires Retirable(x, y, g, nm, r, m)
    ensures var z, t := Attached(x, r), x.top;
      t in x.c && t in z.c && t != r.first && z.c[t] == x.c[t] == Chunk(m + 2, Top, |x.rs| - 1) && t > 0
    ensures var z, t := Attached(x, r), x.top;
      t in z.hi && z.hi[t] == Size(m + 2, true, false) && NoBinnedBefore(z.c, t) && NoFenceBefore(z.c, t)
    ensures x.top + m + 2 == x.rs[|x.rs| - 1].end
    ensures forall q {:trigger q in Attached(x, r).c} :: q in Attached(x, r).c && x.top <= q < x.top + m + 2 ==> q == x.top
  {
    hide Linked, FastLinked, Indexed, FastIndexed, RegionsOk, Attached;
    AttachedChunks(x, r);
    TopIsTop(x, g, nm);
    AttachBase(x, g, nm, r);
    NotThere(x, g, nm, r, x.top);
    var z := Attached(x, r);
    WordStays(x, g, nm, r, x.top, x.top);
    BinnedHasLivePrev(z.c, z.lo, z.hi, nm, x.top);
    NoFence(z.c, x.top);
    assert ChunkAt(z.c, x.top);
    forall q | q in z.c && x.top <= q < x.top + m + 2
      ensures q == x.top
    {
      assert Apart(z.c, x.top, q);
    }
  }

  lemma RetirePieces(x: St, y: St, g: int, nm: bool, r: Region, m: int, e: int)
    requires Retirable(x, y, g, nm, r, m) && e == x.top + m + 2
    ensures forall q {:trigger q in y.c} :: q in y.c && x.top <= q < e ==> q == x.top || q == x.top + m || q == x.top + m + 1
    ensures forall q {:trigger y.c[q]} :: q in y.c && x.top <= q < e ==>
      y.c[q].tag == Fence || y.c[q].tag == Last || (y.c[q].tag == Live && q == x.top && m >= 2)
    ensures Recut(Attached(x, r).c, y.c, x.top, e)
  {
    hide Base, Attached, Placed;
    OldTop(x, y, g, nm, r, m);
  }

  lemma RetireTiled(x: St, y: St, g: int, nm: bool, r: Region, m: int, e: int)
    requires Retirable(x, y, g, nm, r, m) && e == x.top + m + 2
    ensures Tiled(y.c)
  {
    hide Base, Attached, Placed, Tiled, Recut, NoBinnedBefore;
    OldTop(x, y, g, nm, r, m);
    RetirePieces(x, y, g, nm, r, m, e);
    AttachTiled(x, g, nm, r);
    forall q | q in y.c && x.top <= q < e
      ensures ChunkAt(y.c, q)
    {
    }
    forall q, p | q in y.c && p in y.c && x.top <= q < e && x.top <= p < e
      ensures Apart(y.c, q, p)
    {
    }
    RecutTiled(Attached(x, r).c, y.c, x.top, e);
  }

  lemma RetirePlaced(x: St, y: St, g: int, nm: bool, r: Region, m: int, e: int)
    requires Retirable(x, y, g, nm, r, m) && e == x.top + m + 2 && r.base <= r.first
    ensures Placed(y.c, y.rs, y.top)
  {
    hide Linked, FastLinked, Indexed, FastIndexed, Tagged, Tiled, RegionsOk, Attached, Retired;
    OldTop(x, y, g, nm, r, m);
    AttachedChunks(x, r);
    RetirePieces(x, y, g, nm, r, m, e);
    forall q | q in y.c
      ensures PlacedAt(y.c, y.rs, q) && (y.c[q].tag == Top ==> q == y.top)
    {
      if x.top <= q < e { RetiredPlaced(x, y, g, nm, r, m, e, q); } else { OthersPlaced(x, y, g, nm, r, m, e, q); }
    }
    forall i | 0 <= i < |y.rs|
      ensures CornerAt(y.c, y.rs, y.top, i)
    {
      RetiredCorner(x, y, g, nm, r, m, e, i);
    }
  }

  lemma RetiredPlaced(x: St, y: St, g: int, nm: bool, r: Region, m: int, e: int, q: int)
    requires Retirable(x, y, g, nm, r, m) && e == x.top + m + 2 && q in y.c && x.top <= q < e
    ensures PlacedAt(y.c, y.rs, q) && y.c[q].tag != Top
  {
    hide Base, Attached;
    OldTop(x, y, g, nm, r, m);
    AttachedChunks(x, r);
    assert PlacedAt(x.c, x.rs, x.top);
  }

  lemma OthersPlaced(x: St, y: St, g: int, nm: bool, r: Region, m: int, e: int, q: int)
    requires Retirable(x, y, g, nm, r, m) && e == x.top + m + 2 && q in y.c && !(x.top <= q < e) && r.base <= r.first
    ensures PlacedAt(y.c, y.rs, q) && (y.c[q].tag == Top ==> q == y.top)
  {
    hide Base, Attached, Retired, Recut;
    OldTop(x, y, g, nm, r, m);
    AttachedChunks(x, r);
    RetirePieces(x, y, g, nm, r, m, e);
    assert q in Attached(x, r).c && y.c[q] == Attached(x, r).c[q] by { RecutSame(Attached(x, r).c, y.c, x.top, e, q); }
    if q != r.first { assert PlacedAt(x.c, x.rs, q); }
  }

  lemma RecutSame(c: map<int, Chunk>, d: map<int, Chunk>, b: int, e: int, q: int)
    requires Recut(c, d, b, e) && (q < b || e <= q)
    ensures q in c <==> q in d
    ensures q in c && q in d ==> d[q] == c[q]
  {
  }

  lemma RetiredCorner(x: St, y: St, g: int, nm: bool, r: Region, m: int, e: int, i: int)
    requires Retirable(x, y, g, nm, r, m) && e == x.top + m + 2 && 0 <= i < |y.rs|
    ensures CornerAt(y.c, y.rs, y.top, i)
  {
    hide Base, Attached, Recut, NoBinnedBefore, NoFenceBefore;
    OldTop(x, y, g, nm, r, m);
    AttachedChunks(x, r);
    AttachLive(x, g, nm, r);
    RetirePieces(x, y, g, nm, r, m, e);
    var z := Attached(x, r);
    if i == |x.rs| {
      NotThere(x, g, nm, r, x.top);
      RecutSame(z.c, y.c, x.top, e, r.first);
    } else {
      assert CornerAt(x.c, x.rs, x.top, i) && PlacedAt(x.c, x.rs, x.top);
      var f, l := x.rs[i].first, x.rs[i].end - 1;
      assert f in z.c && (i + 1 < |x.rs| ==> l in z.c);
      if f < x.top || e <= f { RecutSame(z.c, y.c, x.top, e, f); }
      if i + 1 < |x.rs| && (l < x.top || e <= l) { RecutSame(z.c, y.c, x.top, e, l); }
    }
  }

  lemma RetireHeads(x: St, y: St, g: int, nm: bool, r: Region, m: int, e: int, q: int)
    requires Retirable(x, y, g, nm, r, m) && e == x.top + m + 2 && q in y.c && x.top <= q < e
    ensures HeadAt(y.c, y.lo, y.hi, nm, q)
  {
    hide Base, Attached, Placed, Recut, NoBinnedBefore, NoFenceBefore;
    OldTop(x, y, g, nm, r, m);
    RetirePieces(x, y, g, nm, r, m, e);
    WordStays(x, g, nm, r, x.top, x.top);
    WordStays(x, g, nm, r, x.top, x.top + m);
    WordStays(x, g, nm, r, x.top, x.top + m + 1);
  }

  lemma RetireWrites(x: St, y: St, g: int, nm: bool, r: Region, m: int, e: int)
    requires Retirable(x, y, g, nm, r, m) && e == x.top + m + 2
    ensures Rewrote(Attached(x, r), y, x.top, e)
  {
    hide Base, Attached, Placed;
    WordStays(x, g, nm, r, x.top, x.top);
    WordStays(x, g, nm, r, x.top, x.top + m);
    WordStays(x, g, nm, r, x.top, x.top + m + 1);
  }

  lemma RetireAfter(x: St, y: St, g: int, nm: bool, r: Region, m: int, e: int)
    requires Retirable(x, y, g, nm, r, m) && e == x.top + m + 2 && e in y.c
    ensures HeadAt(y.c, y.lo, y.hi, nm, e)
  {
    hide Linked, FastLinked, Indexed, FastIndexed, Attached, Placed, Tiled, Tagged, RegionsOk, WithinLo, WithinHi;
    var z := Attached(x, r);
    OldTop(x, y, g, nm, r, m);
    RetirePieces(x, y, g, nm, r, m, e);
    RetireWrites(x, y, g, nm, r, m, e);
    AttachBase(x, g, nm, r);
    SlotsIdle(z, g, x.top);
    HeadsKeptBy(z.c, z.s, z.lo, z.hi, y.lo, y.hi, nm, x.top, e);
    assert HeadAt(z.c, z.lo, z.hi, nm, e) by { TaggedAt(z.c, z.lo, z.hi, nm, e); }
    HeadAfterTop(z, y, g, nm, x.top, e);
  }

  lemma TaggedAt(c: map<int, Chunk>, lo: map<int, int>, hi: map<int, Word>, nm: bool, p: int)
    requires Tagged(c, lo, hi, nm) && p in c
    ensures HeadAt(c, lo, hi, nm, p)
  {
  }

  lemma RetireLists(x: St, y: St, g: int, nm: bool, r: Region, m: int, e: int)
    requires Retirable(x, y, g, nm, r, m) && e == x.top + m + 2
    ensures Linked(x.s, y.lo, y.hi) && SlotsRecut(x.s, x.s, y.c, x.top, e)
  {
    hide Linked, FastLinked, FastIndexed, RegionsOk, Tagged, Attached, Placed;
    OldTop(x, y, g, nm, r, m);
    RetirePieces(x, y, g, nm, r, m, e);
    AttachBase(x, g, nm, r);
    AttachedChunks(x, r);
    var z := Attached(x, r);
    assert ChunkAt(z.c, x.top);
    forall q | q in x.s
      ensures q in z.c && z.c[q].tag == Binned && (q + 1 < x.top || e <= q)
    {
      assert SlotFits(x.s, z.c, g, q) && ChunkAt(z.c, q) && Apart(z.c, q, x.top);
    }
    LinkedFrame(x.s, z.lo, z.hi, y.lo, y.hi);
  }

  lemma RetireSettles(x: St, y: St, g: int, nm: bool, r: Region, m: int, e: int)
    requires Retirable(x, y, g, nm, r, m) && e == x.top + m + 2
    ensures Base(Attached(x, r), g, nm) && Settled(Attached(x, r), y, nm, x.top, e)
  {
    hide Linked, FastLinked, Indexed, FastIndexed, RegionsOk, Tagged, Attached, Placed, Recut, Rewrote, SlotsRecut,
      HeadAt, Tiled;
    AttachedChunks(x, r);
    OldTop(x, y, g, nm, r, m);
    AttachBase(x, g, nm, r);
    RetirePieces(x, y, g, nm, r, m, e);
    RetireTiled(x, y, g, nm, r, m, e);
    RetirePlaced(x, y, g, nm, r, m, e);
    RetireWrites(x, y, g, nm, r, m, e);
    RetireLists(x, y, g, nm, r, m, e);
    forall q | q in y.c && x.top <= q <= e
      ensures HeadAt(y.c, y.lo, y.hi, nm, q)
    {
      if q < e { RetireHeads(x, y, g, nm, r, m, e, q); } else { RetireAfter(x, y, g, nm, r, m, e); }
    }
    assert x.top in y.hi && y.hi[x.top].Size? && y.hi[x.top].p;
  }

  // With m >= 2 the old top counts as in use until it is freed.
  lemma RetireGood(x: St, y: St, g: int, nm: bool, r: Region, m: int)
    requires Retirable(x, y, g, nm, r, m)
    ensures Good(y, g, nm)
    ensures if m >= 2 then HandedOut(x, y, x.top, m) else Unnoticed(x, y)
  {
    hide Base, Placed, Attached, Settled, BodiesKept, DataKept, Retired, Unnoticed;
    var z, e := Attached(x, r), x.top + m + 2;
    AttachBase(x, g, nm, r);
    OldTop(x, y, g, nm, r, m);
    RetirePieces(x, y, g, nm, r, m, e);
    RetireSettles(x, y, g, nm, r, m, e);
    Settle(z, y, g, nm, x.top, e);
    RetiredTags(z.c, x.top, m, nm);
    if m >= 2 {
      OutsideKept(z, y, x.top, e);
      UnnoticedThenOut(x, z, y, x.top, m);
    } else {
      OutsideSame(z, y, x.top, e);
      UnnoticedTrans(x, z, y);
    }
  }

  lemma RetiredTags(c: map<int, Chunk>, t: int, m: int, nm: bool)
    requires t in c && m >= 0
    ensures var d := Retired(c, t, m, nm); t in d && (if m >= 2 then d[t].tag == Live && d[t].size == m else d[t].tag != Live)
  {
  }

  lemma OutsideSame(x: St, y: St, b: int, e: int)
    requires Recut(x.c, y.c, b, e) && BodiesKept(x.c, x.lo, x.hi, y.lo, y.hi, b, e)
    requires forall q {:trigger x.c[q]} :: q in x.c && b <= q < e ==> x.c[q].tag != Live
    requires forall q {:trigger y.c[q]} :: q in y.c && b <= q < e ==> y.c[q].tag != Live
    ensures Unnoticed(x, y)
  {
    forall q | q in x.c && x.c[q].tag == Live
      ensures SameBody(x.lo, x.hi, y.lo, y.hi, q, x.c[q].size)
    {
    }
    assert forall q {:trigger q in x.c} :: q in x.c && x.c[q].tag == Live ==> q in y.c && y.c[q] == x.c[q];
    assert forall q {:trigger q in y.c} :: q in y.c && y.c[q].tag == Live ==> q in x.c && y.c[q] == x.c[q];
  }
}
