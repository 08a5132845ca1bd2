/** The end markers of a heap that is no longer the newest one. */
module Fences {
  import opened Memory
  import opened BinLists
  import opened Chunks
  import opened Frames
  import opened FastLists
  import opened Layout
  import opened State
  import opened Release
  import opened Freeing
  import opened DroppingHeaps

  // The end markers of the heap before the newest one.
  ghost function MarkEnd(x: St): int
    requires |x.rs| >= 2
  { x.rs[|x.rs| - 2].end - 1 }

  ghost function MarkStart(x: St): int
    requires |x.rs| >= 2
  { var l := MarkEnd(x); if l in x.lo then l - x.lo[l] else l }

  ghost function NewTop(x: St): int
    requires |x.rs| >= 2
  { var f := MarkStart(x); if f in x.hi && x.hi[f].Size? && !x.hi[f].p && f in x.lo then f - x.lo[f] else f }

  lemma MarksAre(x: St, g: int, nm: bool)
    requires Droppable(x, g, nm) && nm
    ensures var l := MarkEnd(x); l in x.c && x.c[l].tag == Last && l in x.lo && l in x.hi && x.hi[l] == Size(0, true, false) && x.c[l].home == |x.rs| - 2
    ensures var f := MarkStart(x);
      && f in x.c && x.c[f].tag == Fence && f in x.lo && f in x.hi && x.hi[f].Size? && x.hi[f].n == x.c[f].size
      && f + x.c[f].size == MarkEnd(x) && 1 <= x.c[f].size <= 2 && x.c[f].home == |x.rs| - 2
  {
    hide Linked, FastLinked, Indexed, FastIndexed;
    var l := MarkEnd(x);
    assert CornerAt(x.c, x.rs, x.top, |x.rs| - 2);
    assert HeadAt(x.c, x.lo, x.hi, nm, l);
    var f := l - x.lo[l];
    assert ChunkAt(x.c, f) && HeadAt(x.c, x.lo, x.hi, nm, f);
  }

  lemma NewTopIs(x: St, g: int, nm: bool)
    requires Droppable(x, g, nm) && nm
    ensures var f, b := MarkStart(x), NewTop(x);
      && b in x.c && b in x.hi && x.hi[b].Size? && x.hi[b].p && b <= f && x.c[b].home == |x.rs| - 2 && x.c[b].tag != Last
      && (b != f ==> x.c[b].tag == Binned && b + x.c[b].size == f && b in x.s && f in x.hi && x.hi[f].Size? && !x.hi[f].p && x.lo[f] == x.c[b].size)
      && (b == f ==> f in x.hi && x.hi[f].Size? && x.hi[f].p && b !in x.s)
      && NoBinnedBefore(x.c, b) && NoFenceBefore(x.c, b) && b < MarkEnd(x)
  {
    hide Linked, FastLinked, FastIndexed, RegionsOk;
    MarksAre(x, g, nm);
    LowEdgeIs(x, g, nm, MarkStart(x));
    var f, b := MarkStart(x), NewTop(x);
    assert b == LowEdge(x.c, f);
    OnlyBinnedListed(x, g, nm, f);
    if b == f {
      PrevInUse(x.c, x.lo, x.hi, nm, f);
      forall q | q in x.c && q + x.c[q].size == b
        ensures x.c[q].tag != Fence
      {
        assert HeadAt(x.c, x.lo, x.hi, nm, q);
      }
    } else {
      BinnedHasLivePrev(x.c, x.lo, x.hi, nm, b);
      NoFence(x.c, b);
      LiveHasRoom(x, g, nm, b);
    }
  }

  lemma MarkPieces(x: St, g: int, nm: bool, b: int, e: int)
    requires Droppable(x, g, nm) && nm && b == NewTop(x) && e == MarkEnd(x) + 1
    ensures 0 < b < e && b in Dropped(x).c && Pieces(Dropped(x).c, |x.rs| - 2, b, e)
    ensures forall q :: q in Dropped(x).c && b <= q < e ==> q == b || q == MarkStart(x) || q == MarkEnd(x)
    ensures b + 2 <= e
  {
    hide Linked, FastLinked, Indexed, FastIndexed, Tagged, Placed, RegionsOk, NoBinnedBefore, NoFenceBefore;
    MarksAre(x, g, nm);
    NewTopIs(x, g, nm);
    OnlyTopThere(x, g, nm, b);
    var f, l := MarkStart(x), MarkEnd(x);
    assert ChunkAt(x.c, b) && ChunkAt(x.c, f) && ChunkAt(x.c, l);
    forall q | q in Dropped(x).c && b <= q < e
      ensures q == b || q == f || q == l
    {
      assert Apart(x.c, b, q) && Apart(x.c, q, f) && Apart(x.c, f, q) && Apart(x.c, q, l) && ChunkAt(x.c, q);
    }
  }

  // The newest heap is gone, and the markers of the heap before it have become the top.
  ghost function Retopped(x: St): map<int, Chunk>
    requires |x.rs| >= 2 && NewTop(x) in Dropped(x).c
  { Fuse(Dropped(x).c, NewTop(x), MarkEnd(x) + 1, Top) }

  lemma RetopRecut(x: St, g: int, nm: bool, b: int, e: int)
    requires Droppable(x, g, nm) && nm && b == NewTop(x) && e == MarkEnd(x) + 1
    ensures b in Dropped(x).c && Recut(Dropped(x).c, Retopped(x), b, e) && Tiled(Retopped(x))
    ensures forall q :: q in Retopped(x) && b <= q < e ==> q == b
    ensures Retopped(x)[b] == Chunk(e - b, Top, |x.rs| - 2)
  {
    hide Linked, FastLinked, Indexed, FastIndexed, Tagged, Placed, RegionsOk, Tiled, Unmap;
    MarksAre(x, g, nm);
    NewTopIs(x, g, nm);
    MarkPieces(x, g, nm, b, e);
    var c, d := Dropped(x).c, Retopped(x);
    assert Recut(c, d, b, e);
    assert ChunkAt(d, b) && Apart(d, b, b);
    DropTiled(x, g, nm);
    RecutTiled(c, d, b, e);
  }

  lemma RetopPlaced(x: St, g: int, nm: bool, b: int, e: int)
    requires Droppable(x, g, nm) && nm && b == NewTop(x) && e == MarkEnd(x) + 1 && b in Dropped(x).c
    ensures Placed(Retopped(x), x.rs[..|x.rs| - 1], b)
  {
    hide Linked, FastLinked, Indexed, FastIndexed, Tagged, RegionsOk, Tiled, Unmap, Retopped;
    var c, d, rs := Dropped(x).c, Retopped(x), x.rs[..|x.rs| - 1];
    var n := |rs|;
    MarksAre(x, g, nm);
    NewTopIs(x, g, nm);
    RetopRecut(x, g, nm, b, e);
    DropBase(x, g, nm);
    forall q | q in d
      ensures PlacedAt(d, rs, q)
    {
      assert PlacedAt(x.c, x.rs, b);
      if q != b { assert q in c && PlacedAt(x.c, x.rs, q); }
    }
    forall i | 0 <= i < n
      ensures CornerAt(d, rs, b, i)
    {
      RetopCorner(x, g, nm, b, e, i);
    }
  }

  lemma RetopCorner(x: St, g: int, nm: bool, b: int, e: int, i: int)
    requires Droppable(x, g, nm) && nm && b == NewTop(x) && e == MarkEnd(x) + 1 && b in Dropped(x).c && 0 <= i < |x.rs| - 1
    ensures CornerAt(Retopped(x), x.rs[..|x.rs| - 1], b, i)
  {
    hide Linked, FastLinked, Indexed, FastIndexed, Tagged, RegionsOk, Tiled, Unmap, Retopped;
    NewTopIs(x, g, nm);
    RetopRecut(x, g, nm, b, e);
    assert CornerAt(x.c, x.rs, x.top, i) && CornerAt(x.c, x.rs, x.top, |x.rs| - 1);
    assert PlacedAt(x.c, x.rs, b);
    var q := x.rs[i].first;
    assert q in Dropped(x).c;
    if i < |x.rs| - 2 { assert x.rs[i].end - 1 in Dropped(x).c; }
  }

  // The state heap_trim leaves after one round of its loop.
  ghost predicate RetoppedTo(x: St, y: St) {
    && |x.rs| >= 2 && NewTop(x) in Dropped(x).c
    && y == Dropped(x).(c := Retopped(x), top := NewTop(x), s := x.s - {NewTop(x)}, lo := y.lo, hi := y.hi)
    && Linked(y.s, y.lo, y.hi)
    && WroteLo(x.s, {}, Dropped(x).lo, y.lo) && WroteHi(x.s, {NewTop(x)}, Dropped(x).hi, y.hi)
    && NewTop(x) in y.hi && y.hi[NewTop(x)] == Size(MarkEnd(x) + 1 - NewTop(x), true, false)
  }

  lemma RetopSettles(x: St, y: St, g: int, nm: bool, b: int, e: int)
    requires Droppable(x, g, nm) && nm && b == NewTop(x) && e == MarkEnd(x) + 1 && RetoppedTo(x, y)
    ensures Settled(Dropped(x), y, nm, b, e)
  {
    hide Linked, FastLinked, Indexed, FastIndexed, Tagged, RegionsOk, Tiled, Unmap, Retopped, Placed;
    MarksAre(x, g, nm);
    NewTopIs(x, g, nm);
    OnlyTopThere(x, g, nm, b);
    assert ChunkAt(x.c, b) by { TiledAt(x.c, b); }
    WordKept(x, g, nm, b, b);
    RetopRecut(x, g, nm, b, e);
    RetopPlaced(x, g, nm, b, e);
    RewroteBy(Dropped(x), y, x.s, b, e);
    RetopHeads(x, y, g, nm, b, e);
    RetopSlots(x, y, g, nm, b, e);
  }

  lemma RetopSlots(x: St, y: St, g: int, nm: bool, b: int, e: int)
    requires Droppable(x, g, nm) && nm && b == NewTop(x) && e == MarkEnd(x) + 1 && RetoppedTo(x, y)
    ensures SlotsRecut(x.s, y.s, y.c, b, e)
    ensures forall q :: q in Dropped(x).c && b <= q < e ==> Dropped(x).c[q].tag != Fast
  {
    hide Linked, FastLinked, FastIndexed, Tagged, RegionsOk, Tiled, Unmap, Retopped, Placed;
    MarksAre(x, g, nm);
    NewTopIs(x, g, nm);
    MarkPieces(x, g, nm, b, e);
    RetopRecut(x, g, nm, b, e);
    forall q | q in x.s && b <= q < e
      ensures q == b
    {
      assert SlotFits(x.s, x.c, g, q);
      OnlyTopThere(x, g, nm, q);
      assert q in Dropped(x).c;
    }
  }

  lemma RetopHeads(x: St, y: St, g: int, nm: bool, b: int, e: int)
    requires Droppable(x, g, nm) && nm && b == NewTop(x) && e == MarkEnd(x) + 1 && RetoppedTo(x, y)
    ensures HeadAt(y.c, y.lo, y.hi, nm, b)
    ensures e in y.c ==> HeadAt(y.c, y.lo, y.hi, nm, e)
  {
    hide Linked, FastLinked, Indexed, FastIndexed, Unmap, Retopped, Placed, Pieces, Tiled, Tagged, RegionsOk;
    var z := Dropped(x);
    NewTopIs(x, g, nm);
    MarkPieces(x, g, nm, b, e);
    MarksAre(x, g, nm);
    RetopRecut(x, g, nm, b, e);
    DropBase(x, g, nm);
    WordKept(x, g, nm, b, b) by { assert ChunkAt(x.c, b) by { TiledAt(x.c, b); } OnlyTopThere(x, g, nm, b); }
    SlotsIdle(z, g, b);
    NoLinkAtStart(z.c, x.s, b, b);
    if e in y.c {
      RetopAfter(x, y, g, nm, b, e);
    }
  }

  lemma RetopAfter(x: St, y: St, g: int, nm: bool, b: int, e: int)
    requires Droppable(x, g, nm) && nm && b == NewTop(x) && e == MarkEnd(x) + 1 && RetoppedTo(x, y) && e in y.c
    ensures HeadAt(y.c, y.lo, y.hi, nm, e)
  {
    hide Linked, FastLinked, FastIndexed, Unmap, Retopped, Placed, RegionsOk;
    var z := Dropped(x);
    MarkPieces(x, g, nm, b, e);
    MarksAre(x, g, nm);
    NewTopIs(x, g, nm);
    RetopRecut(x, g, nm, b, e);
    DropBase(x, g, nm);
    SlotsIdle(z, g, b);
    RewroteBy(z, y, x.s, b, e);
    HeadsKeptBy(z.c, x.s, z.lo, z.hi, y.lo, y.hi, nm, b, e);
    NoLinkAtStart(z.c, x.s, b, e);
    assert HeadAt(z.c, z.lo, z.hi, nm, e);
    HeadAfterTop(z, y, g, nm, b, e);
  }
}
