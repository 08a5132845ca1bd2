/** The client writes into its own chunks. */
module ClientWrites {
  import opened Memory
  import opened Sizes
  import opened BinLists
  import opened Chunks
  import opened Frames
  import opened FastLists
  import opened Layout
  import opened State
  import opened Arenas
  import opened LiveView
  import opened Splitting
  import opened LiveCuts

  // Only words the client owns at q were written.
  ghost predicate WroteBody(x: St, y: St, q: int) {
    && q in x.c && x.c[q].tag == Live
    && y == x.(lo := y.lo, hi := y.hi)
    && (forall k {:trigger k in y.lo} {:trigger y.lo[k]} :: k in x.lo ==> k in y.lo && (!(q < k <= q + x.c[q].size) ==> y.lo[k] == x.lo[k]))
    && (forall k {:trigger k in y.hi} {:trigger y.hi[k]} :: k in x.hi ==> k in y.hi && (!(q < k < q + x.c[q].size) ==> y.hi[k] == x.hi[k]))
    && (forall k {:trigger k in x.lo} :: k in y.lo ==> k in x.lo)
    && (forall k {:trigger k in x.hi} :: k in y.hi ==> k in x.hi)
  }

  lemma WriteSettles(x: St, y: St, g: int, nm: bool, q: int, e: int)
    requires Good(x, g, nm) && WroteBody(x, y, q) && e == q + x.c[q].size
    ensures Settled(x, y, nm, q, e)
  {
    hide FastLinked, FastIndexed, RegionsOk, Tagged, Indexed, Placed, Tiled, Linked;
    LiveIs(x, g, nm, q);
    WriteHeads(x, y, g, nm, q, e);
    WriteLinks(x, y, g, nm, q, e);
    SlotsOutside(x, g, nm, q, e, x.c);
  }

  lemma WriteHeads(x: St, y: St, g: int, nm: bool, q: int, e: int)
    requires Good(x, g, nm) && WroteBody(x, y, q) && e == q + x.c[q].size
    ensures HeadAt(y.c, y.lo, y.hi, nm, q) && HeadAt(y.c, y.lo, y.hi, nm, e)
  {
    hide Linked, FastLinked, FastIndexed, RegionsOk, Indexed, Placed;
    LiveIs(x, g, nm, q);
    assert HeadAt(x.c, x.lo, x.hi, nm, q) && HeadAt(x.c, x.lo, x.hi, nm, e) && ChunkAt(x.c, e);
    if !Ends(x.c[e].tag) { assert HeadAt(x.c, x.lo, x.hi, nm, e + x.c[e].size); }
  }

  lemma WriteLinks(x: St, y: St, g: int, nm: bool, q: int, e: int)
    requires Good(x, g, nm) && WroteBody(x, y, q) && e == q + x.c[q].size
    ensures Linked(x.s, y.lo, y.hi)
  {
    hide Linked, FastLinked, FastIndexed, RegionsOk, Placed, Tagged;
    LiveIs(x, g, nm, q);
    forall p | p in x.s
      ensures p in x.c && (p + 1 < q || e <= p)
    {
      assert SlotFits(x.s, x.c, g, p) && ChunkAt(x.c, p) && Apart(x.c, p, q);
    }
    LinkedFrame(x.s, x.lo, x.hi, y.lo, y.hi);
  }

  // A client that writes within its own chunks cannot break the heap.
  lemma WriteGood(x: St, y: St, g: int, nm: bool, q: int)
    requires Good(x, g, nm) && WroteBody(x, y, q)
    ensures Good(y, g, nm) && LiveOf(y.c) == LiveOf(x.c) && DataKept(x.c, x.lo, x.hi, y.lo, y.hi, q)
  {
    hide Linked, FastLinked, FastIndexed, RegionsOk, Tagged, Indexed, Placed, Tiled, Settled, SameBody;
    var e := q + x.c[q].size;
    LiveIs(x, g, nm, q);
    WriteSettles(x, y, g, nm, q, e);
    Settle(x, y, g, nm, q, e);
    LiveRecutData(x, y, g, nm, q, e) by { assert Recut(x.c, y.c, q, e); }
  }

  // The client stores a word at offset j of its chunk.
  method StoreEven(a: Arena, q: int, j: int, w: int)
    requires a.Valid() && q in a.chunks && a.chunks[q].tag == Live && 0 < j <= a.chunks[q].size
    modifies a`lo
    ensures a.Valid() && a.lo == old(a.lo)[q + j := w] && q + j in old(a.lo)
    ensures DataKept(a.chunks, old(a.lo), a.hi, a.lo, a.hi, q)
  {
    hide Good, MapOk, HeapsOk, PageEnds, SystemSize, FastbinIndex, NFastbins, Bytes, WithinLimit, UnitsOk, DataKept, KnownTo;
    ghost var x := a.Now();
    WordOwned(x, a.g, a.nonMain, q, j);
    a.lo := a.lo[q + j := w];
    WriteGood(x, a.Now(), a.g, a.nonMain, q);
  }

  method StoreOdd(a: Arena, q: int, j: int, w: Word)
    requires a.Valid() && q in a.chunks && a.chunks[q].tag == Live && 0 < j < a.chunks[q].size
    modifies a`hi
    ensures a.Valid() && a.hi == old(a.hi)[q + j := w] && q + j in old(a.hi)
    ensures DataKept(a.chunks, a.lo, old(a.hi), a.lo, a.hi, q)
  {
    hide Good, MapOk, HeapsOk, PageEnds, SystemSize, FastbinIndex, NFastbins, Bytes, WithinLimit, UnitsOk, DataKept, KnownTo;
    ghost var x := a.Now();
    WordOwned(x, a.g, a.nonMain, q, j);
    ChunksInRegions(x, a.g, a.nonMain, q);
    a.hi := a.hi[q + j := w];
    WriteGood(x, a.Now(), a.g, a.nonMain, q);
  }

  lemma WordOwned(x: St, g: int, nm: bool, q: int, j: int)
    requires Good(x, g, nm) && q in x.c && x.c[q].tag == Live && 0 < j <= x.c[q].size
    ensures q + j in x.lo && q + j in x.hi
  {
    LiveIs(x, g, nm, q);
    if j < x.c[q].size { InsideMapped(x, q, q + j); } else { InsideMapped(x, q + j, q + j); }
  }
}
