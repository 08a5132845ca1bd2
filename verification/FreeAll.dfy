/** Free as the client sees it. */
module FreeAll {
  import opened Sizes
  import opened BinLists
  import opened Chunks
  import opened Frames
  import opened FastLists
  import opened Layout
  import opened State
  import opened Arenas
  import opened Release
  import opened LiveView
  import opened Consolidating
  import opened IntFree
  import opened HeapTrim
  import opened Pages

  // The client gives p back: nothing else it owns is touched.
  ghost predicate GivenBack(x: St, y: St, p: int) {
    && LiveOf(y.c) == LiveOf(x.c) - {p}
    && DataKept(x.c, x.lo, x.hi, y.lo, y.hi, p)
  }

  lemma GivenThenUnnoticed(x: St, y: St, z: St, g: int, nm: bool, p: int)
    requires GivenBack(x, y, p) && Unnoticed(y, z) && Good(y, g, nm)
    ensures GivenBack(x, z, p)
  {
    hide Linked, FastLinked, Indexed, FastIndexed, Tagged, RegionsOk, Placed;
    assert LiveOf(x.c) - {p} == LiveOf(y.c) - {p};
    forall q | q in y.c && y.c[q].tag == Live && q != p
      ensures SameBody(y.lo, y.hi, z.lo, z.hi, q, y.c[q].size)
    {
      assert ChunkAt(y.c, q);
    }
    DataTrans(x.c, y.c, x.lo, x.hi, y.lo, y.hi, z.lo, z.hi, p);
  }

  // The size of p with its free neighbours.
  ghost function MergedSize(c: map<int, Chunk>, p: int): int
    requires p in c
  { HighEdge(c, p) - LowEdge(c, p) }

  lemma MergedIs(c: map<int, Chunk>, p: int, size: int)
    requires p in c && size == HighEdge(c, p) - LowEdge(c, p)
    ensures MergedSize(c, p) == size
  {
  }

  // heap_trim has been: no heap is empty unless it has to stay, what was given back leaves enough,
  // and if the system remaps, whole pages beyond what is to be kept are gone.
  ghost predicate HeapsTrimmed(rs: seq<Region>, y: St, hm: int, pad: int, page: int, remapped: bool) {
    && Settles(y, hm, pad + 2 + page)
    && (|y.rs| < |rs| ==> Roomy(y, hm, pad + 2 + page))
    && (remapped ==> y.top in y.c && y.c[y.top].size <= pad + 2 + page)
  }

  // aproxy_int_free; remapped is what the system answers if heap_trim asks it
  method Free(a: Arena, p: int, remapped: bool) returns (ok: bool)
    requires a.Valid() && p in a.chunks && a.chunks[p].tag == Live
    modifies a
    ensures ok
    ensures a.Valid()
    ensures GivenBack(old(a.Now()), a.Now(), p)
    ensures OnlyUnsortedAdded(old(a.slots), a.slots)
    ensures a.maxFast == old(a.maxFast) && a.binmap == old(a.binmap) && a.lastRemainder == old(a.lastRemainder) && a.contiguous == old(a.contiguous)
    ensures Shrunk(old(a.regions), a.regions)
    ensures !a.nonMain ==> a.regions == old(a.regions)
    ensures Bytes(a.g, old(a.chunks)[p].size) <= old(a.maxFast) ==> a.chunks == Retag(old(a.chunks), p, Fast) && p in a.fastbins
    ensures Bytes(a.g, old(a.chunks)[p].size) > old(a.maxFast)
      && (Bytes(a.g, MergedSize(old(a.chunks), p)) < CONSOLIDATION_THRESHOLD || (!a.nonMain && !old(a.haveFast)))
      ==> a.chunks == Released(old(a.chunks), p)
    ensures Bytes(a.g, old(a.chunks)[p].size) > old(a.maxFast) && Bytes(a.g, MergedSize(old(a.chunks), p)) >= CONSOLIDATION_THRESHOLD
      ==> !a.haveFast && (a.nonMain ==> HeapsTrimmed(old(a.regions), a.Now(), a.heapMax, a.topPad, a.page, remapped))
    ensures Bytes(a.g, old(a.chunks)[p].size) <= old(a.maxFast) || Bytes(a.g, MergedSize(old(a.chunks), p)) < CONSOLIDATION_THRESHOLD
      ==> a.regions == old(a.regions)
  {
    hide HeapsTrimmed, Good, Unnoticed, DataKept, LiveOf, Retag, Released, MapOk, HeapsOk, SystemSize, NFastbins, LowEdge, HighEdge,
      MergedSize, KnownTo;
    ghost var x := a.Now();
    NextPassesTests(x, a.g, a.nonMain, p);
    AddressesFit(a.regions, x.c[p].home, if a.nonMain then a.heapMax else 0, a.limit, p, a.hi[p].n);
    // Little security check: the allocator never wraps around at the end of the address space.
    if p > a.limit - a.hi[p].n { return false; }
    if Bytes(a.g, a.hi[p].n) <= a.maxFast {
      RetagLive(x.c, p);
      ok := FreeFast(a, p);
      assert GivenBack(x, a.Now(), p);
    } else {
      var size;
      size, ok := FreeNormal(a, p);
      MergedIs(x.c, p, size);
      assert GivenBack(x, a.Now(), p);
      if Bytes(a.g, size) >= CONSOLIDATION_THRESHOLD {
        var ok' := FreeLarge(a, x, p, remapped);
        ok := ok && ok';
      }
    }
  }

  lemma AddressesFit(rs: seq<Region>, h: int, hm: int, limit: int, p: int, n: int)
    requires 0 <= h < |rs| && p + n <= rs[h].end && WithinLimit(rs, hm, limit)
    ensures p <= limit - n
  {
  }

  lemma RetagLive(c: map<int, Chunk>, p: int)
    requires p in c
    ensures LiveOf(Retag(c, p, Fast)) == LiveOf(c) - {p}
  {
  }

  // The heap that the top lies in belongs to the arena.
  lemma TopKnowsArena(a: Arena)
    requires a.Valid() && a.nonMain
    ensures a.heapMax > 0 && HeapForPtr(a.top, a.heapMax) in a.arPtr && a.arPtr[HeapForPtr(a.top, a.heapMax)] == a.id
  {
    hide Good, MapOk, SystemSize, FastbinIndex, NFastbins, Bytes, WithinLimit, UnitsOk, TopKnown;
    FirstHeapStays(a.Now(), a.g, a.nonMain, a.page, a.heapMax);
    var n := |a.regions| - 1;
    HeapIs(a.regions, a.page, a.heapMax, n);
    WithinArea(a.top, a.regions[n].base, a.heapMax);
  }

  // Freeing a large space: consolidate, then try to trim.
  method FreeLarge(a: Arena, ghost x: St, ghost p: int, remapped: bool) returns (ok: bool)
    requires a.Valid() && GivenBack(x, a.Now(), p) && OnlyUnsortedAdded(x.s, a.slots)
    modifies a
    ensures ok && a.Valid() && GivenBack(x, a.Now(), p) && OnlyUnsortedAdded(x.s, a.slots) && !a.haveFast
    ensures !a.nonMain && !old(a.haveFast) ==> a.chunks == old(a.chunks)
    ensures a.maxFast == old(a.maxFast) && a.binmap == old(a.binmap) && a.lastRemainder == old(a.lastRemainder) && a.contiguous == old(a.contiguous)
    ensures Shrunk(old(a.regions), a.regions)
    ensures !a.nonMain ==> a.regions == old(a.regions)
    ensures a.nonMain ==> HeapsTrimmed(old(a.regions), a.Now(), a.heapMax, a.topPad, a.page, remapped)
  {
    hide Settles, Roomy, Good, Unnoticed, GivenBack, MapOk, HeapsOk, SystemSize, NFastbins, FastbinIndex, Bytes, KnownTo;
    ghost var y := a.Now();
    ok := true;
    if a.haveFast {
      ok := Consolidate(a);
      GivenThenUnnoticed(x, y, a.Now(), a.g, a.nonMain, p);
    }
    // In the main arena sYSTRIm asks MORECORE, which fails: nothing to do.
    if a.nonMain {
      y := a.Now();
      TopKnowsArena(a);
      ok := ok && a.arPtr[HeapForPtr(a.top, a.heapMax)] == a.id;
      var r, ok' := Trim(a, a.topPad, remapped);
      ok := ok && ok';
      GivenThenUnnoticed(x, y, a.Now(), a.g, a.nonMain, p);
    }
  }
}
