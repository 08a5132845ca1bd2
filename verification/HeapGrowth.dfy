/** grow_heap as sYSMALLOc calls it, with an amount that it may read as negative. */
module HeapGrowth {
  import opened Memory
  import opened Sizes
  import opened Layout
  import opened State
  import opened Arenas
  import opened Consolidating
  import opened DroppingHeaps
  import opened Trimming
  import opened Pages
  import opened HeapTrim
  import opened Growing

  // A size_t, of an address space of limit granules, read as a signed long.
  function Long(x: int, limit: int): int { if 2 * x >= limit then x - limit else x }

  // ---- the branch for negative amounts

  lemma ShortHeapBreaks(x: St, y: St, g: int, nm: bool)
    requires Good(x, g, nm) && x.rs != [] && y.top == x.top && y.c == x.c && |y.rs| == |x.rs| && y.rs[|y.rs| - 1].end != x.rs[|x.rs| - 1].end
    ensures !Good(y, g, nm)
  {
    hide Good;
    TopIsTop(x, g, nm);
    if Good(y, g, nm) { TopIsTop(y, g, nm); }
  }

  // grow_heap for a negative amount; remapped is the answer of mmap, which needs a whole page to
  // start at. On success the newest heap ends earlier, whatever is there.
  method ShrinkHeap(a: Arena, diff: int, remapped: bool) returns (r: int)
    requires a.Valid() && a.nonMain && diff < 0
    modifies a`lo, a`hi, a`regions, a`systemMem
    ensures a.page > 0 && |old(a.regions)| > 0 && |a.regions| == |old(a.regions)|
    ensures var heap := old(a.regions)[|old(a.regions)| - 1];
      && (r == -1 <==> heap.end - heap.base + diff < 2)
      && (r == 0 <==> heap.end - heap.base + diff >= 2 && (heap.end + diff) % a.page == 0 && remapped)
      && (r == 0 ==> a.regions == old(a.regions)[|old(a.regions)| - 1 := heap.(end := heap.end + diff)] && !a.Valid())
      && (r == 0 ==> a.lo == Unmap(old(a.lo), heap.(base := heap.end + diff)) && a.hi == Unmap(old(a.hi), heap.(base := heap.end + diff)))
    ensures r != 0 ==> a.Valid() && a.Now() == old(a.Now()) && a.systemMem == old(a.systemMem)
    ensures r == 0 ==> a.systemMem == old(a.systemMem) + diff
    ensures r == -1 || r == -2 || r == 0
  {
    hide Good, MapOk, SystemSize, HeapsOk, NFastbins, FastbinIndex, WithinLimit, UnitsOk, Unmap;
    FirstHeapStays(a.Now(), a.g, a.nonMain, a.page, a.heapMax);
    var n := |a.regions| - 1;
    var heap := a.regions[n];
    var new_size := heap.end - heap.base + diff;
    if new_size < 2 { return -1; }
    if (heap.base + new_size) % a.page != 0 || !remapped { return -2; }
    var gone := heap.(base := heap.base + new_size);
    a.lo := Unmap(a.lo, gone);
    a.hi := Unmap(a.hi, gone);
    a.regions := a.regions[n := heap.(end := heap.base + new_size)];
    a.systemMem := a.systemMem + diff;
    ShortHeapBreaks(old(a.Now()), a.Now(), a.g, a.nonMain);
    return 0;
  }

  // ---- when the amount is read as negative

  // For a request of n granules grow_heap is asked for n + MINSIZE less the size of the top. This
  // is read as negative, and the heap would end at the start of a page below the top.
  predicate Cuts(n: int, top: int, old_size: int, base: int, page: int, limit: int)
    requires page > 0
  { 2 * (n + 2 - old_size) >= limit && top + n + 2 - limit >= base + 2 && (top + n + 2 - limit) % page == 0 }

  ghost predicate Endangered(a: Arena, n: int)
    reads a
  {
    && a.nonMain && a.page > 0 && a.regions != [] && a.top in a.chunks
    && Cuts(n, a.top, a.chunks[a.top].size, a.regions[|a.regions| - 1].base, a.page, a.limit)
  }

  lemma NotMapped(hi: map<int, Word>, r: Region, p: int)
    requires r.base <= p < r.end
    ensures p !in Unmap(hi, r)
  {
  }

  // The newest heap can grow until the top, of top granules now, serves a request of n granules.
  predicate HasRoom(a: Arena, rs: seq<Region>, top: int, n: int)
    requires a.page > 0
  {
    var diff := RoundUp(n + 2 - top, a.page);
    rs != [] && 2 * diff < a.limit && rs[|rs| - 1].end - rs[|rs| - 1].base + diff <= a.heapMax
  }

  // grow_heap with what its caller does on success; granted is the answer of the system. The heap
  // stays as it should be exactly when not both the request endangers it and the system agrees: then
  // the heap ends below the top, whose header, that the caller writes next, is not mapped any more.
  method GrowHeap(a: Arena, n: int, granted: bool) returns (r: int)
    requires a.Valid() && a.nonMain && n >= 2 && n + 2 < a.limit && a.top in a.chunks && a.chunks[a.top].size < n + 2
    modifies a`lo, a`hi, a`chunks, a`regions, a`systemMem
    ensures a.Valid() <==> !(old(Endangered(a, n)) && granted)
    ensures a.Valid() ==> Unnoticed(old(a.Now()), a.Now()) && (r != 0 ==> a.Now() == old(a.Now()))
    ensures a.Valid() && r == 0 ==> a.top in a.chunks && a.chunks[a.top].size >= n + 2 && a.chunks == old(a.chunks)[a.top := a.chunks[a.top]]
    ensures a.Valid() && r == 0 ==> Blank(a.lo, a.hi, a.top + old(a.chunks)[a.top].size, a.top + a.chunks[a.top].size)
    ensures !a.Valid() ==> r == 0 && a.regions != [] && a.regions[|a.regions| - 1].end < a.top && a.top !in a.hi
    ensures a.slots == old(a.slots) && a.top == old(a.top)
    ensures a.page > 0 && (a.Valid() ==> (r == 0 <==> granted && HasRoom(a, old(a.regions), old(a.chunks)[old(a.top)].size, n)))
    ensures a.Valid() && r == 0 ==>
      a.chunks[a.top].size == old(a.chunks)[a.top].size + RoundUp(n + 2 - old(a.chunks)[a.top].size, a.page)
  {
    hide Good, Unnoticed, HeapsOk, RegionsOk, SystemSize, FastbinIndex, Bytes, NFastbins, MapOk, RoundUp,
      Blank, WithinLimit, UnitsOk, Unmap;
    ghost var x := a.Now();
    SelfKept(x);
    FirstHeapStays(x, a.g, a.nonMain, a.page, a.heapMax);
    TopIsTop(x, a.g, a.nonMain);
    var diff := Long(n + 2 - a.hi[a.top].n, a.limit);
    RoundUpIs(n + 2 - a.hi[a.top].n, a.page);
    if diff >= 0 {
      r := GrowTop(a, diff, granted);
    } else {
      r := ShrinkHeap(a, diff, granted);
      if r == 0 {
        ghost var heap := x.rs[|x.rs| - 1];
        NotMapped(x.hi, heap.(base := heap.end + diff), a.top);
      }
    }
  }

  // ---- the guard of the caller

  // The request is smaller than what remains of the address space beside all but a page of a heap.
  predicate Guard(n: int, page: int, hm: int, limit: int) { n + hm < limit + page }

  // A heap of whole pages, with a top of old_size granules at its end.
  predicate HeapWithTop(base: int, end: int, top: int, page: int, hm: int)
    requires page > 0 && hm > 0
  { base % hm == 0 && base % page == 0 && end % page == 0 && end - base <= hm && base + 2 <= top && top + 2 <= end }

  lemma GuardSafe(n: int, base: int, end: int, top: int, page: int, hm: int, limit: int)
    requires page > 0 && hm > 0 && HeapWithTop(base, end, top, page, hm) && Guard(n, page, hm, limit)
    ensures !Cuts(n, top, end - top, base, page, limit)
  {
    var e := top + n + 2 - limit;
    if e % page == 0 && e >= base + 2 {
      SumMod(e, base, page);
      ModSmall(e - base, page);
    }
  }

  // The top of the heap where a request beyond the guard does harm.
  function BadTop(n: int, base: int, page: int, limit: int): int { base + page + limit - n - 2 }

  lemma GuardNeeded(n: int, base: int, page: int, hm: int, limit: int)
    requires page >= 2 && hm > 0 && hm % page == 0 && base % hm == 0 && 2 * hm <= limit && n + 2 < limit && !Guard(n, page, hm, limit)
    ensures var top := BadTop(n, base, page, limit);
      HeapWithTop(base, base + hm, top, page, hm) && Cuts(n, top, base + hm - top, base, page, limit)
  {
    MultipleTrans(base, hm, page);
    SumMod(base, hm, page);
    ModFull(page);
    SumMod(base, page, page);
  }

  // No heap is endangered by a request of n granules if and only if the request passes the guard.
  lemma GuardExact(n: int, page: int, hm: int, limit: int)
    requires page >= 2 && hm > 0 && hm % page == 0 && 2 * hm <= limit && n + 2 < limit
    ensures Guard(n, page, hm, limit) <==>
      forall base, end, top {:trigger HeapWithTop(base, end, top, page, hm)} ::
        HeapWithTop(base, end, top, page, hm) ==> !Cuts(n, top, end - top, base, page, limit)
  {
    hide Cuts, HeapWithTop;
    if Guard(n, page, hm, limit) {
      forall base, end, top {:trigger HeapWithTop(base, end, top, page, hm)} | HeapWithTop(base, end, top, page, hm)
        ensures !Cuts(n, top, end - top, base, page, limit)
      {
        GuardSafe(n, base, end, top, page, hm, limit);
      }
    } else {
      ModFull(hm);
      GuardNeeded(n, hm, page, hm, limit);
      assert HeapWithTop(hm, hm + hm, BadTop(n, hm, page, limit), page, hm);
    }
  }

  lemma PagesOk(a: Arena)
    requires a.Counters() && a.nonMain
    ensures a.page > 0 && a.heapMax > 0 && HeapsOk(a.regions, a.page, a.heapMax)
  {
  }

  // The guard keeps every arena safe.
  lemma Unendangered(a: Arena, n: int)
    requires a.Valid() && Guard(n, a.page, a.heapMax, a.limit)
    ensures !Endangered(a, n)
  {
    hide Good, MapOk, SystemSize, HeapsOk, NFastbins, FastbinIndex, WithinLimit, UnitsOk, Cuts;
    if a.nonMain {
      var n0 := |a.regions| - 1;
      FirstHeapStays(a.Now(), a.g, a.nonMain, a.page, a.heapMax);
      TopIsTop(a.Now(), a.g, a.nonMain);
      HeapIs(a.regions, a.page, a.heapMax, n0);
      PagesOk(a);
      GuardSafe(n, a.regions[n0].base, a.regions[n0].end, a.top, a.page, a.heapMax, a.limit);
    }
  }
}
