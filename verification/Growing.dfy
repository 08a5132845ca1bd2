/** grow_heap: the top grows at the end of the newest heap. */
module Growing {
  import opened Memory
  import opened Sizes
  import opened BinLists
  import opened Chunks
  import opened FastLists
  import opened Layout
  import opened State
  import opened Arenas
  import opened Consolidating
  import opened Trimming
  import opened Resizing
  import opened Pages
  import opened HeapTrim

  function ZerosLo(b: int, e: int): map<int, int> { map k | b <= k < e :: ZeroLo(k) }
  function ZerosHi(b: int, e: int): map<int, Word> { map k | b <= k < e :: ZeroHi(k) }

  // Heaps of one arena lie in different areas of HEAP_MAX_SIZE.
  lemma AreasApart(rs: seq<Region>, page: int, hm: int, i: int, j: int)
    requires HeapsOk(rs, page, hm) && 0 <= i < |rs| && 0 <= j < |rs| && RegionsApart(rs[i], rs[j])
    requires rs[i].base < rs[i].end && rs[j].base < rs[j].end
    ensures rs[i].base + hm <= rs[j].base || rs[j].base + hm <= rs[i].base
  {
    HeapIs(rs, page, hm, i);
    HeapIs(rs, page, hm, j);
    var x, y := rs[i].base, rs[j].base;
    SumMod(x, y, hm);
    DivMod(x - y, hm);
    MulAtLeast((x - y) / hm, hm);
  }

  lemma GrowRegions(rs: seq<Region>, page: int, hm: int, lo: map<int, int>, hi: map<int, Word>, end: int)
    requires RegionsOk(rs, lo, hi) && HeapsOk(rs, page, hm)
    requires rs[|rs| - 1].end <= end <= rs[|rs| - 1].base + hm
    ensures var n := |rs| - 1;
      RegionsOk(rs[n := rs[n].(end := end)], lo + ZerosLo(rs[n].end, end), hi + ZerosHi(rs[n].end, end))
  {
    var n := |rs| - 1;
    var ts := rs[n := rs[n].(end := end)];
    forall i, j | 0 <= i < j < |ts|
      ensures RegionsApart(ts[i], ts[j])
    {
      assert RegionsApart(rs[i], rs[j]);
      HeapIs(rs, page, hm, i);
      AreasApart(rs, page, hm, i, j);
    }
  }

  lemma GrowIsResize(x: St, y: St, g: int, nm: bool, page: int, hm: int, topSize: int, diff: int)
    requires Good(x, g, nm) && HeapsOk(x.rs, page, hm) && x.top in x.c && topSize == x.c[x.top].size && 0 <= diff
    requires x.rs[|x.rs| - 1].end + diff <= x.rs[|x.rs| - 1].base + hm
    requires var n := |x.rs| - 1; var end := x.rs[n].end + diff;
      y == x.(rs := x.rs[n := x.rs[n].(end := end)], lo := x.lo + ZerosLo(x.rs[n].end, end),
              hi := (x.hi + ZerosHi(x.rs[n].end, end))[x.top := Size(topSize + diff, true, false)],
              c := x.c[x.top := Chunk(topSize + diff, Top, x.c[x.top].home)])
    ensures Resized(x, y, topSize + diff)
  {
    hide Linked, FastLinked, Indexed, FastIndexed, Tagged, Tiled, HeapAt;
    TopIsTop(x, g, nm);
    GrowRegions(x.rs, page, hm, x.lo, x.hi, x.rs[|x.rs| - 1].end + diff);
  }

  // The fresh pages are blank.
  ghost predicate Blank(lo: map<int, int>, hi: map<int, Word>, b: int, e: int) {
    && (forall k {:trigger lo[k]} {:trigger k in lo} :: b <= k < e ==> k in lo && lo[k] == 0)
    && (forall k {:trigger hi[k]} {:trigger k in hi} :: b <= k < e ==> k in hi && hi[k] == Size(0, false, false))
  }

  // grow_heap for an amount that is not negative, with what its caller does on success; accessible
  // is the answer of mprotect
  method GrowTop(a: Arena, amount: int, accessible: bool) returns (r: int)
    requires a.Valid() && a.nonMain && amount >= 0
    modifies a`lo, a`hi, a`chunks, a`regions, a`systemMem
    ensures a.Valid() && Unnoticed(old(a.Now()), a.Now())
    ensures r != 0 ==> a.Now() == old(a.Now())
    ensures r == 0 ==> a.top in old(a.chunks) && a.top in a.chunks && a.chunks[a.top].size >= old(a.chunks)[a.top].size + amount
    ensures a.page > 0 && |old(a.regions)| > 0
    ensures var heap := old(a.regions)[|old(a.regions)| - 1];
      r == -1 <==> 2 * RoundUp(amount, a.page) < a.limit && heap.end - heap.base + RoundUp(amount, a.page) > a.heapMax
    ensures r == -1 || r == -2 || r == 0
    ensures var heap := old(a.regions)[|old(a.regions)| - 1];
      r == 0 <==> accessible && 2 * RoundUp(amount, a.page) < a.limit && heap.end - heap.base + RoundUp(amount, a.page) <= a.heapMax
    ensures r == 0 ==> a.chunks[a.top].size == old(a.chunks)[a.top].size + RoundUp(amount, a.page)
    ensures r == 0 ==> a.chunks == old(a.chunks)[a.top := a.chunks[a.top]]
    ensures r == 0 ==> Blank(a.lo, a.hi, a.top + old(a.chunks)[a.top].size, a.top + a.chunks[a.top].size)
    ensures a.slots == old(a.slots)
  {
    hide Good, Unnoticed, HeapsOk, Resized, RegionsOk, SystemSize, FastbinIndex, Bytes, NFastbins, MapOk, RoundUp,
      ZerosLo, ZerosHi, Blank, KnownTo;
    ghost var x := a.Now();
    SelfKept(x);
    FirstHeapStays(x, a.g, a.nonMain, a.page, a.heapMax);
    TopIsTop(x, a.g, a.nonMain);
    var heap := a.regions[|a.regions| - 1];
    RoundUpIs(amount, a.page);
    var diff := RoundUp(amount, a.page);
    // the rounded amount is no long any more: mprotect does not find half of the address space
    if 2 * diff >= a.limit { return -2; }
    if heap.end - heap.base + diff > a.heapMax { return -1; }
    if !accessible { return -2; }
    ExtendTop(a, diff);
    return 0;
  }

  method ExtendTop(a: Arena, diff: int)
    requires a.Valid() && a.nonMain && 0 <= diff && a.page > 0 && diff % a.page == 0 && |a.regions| >= 1
    requires a.top in a.chunks
    requires a.regions[|a.regions| - 1].end - a.regions[|a.regions| - 1].base + diff <= a.heapMax
    modifies a`lo, a`hi, a`chunks, a`regions, a`systemMem
    ensures a.Valid() && Unnoticed(old(a.Now()), a.Now())
    ensures a.chunks == old(a.chunks)[a.top := Chunk(old(a.chunks)[a.top].size + diff, Top, old(a.chunks)[a.top].home)]
    ensures Blank(a.lo, a.hi, a.top + old(a.chunks)[a.top].size, a.top + old(a.chunks)[a.top].size + diff)
    ensures a.slots == old(a.slots)
  {
    hide Good, Unnoticed, HeapsOk, HeapAt, Resized, RegionsOk, SystemSize, FastbinIndex, Bytes, NFastbins, MapOk,
      Blank, ZerosLo, ZerosHi, WithinLimit;
    ghost var x := a.Now();
    TopIsTop(x, a.g, a.nonMain);
    var heap := a.regions[|a.regions| - 1];
    var end := heap.end + diff;
    LongerHeap(a.regions, a.page, a.heapMax, a.limit, diff);
    FreshBlank(x.lo, x.hi, heap.end, end, a.top, Size(end - a.top, true, false));
    a.lo := a.lo + ZerosLo(heap.end, end);
    a.regions := a.regions[|a.regions| - 1 := heap.(end := end)];
    a.systemMem := a.systemMem + diff;
    a.hi := (a.hi + ZerosHi(heap.end, end))[a.top := Size(end - a.top, true, false)];
    a.chunks := a.chunks[a.top := Chunk(a.chunks[a.top].size + diff, Top, a.chunks[a.top].home)];
    ExtendIsResize(x, a.Now(), a.g, a.nonMain, a.page, a.heapMax, diff);
  }

  lemma LongerHeap(rs: seq<Region>, page: int, hm: int, limit: int, diff: int)
    requires HeapsOk(rs, page, hm) && WithinLimit(rs, hm, limit) && 0 <= diff && diff % page == 0
    requires rs[|rs| - 1].end - rs[|rs| - 1].base + diff <= hm
    ensures var ts := rs[|rs| - 1 := rs[|rs| - 1].(end := rs[|rs| - 1].end + diff)];
      HeapsOk(ts, page, hm) && WithinLimit(ts, hm, limit) && SystemSize(ts) == SystemSize(rs) + diff
  {
    hide SystemSize;
    HeapIs(rs, page, hm, |rs| - 1);
    SumMod(rs[|rs| - 1].end, diff, page);
    ResizeHeap(rs, page, hm, rs[|rs| - 1].end + diff);
    SystemResize(rs, rs[|rs| - 1].end + diff);
  }

  lemma ExtendIsResize(x: St, y: St, g: int, nm: bool, page: int, hm: int, diff: int)
    requires Good(x, g, nm) && HeapsOk(x.rs, page, hm) && x.top in x.c && 0 <= diff
    requires x.rs[|x.rs| - 1].end + diff <= x.rs[|x.rs| - 1].base + hm
    requires var n := |x.rs| - 1; var end := x.rs[n].end + diff;
      y == x.(rs := x.rs[n := x.rs[n].(end := end)], lo := x.lo + ZerosLo(x.rs[n].end, end),
              hi := (x.hi + ZerosHi(x.rs[n].end, end))[x.top := Size(end - x.top, true, false)],
              c := x.c[x.top := Chunk(x.c[x.top].size + diff, Top, x.c[x.top].home)])
    ensures Good(y, g, nm) && Unnoticed(x, y)
  {
    hide Good, Resized, Unnoticed, HeapAt;
    TopIsTop(x, g, nm);
    GrowIsResize(x, y, g, nm, page, hm, x.c[x.top].size, diff);
    ResizeGood(x, y, g, nm, x.c[x.top].size + diff);
  }

  lemma FreshBlank(lo: map<int, int>, hi: map<int, Word>, b: int, e: int, t: int, w: Word)
    requires t < b
    ensures Blank(lo + ZerosLo(b, e), (hi + ZerosHi(b, e))[t := w], b, e)
  {
  }
}
