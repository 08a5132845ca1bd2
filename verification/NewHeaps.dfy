/** new_heap: an aligned area, and the heap in it. */
module NewHeaps {
  import opened Layout
  import opened Arenas
  import opened Pages
  import opened HeapTrim
  import opened Attaching
  import opened SystemCalls

  ghost predicate HeapAreaOk(rs: seq<Region>, hm: int, limit: int, p: int) {
    hm > 0 && 0 < p && p % hm == 0 && p + hm <= limit && Unmapped(rs, hm, p, p + hm)
  }

  // An area of HEAP_MAX_SIZE can be had at p, and is aligned.
  ghost predicate AreaAt(rs: seq<Region>, page: int, hm: int, limit: int, p: int)
    requires page > 0 && hm > 0
  { CanMap(rs, hm, page, limit, hm, p) && p % hm == 0 }

  // The system gives no area that is, or holds, an aligned one.
  ghost predicate NoArea(rs: seq<Region>, page: int, hm: int, limit: int, sys: Answers)
    requires page > 0 && hm > 0
  {
    && !(sys.saved && AreaAt(rs, page, hm, limit, sys.area))
    && !CanMap(rs, hm, page, limit, 2 * hm, sys.twice)
    && !AreaAt(rs, page, hm, limit, sys.once)
  }

  // An area of HEAP_MAX_SIZE aligned to a multiple of it.
  method AlignedArea(a: Arena, sys: Answers) returns (p2: int)
    requires a.page > 0 && a.heapMax > 0
    ensures p2 == MAP_FAILED <==> NoArea(a.regions, a.page, a.heapMax, a.limit, sys)
    ensures p2 != MAP_FAILED ==> HeapAreaOk(a.regions, a.heapMax, a.limit, p2)
  {
    p2 := MAP_FAILED;
    if sys.saved {
      p2 := Mmap(a.regions, a.heapMax, a.page, a.limit, a.heapMax, sys.area);
      if p2 != MAP_FAILED && p2 % a.heapMax != 0 { p2 := MAP_FAILED; }
    }
    if p2 == MAP_FAILED {
      var p1 := Mmap(a.regions, a.heapMax, a.page, a.limit, 2 * a.heapMax, sys.twice);
      if p1 != MAP_FAILED {
        RoundUpIs(p1, a.heapMax);
        p2 := RoundUp(p1, a.heapMax);
      } else {
        p2 := Mmap(a.regions, a.heapMax, a.page, a.limit, a.heapMax, sys.once);
        if p2 != MAP_FAILED && p2 % a.heapMax != 0 { p2 := MAP_FAILED; }
      }
    }
  }

  // The size new_heap settles on; 0 when the request is too large for any heap. The sum is a size_t.
  function HeapSize(g: int, page: int, hm: int, limit: int, size: int, pad: int): int
    requires page > 0 && limit > 0
  {
    var sum := (size + pad) % limit;
    if sum < HeapMin(g) then RoundUp(HeapMin(g), page)
    else if sum <= hm then RoundUp(sum, page)
    else if size > hm then 0
    else RoundUp(hm, page)
  }

  // The size fits the area for a heap, and has room for the request unless the sum wraps around.
  lemma HeapSizeIs(g: int, page: int, hm: int, limit: int, size: int, pad: int)
    requires page > 0 && hm > 0 && hm % page == 0 && HeapMin(g) <= hm && pad >= 0 && size >= 0 && limit > 0
    ensures var r := HeapSize(g, page, hm, limit, size, pad); r != 0 ==> r <= hm && r % page == 0 && HeapMin(g) <= r
    ensures var r := HeapSize(g, page, hm, limit, size, pad); size + pad < limit ==> (r == 0 <==> size > hm) && (r != 0 ==> size <= r)
    ensures var r := HeapSize(g, page, hm, limit, size, pad);
      r != 0 && size + pad < limit ==>
        if size + pad > hm then r == hm else size + pad <= r < (if size + pad < HeapMin(g) then HeapMin(g) else size + pad) + page
  {
    var sum := (size + pad) % limit;
    RoundUpIs(HeapMin(g), page);
    RoundUpIs(sum, page);
    RoundUpIs(hm, page);
    RoundUpBelow(HeapMin(g), hm, page);
    RoundUpBelow(sum, hm, page);
    RoundUpBelow(hm, hm, page);
    if size + pad < limit { ModSmall(size + pad, limit); }
  }

  lemma RoundUpBelow(x: int, y: int, m: int)
    requires m > 0 && y % m == 0
    ensures x <= y ==> RoundUp(x, m) <= y
  {
    RoundUpIs(x, m);
    var d := RoundUp(x, m) - y;
    SumMod(RoundUp(x, m), y, m);
    DivMod(d, m);
    MulAtLeast(d / m, m);
  }

  ghost predicate HeapRegionOk(rs: seq<Region>, page: int, hm: int, limit: int, r: Region) {
    && 0 < r.base && r.first == r.base + 2 && r.first + 2 <= r.end <= r.base + hm && r.base + hm <= limit
    && hm > 0 && page > 0 && r.base % hm == 0 && r.base % page == 0 && r.end % page == 0
    && FreeOf(rs, r)
  }

  // The system gives no heap for a request of size granules.
  ghost predicate NoHeap(a: Arena, rs: seq<Region>, size: int, sys: Answers)
    requires a.page > 0 && a.heapMax > 0 && a.limit > 0
  {
    || HeapSize(a.g, a.page, a.heapMax, a.limit, size, a.topPad) == 0
    || NoArea(rs, a.page, a.heapMax, a.limit, sys) || !sys.accessible
  }

  // new_heap, with the arena's top_pad
  method NewHeap(a: Arena, size: int, sys: Answers) returns (r: Region, got: bool)
    requires a.page > 0 && a.heapMax > 0 && a.heapMax % a.page == 0 && HeapMin(a.g) <= a.heapMax && a.topPad >= 0
    requires size >= 0 && a.limit > 0
    ensures got <==> !NoHeap(a, a.regions, size, sys)
    ensures got ==> HeapRegionOk(a.regions, a.page, a.heapMax, a.limit, r) && (size + a.topPad < a.limit ==> size <= r.end - r.base)
    ensures got ==> r.first == r.base + 2 && r.end - r.base == HeapSize(a.g, a.page, a.heapMax, a.limit, size, a.topPad)
  {
    hide HeapSize, RoundUp, NoArea;
    r, got := Region(0, 0, 0), false;
    HeapSizeIs(a.g, a.page, a.heapMax, a.limit, size, a.topPad);
    var len := HeapSize(a.g, a.page, a.heapMax, a.limit, size, a.topPad);
    if len == 0 { return; }
    var p2 := AlignedArea(a, sys);
    if p2 == MAP_FAILED { return; }
    if !sys.accessible { return; }
    MultipleTrans(p2, a.heapMax, a.page);
    SumMod(p2, len, a.page);
    return Region(p2, p2 + 2, p2 + len), true;
  }

  lemma MoreHeaps(rs: seq<Region>, page: int, hm: int, limit: int, r: Region)
    requires HeapsOk(rs, page, hm) && WithinLimit(rs, hm, limit) && HeapRegionOk(rs, page, hm, limit, r)
    ensures HeapsOk(rs + [r], page, hm) && WithinLimit(rs + [r], hm, limit)
    ensures SystemSize(rs + [r]) == SystemSize(rs) + r.end - r.base
  {
    var ts := rs + [r];
    assert ts[..|ts| - 1] == rs;
    forall i | 0 <= i < |ts|
      ensures HeapAt(ts, page, hm, i)
    {
      if i < |rs| { HeapIs(rs, page, hm, i); }
    }
  }
}
