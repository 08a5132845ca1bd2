/** sYSMALLOc: more memory, then the request is served from the new top. */
module Expanding {
  import opened Memory
  import opened Sizes
  import opened BinLists
  import opened Chunks
  import opened Layout
  import opened State
  import opened Arenas
  import opened Consolidating
  import opened Trimming
  import opened Pages
  import opened HeapTrim
  import opened Taking
  import opened Searching
  import opened Passes
  import opened Growing
  import opened HeapGrowth
  import opened Attaching
  import opened NewHeaps
  import opened SystemCalls
  import opened SystemAllocation

  // Where the top ends up after a try to get more memory: where it was and extended by fresh
  // pages, or in the regions there were and perhaps a new one.
  ghost predicate Expanded(x: St, y: St) {
    || (y.top == x.top && y.top in x.c && y.top in y.c && x.rs != []
        && x.top + x.c[x.top].size == x.rs[|x.rs| - 1].end
        && Blank(y.lo, y.hi, x.rs[|x.rs| - 1].end, y.top + y.c[y.top].size))
    || Shrunk(x.rs, y.rs)
    || (exists r: Region :: FreeOf(x.rs, r) && Shrunk(x.rs + [r], y.rs))
  }

  // No region there was has grown.
  ghost predicate NotGrown(rs: seq<Region>, ts: seq<Region>) {
    Shrunk(rs, ts) || exists r: Region :: FreeOf(rs, r) && Shrunk(rs + [r], ts)
  }

  // The size for the system does not wrap around.
  predicate SumFits(n: int, pad: int, page: int, limit: int) { n + pad + 2 + page <= limit }

  ghost predicate Ready(a: Arena, n: int)
    reads a
  { a.Valid() && !a.haveFast && n >= 2 && n + 2 < a.limit && !Endangered(a, n) }

  lemma NoHeapChange(x: St)
    ensures Expanded(x, x)
  {
  }

  lemma ReplacedExpands(x: St, y: St, r: Region)
    requires FreeOf(x.rs, r) && Shrunk(x.rs + [r], y.rs)
    ensures Expanded(x, y)
  {
  }

  lemma NewMapAttachable(x: St, g: int, nm: bool, p: int, size: int)
    requires Good(x, g, nm) && 0 < p && 2 <= size && Unmapped(x.rs, 0, p, p + size)
    ensures Attachable(x, g, nm, Region(p, p, p + size)) && FreeOf(x.rs, Region(p, p, p + size))
  {
    hide Good;
    forall i | 0 <= i < |x.rs|
      ensures RegionsApart(x.rs[i], Region(p, p, p + size))
    {
    }
  }

  // The main arena: MORECORE fails, so mmap is the backup.
  method ExpandMain(a: Arena, n: int, old_size: int, sys: Answers) returns (ok: bool)
    requires Ready(a, n) && !a.nonMain && old_size >= 0 && (a.contiguous ==> old_size == 0)
    modifies a
    ensures ok && a.Valid() && Unnoticed(old(a.Now()), a.Now()) && Expanded(old(a.Now()), a.Now())
    ensures OnlyUnsortedAdded(old(a.slots), a.slots) && a.lastRemainder == old(a.lastRemainder)
    ensures a.page > 0 && a.limit > 0 && var size, p := MainSize(a, n), sys.core;
      if size > n && CanMap(old(a.regions), 0, a.page, a.limit, size, p)
      then a.regions == old(a.regions) + [Region(p, p, p + size)] && TopFills(a.Now(), Region(p, p, p + size))
      else a.Now() == old(a.Now())
  {
    hide Good, Unnoticed, Expanded, HeapsOk, PageEnds, MapOk, SystemSize, FastbinIndex, NFastbins, Bytes, WithinLimit,
      RoundUp, Attachable, MorecoreUnit, Unmapped, Shrunk, FirstSize, MmapSize, UnitsOk, FreeOf, MapOk, TopKnown, KnownTo;
    ghost var x := a.Now();
    SelfKept(x);
    NoHeapChange(x);
    Units(a);
    var size := FirstSize(n, a.topPad, a.page, a.limit);
    FirstSizeIs(n, a.topPad, a.page, a.limit);
    size := MmapSize(a.g, a.page, a.limit, size, old_size, a.contiguous);
    MmapSizeIs(a.g, a.page, a.limit, FirstSize(n, a.topPad, a.page, a.limit), old_size, a.contiguous);
    if size <= n { return true; }
    var p := Mmap(a.regions, 0, a.page, a.limit, size, sys.core);
    if p == MAP_FAILED { return true; }
    var r := Region(p, p, p + size);
    SumMod(p, size, a.page);
    NewMapAttachable(x, a.g, a.nonMain, p, size);
    ok := ReplaceTop(a, r, sys.retop);
    ReplacedExpands(x, a.Now(), r);
  }

  // What the main arena asks the system for.
  function MainSize(a: Arena, n: int): int
    requires a.page > 0 && a.limit > 0
  { MmapSize(a.g, a.page, a.limit, FirstSize(n, a.topPad, a.page, a.limit), 0, false) }

  // It is at least MMAP_AS_MORECORE_SIZE, and whole pages; and unless the sum wraps around it has room for the
  // request, the overhead and top_pad, with less than a page to spare.
  lemma MainSizeIs(a: Arena, n: int)
    requires a.Counters() && n >= 2
    ensures a.page > 0 && a.limit > 0 && MainSize(a, n) % a.page == 0 && MainSize(a, n) >= MorecoreUnit(a.g)
    ensures SumFits(n, a.topPad, a.page, a.limit) ==>
      n + 2 <= n + a.topPad + 2 <= MainSize(a, n) && (MainSize(a, n) == MorecoreUnit(a.g) || MainSize(a, n) < n + a.topPad + 2 + a.page)
  {
    hide RoundUp, MorecoreUnit, MmapSize, FirstSize, MapOk, HeapsOk, PageEnds, SystemSize, FastbinIndex, NFastbins, Bytes, WithinLimit;
    Units(a);
    FirstSizeIs(n, a.topPad, a.page, a.limit);
    MmapSizeIs(a.g, a.page, a.limit, FirstSize(n, a.topPad, a.page, a.limit), 0, false);
    if SumFits(n, a.topPad, a.page, a.limit) { SizeServes(a.g, n, a.topPad, a.page, a.limit); }
  }

  lemma SizeServes(g: int, n: int, pad: int, page: int, limit: int)
    requires page > 0 && limit > 0 && limit % page == 0 && n >= 2 && pad >= 0 && SumFits(n, pad, page, limit)
    ensures var size := MmapSize(g, page, limit, FirstSize(n, pad, page, limit), 0, false);
      n + pad + 2 <= size && (size == MorecoreUnit(g) || size < n + pad + 2 + page)
  {
    hide RoundUp, MorecoreUnit;
    var x := n + pad + 2;
    ModSmall(x, limit);
    RoundUpIs(x, page);
    var s := RoundUp(x, page);
    ModSmall(s, limit);
  }

  lemma RoundedAgain(s: int, page: int)
    requires page > 0 && s % page == 0
    ensures RoundUp(s, page) == s
  {
    RoundUpIs(s, page);
    MultiplesApart(RoundUp(s, page), s, page);
  }

  lemma MultiplesApart(a: int, b: int, m: int)
    requires m > 0 && a % m == 0 && b % m == 0 && b <= a < b + m
    ensures a == b
  {
    DivMod(a, m);
    DivMod(b, m);
    assert a - b == (a / m - b / m) * m;
    SmallProduct(a / m - b / m, m);
  }

  lemma SmallProduct(d: int, m: int)
    requires 0 <= d * m < m
    ensures d == 0
  {
  }

  lemma Units(a: Arena)
    requires a.Counters()
    ensures a.page > 0 && a.limit > 0 && a.limit % a.page == 0 && MorecoreUnit(a.g) % a.page == 0 && a.topPad >= 0
    ensures !a.nonMain ==> PageEnds(a.regions, a.page)
    ensures a.nonMain ==> HeapsOk(a.regions, a.page, a.heapMax) && HeapMin(a.g) <= a.heapMax && a.heapMax > 0 && a.heapMax % a.page == 0
  {
  }

  // Enough space for nb + pad + overhead, in whole pages; a size_t wraps around.
  function FirstSize(n: int, pad: int, page: int, limit: int): int
    requires page > 0 && limit > 0
  { RoundUp((n + pad + 2) % limit, page) % limit }

  lemma FirstSizeIs(n: int, pad: int, page: int, limit: int)
    requires page > 0 && limit > 0 && limit % page == 0
    ensures 0 <= FirstSize(n, pad, page, limit) < limit && FirstSize(n, pad, page, limit) % page == 0
  {
    hide RoundUp;
    ModRange(n + pad + 2, limit);
    WrapPages((n + pad + 2) % limit, page, limit);
  }

  // The size for mmap as a backup of MORECORE.
  function MmapSize(g: int, page: int, limit: int, size: int, old_size: int, contiguous: bool): int
    requires page > 0 && limit > 0
  {
    var s := if contiguous then RoundUp(size + old_size, page) % limit else size;
    if s < MorecoreUnit(g) then MorecoreUnit(g) else s
  }

  lemma MmapSizeIs(g: int, page: int, limit: int, size: int, old_size: int, contiguous: bool)
    requires page > 0 && limit > 0 && limit % page == 0 && MorecoreUnit(g) % page == 0
    requires 0 <= size < limit && size % page == 0 && (contiguous ==> old_size == 0)
    ensures MmapSize(g, page, limit, size, old_size, contiguous) % page == 0
    ensures MmapSize(g, page, limit, size, old_size, contiguous) >= MorecoreUnit(g)
    ensures MmapSize(g, page, limit, size, old_size, contiguous) == MmapSize(g, page, limit, size, 0, false)
  {
    hide RoundUp, MorecoreUnit;
    if contiguous {
      WrapPages(size, page, limit);
      RoundedAgain(size, page);
      ModSmall(size, limit);
    }
  }

  lemma WrapPages(x: int, page: int, limit: int)
    requires page > 0 && limit > 0 && limit % page == 0 && 0 <= x < limit
    ensures var s := RoundUp(x, page) % limit; 0 <= s < limit && s % page == 0
  {
    hide RoundUp;
    RoundUpIs(x, page);
    RoundUpBelow(x, limit, page);
    var s := RoundUp(x, page);
    if s == limit { ModFull(limit); ModFull(page); } else { ModSmall(s, limit); }
  }

  // Any other arena: grow the newest heap, or take a new one.
  method ExpandHeap(a: Arena, n: int, old_size: int, sys: Answers) returns (ok: bool)
    requires Ready(a, n) && a.nonMain && 2 <= old_size < n + 2 && a.top in a.chunks && a.chunks[a.top].size == old_size
    modifies a
    ensures ok && a.Valid() && Unnoticed(old(a.Now()), a.Now()) && Expanded(old(a.Now()), a.Now())
    ensures OnlyUnsortedAdded(old(a.slots), a.slots) && a.lastRemainder == old(a.lastRemainder)
    ensures a.page > 0 && a.heapMax > 0 && a.limit > 0
    ensures if sys.grown && HasRoom(a, old(a.regions), old_size, n)
      then a.top == old(a.top) && a.top in a.chunks && a.chunks[a.top].size == old_size + RoundUp(n + 2 - old_size, a.page) >= n + 2
      else NotGrown(old(a.regions), a.regions)
    ensures !(sys.grown && HasRoom(a, old(a.regions), old_size, n)) ==>
      if NoHeap(a, old(a.regions), (n + 4) % a.limit, sys) then a.Now() == old(a.Now())
      else old_size < Bulk(a) ==> OnNewHeap(old(a.regions), a.Now(), HeapSize(a.g, a.page, a.heapMax, a.limit, (n + 4) % a.limit, a.topPad))
  {
    hide NotGrown, NoHeap, HasRoom, OnNewHeap, TopFills, HeapSize, RoundUp, Good, Unnoticed, Expanded, HeapsOk, PageEnds,
      MapOk, SystemSize, FastbinIndex, NFastbins, Bytes,
      WithinLimit, Attachable, MorecoreUnit, Shrunk, UnitsOk, FreeOf, TopKnown, Blank, HeapRegionOk, KnownTo;
    ghost var x := a.Now();
    NoHeapChange(x);
    SelfKept(x);
    Units(a);
    ok := true;
    LastRegion(x, a.g, a.nonMain, a.page, a.heapMax);
    var grown := GrowHeap(a, n, sys.grown);
    if grown == 0 {
      GrownExpands(x, a.Now());
      return;
    }
    NotGrownAtAll(a.regions);
    var r, got := NewHeap(a, (n + 4) % a.limit, sys);
    if got {
      HeapAttachable(x, a.g, a.nonMain, a.page, a.heapMax, a.limit, r);
      TopReads(x, a.g, a.nonMain);
      ok := ReplaceTop(a, r, sys.retop);
      if old_size < Bulk(a) { OnNewHeapIs(x.rs, a.Now(), r); }
      ReplacedExpands(x, a.Now(), r);
      NotGrownWith(x.rs, r, a.regions);
    }
  }

  // The last region is a new heap of size granules, and the top is all of it.
  ghost predicate OnNewHeap(rs: seq<Region>, y: St, size: int) {
    exists r: Region :: y.rs == rs + [r] && r.first == r.base + 2 && r.end - r.base == size && TopFills(y, r)
  }

  lemma OnNewHeapIs(rs: seq<Region>, y: St, r: Region)
    requires y.rs == rs + [r] && r.first == r.base + 2 && TopFills(y, r)
    ensures OnNewHeap(rs, y, r.end - r.base)
  {
  }

  lemma NotGrownAtAll(rs: seq<Region>)
    ensures NotGrown(rs, rs)
  {
  }

  lemma NotGrownWith(rs: seq<Region>, r: Region, ts: seq<Region>)
    requires FreeOf(rs, r) && Shrunk(rs + [r], ts)
    ensures NotGrown(rs, ts)
  {
  }

  lemma LastRegion(x: St, g: int, nm: bool, page: int, hm: int)
    requires Good(x, g, nm) && HeapsOk(x.rs, page, hm)
    ensures x.rs != [] && x.top in x.c && x.top + x.c[x.top].size == x.rs[|x.rs| - 1].end
  {
    TopIsTop(x, g, nm);
  }

  lemma GrownExpands(x: St, y: St)
    requires y.top == x.top && y.top in x.c && y.top in y.c && x.rs != [] && x.top + x.c[x.top].size == x.rs[|x.rs| - 1].end
    requires Blank(y.lo, y.hi, x.top + x.c[x.top].size, y.top + y.c[y.top].size)
    ensures Expanded(x, y)
  {
  }

  lemma HeapAttachable(x: St, g: int, nm: bool, page: int, hm: int, limit: int, r: Region)
    requires Good(x, g, nm) && HeapRegionOk(x.rs, page, hm, limit, r)
    ensures Attachable(x, g, nm, r) && FreeOf(x.rs, r)
  {
  }

  // The answers of the system give no memory for the request, when the top has top granules. A size
  // that wraps around is left out, and an old top so large that its free deletes the new heap again.
  ghost predicate Denied(a: Arena, rs: seq<Region>, top: int, n: int, sys: Answers)
    requires a.page > 0 && a.limit > 0 && (a.nonMain ==> a.heapMax > 0)
  {
    if a.nonMain then
      && !(sys.grown && HasRoom(a, rs, top, n))
      && (n + 4 + a.topPad < a.limit && top < Bulk(a) ==> NoHeap(a, rs, n + 4, sys))
    else SumFits(n, a.topPad, a.page, a.limit) ==> !CanMap(rs, 0, a.page, a.limit, MainSize(a, n), sys.core)
  }

  method Expand(a: Arena, n: int, old_size: int, sys: Answers) returns (ok: bool)
    requires Ready(a, n) && a.top in a.hi && a.hi[a.top].Size? && a.hi[a.top].n == old_size < n + 2 && old_size >= 0
    requires (a.contiguous ==> old_size == 0) && (a.nonMain ==> old_size >= 2)
    modifies a
    ensures ok && a.Valid() && Unnoticed(old(a.Now()), a.Now()) && Expanded(old(a.Now()), a.Now())
    ensures OnlyUnsortedAdded(old(a.slots), a.slots) && a.lastRemainder == old(a.lastRemainder)
    ensures a.page > 0 && a.limit > 0 && (a.nonMain ==> a.heapMax > 0)
    ensures Denied(a, old(a.regions), old_size, n, sys) || (a.top in a.chunks && a.chunks[a.top].size >= n + 2)
    ensures (a.top in a.chunks && a.chunks[a.top].size >= n + 2) || if a.nonMain then NotGrown(old(a.regions), a.regions)
      else SumFits(n, a.topPad, a.page, a.limit) ==> a.Now() == old(a.Now())
  {
    hide NoArea, HasRoom, RoundUp, HeapSize, MainSize, CanMap, NotGrown, Good, Unnoticed, Expanded, HeapsOk, PageEnds,
      MapOk, SystemSize, FastbinIndex, NFastbins, Bytes, WithinLimit, MorecoreUnit, UnitsOk, TopKnown, OnlyUnsortedAdded, KnownTo, Endangered;
    Units(a);
    TopReads(a.Now(), a.g, a.nonMain);
    if a.nonMain {
      FreshHeapServes(a, n);
      ghost var rs := a.regions;
      ok := ExpandHeap(a, n, old_size, sys);
      if !(sys.grown && HasRoom(a, rs, old_size, n)) && !NoHeap(a, rs, (n + 4) % a.limit, sys) && old_size < Bulk(a) {
        assert n + 4 + a.topPad < a.limit ==> a.top in a.chunks && a.chunks[a.top].size >= n + 2;
      }
    } else {
      MainSizeIs(a, n);
      ghost var rs := a.regions;
      ok := ExpandMain(a, n, old_size, sys);
      assert SumFits(n, a.topPad, a.page, a.limit) && CanMap(rs, 0, a.page, a.limit, MainSize(a, n), sys.core) ==>
        a.top in a.chunks && a.chunks[a.top].size >= n + 2;
    }
  }

  // sYSMALLOc, for requests that are not mapped on their own
  method SysMalloc(a: Arena, n: int, sys: Answers) returns (p: int, ok: bool)
    requires Ready(a, n) && a.top in a.hi && a.hi[a.top].Size? && a.hi[a.top].n < n + 2
    modifies a
    ensures ok && a.Valid()
    ensures if p == 0 then Unnoticed(old(a.Now()), a.Now()) else HandedOut(old(a.Now()), a.Now(), p, n)
    ensures p != 0 ==> FreshPast(old(a.regions), a.lo, a.hi, p, n) && PrevUsed(a.hi, p)
    ensures a.lastRemainder == old(a.lastRemainder)
    ensures p == 0 ==> a.top in a.hi && a.hi[a.top].Size? && a.hi[a.top].n < n + 2
    ensures p == 0 && a.nonMain ==> NotGrown(old(a.regions), a.regions)
    ensures p == 0 && !a.nonMain && SumFits(n, a.topPad, a.page, a.limit) ==> a.Now() == old(a.Now())
    ensures a.page > 0 && a.limit > 0 && (a.nonMain ==> a.heapMax > 0)
    ensures p == 0 ==> Denied(a, old(a.regions), old(TopSize(a)), n, sys)
  {
    hide Denied, NotGrown, TopFills, Good, Unnoticed, Expanded, HeapsOk, PageEnds, MapOk, SystemSize, FastbinIndex, NFastbins,
      Bytes, WithinLimit, MorecoreUnit, UnitsOk, TopKnown, HandedOut, FreshPast, OnlyUnsortedAdded, SameBut, KnownTo;
    ghost var x := a.Now();
    OldTopPasses(a);
    Units(a);
    var old_top := a.top;
    var old_size := a.hi[old_top].n;
    var old_end := old_top + old_size;
    assert (old_top == Hdr(1) && old_size == 0) || (old_size >= 2 && a.hi[old_top].p && a.page > 0 && old_end % a.page == 0);
    assert old_size < n + 2;
    assert !a.haveFast;
    TopReads(x, a.g, a.nonMain);
    ok := Expand(a, n, old_size, sys);
    ghost var y := a.Now();
    TopReads(y, a.g, a.nonMain);
    if a.top in a.chunks { ChunksInRegions(y, a.g, a.nonMain, a.top); }
    p := UseTop(a, n);
    if p != 0 {
      UnnoticedThenOut(x, y, a.Now(), p, n);
      FreshAfter(x, y, a.Now(), a.g, a.nonMain, p, n);
    }
  }

  lemma FreshHeapServes(a: Arena, n: int)
    requires a.Counters() && a.nonMain && n >= 2
    ensures a.page > 0 && a.limit > 0 && a.heapMax > 0
    ensures n + 4 + a.topPad < a.limit ==>
      var size := HeapSize(a.g, a.page, a.heapMax, a.limit, (n + 4) % a.limit, a.topPad); (n + 4) % a.limit == n + 4 && (size != 0 ==> n + 4 <= size)
  {
    hide HeapSize, MapOk, HeapsOk, PageEnds, SystemSize, FastbinIndex, NFastbins, Bytes, WithinLimit;
    Units(a);
    if n + 4 + a.topPad < a.limit {
      ModSmall(n + 4, a.limit);
      HeapSizeIs(a.g, a.page, a.heapMax, a.limit, n + 4, a.topPad);
    }
  }

  lemma OldTopPasses(a: Arena)
    requires a.Valid() && a.top in a.hi && a.hi[a.top].Size?
    ensures (a.top == Hdr(1) && a.hi[a.top].n == 0) || (a.hi[a.top].n >= 2 && a.hi[a.top].p && a.page > 0 && (a.top + a.hi[a.top].n) % a.page == 0)
    ensures a.nonMain ==> a.hi[a.top].n >= 2
    ensures a.hi[a.top].n >= 0
    ensures a.contiguous ==> a.hi[a.top].n == 0
  {
    hide Good, MapOk, SystemSize, FastbinIndex, NFastbins, Bytes, WithinLimit, UnitsOk;
    TopReads(a.Now(), a.g, a.nonMain);
    if a.regions != [] {
      TopIsTop(a.Now(), a.g, a.nonMain);
      if a.nonMain { HeapIs(a.regions, a.page, a.heapMax, |a.regions| - 1); }
    }
  }

  lemma FreshAfter(x: St, y: St, z: St, g: int, nm: bool, p: int, n: int)
    requires Good(x, g, nm) && Good(z, g, nm) && Expanded(x, y) && HandedOut(y, z, p, n) && z.rs == y.rs
    requires n >= 2 && p == y.top && z.lo == y.lo && SameBut(y.hi, z.hi, p, p + n)
    requires p in y.c && z.c == Split(y.c, p, n, Live, Top) && p + n == z.top
    ensures FreshPast(x.rs, z.lo, z.hi, p, n)
  {
    hide Good, Base;
    HandedNonZero(z, g, nm, y, p, n);
    if Shrunk(x.rs, y.rs) {
      if x.rs != [] { LastApart(x, g, nm, Region(0, 0, 0)) by { AnyFree(x, g, nm); } }
      NotPast(x.rs, x.rs, z, g, nm, p, n);
    } else if r: Region :| FreeOf(x.rs, r) && Shrunk(x.rs + [r], y.rs) {
      if x.rs != [] { LastApart(x, g, nm, r); }
      NotPast(x.rs, x.rs + [r], z, g, nm, p, n);
    } else {
      TopAtLeast(z, g, nm);
    }
  }

  lemma AnyFree(x: St, g: int, nm: bool)
    requires Good(x, g, nm)
    ensures FreeOf(x.rs, Region(0, 0, 0))
  {
  }

  lemma TopAtLeast(z: St, g: int, nm: bool)
    requires Good(z, g, nm)
    ensures z.top in z.c && z.c[z.top].tag == Top ==> z.c[z.top].size >= 2
  {
    assert z.top in z.c ==> ChunkAt(z.c, z.top);
  }
}
