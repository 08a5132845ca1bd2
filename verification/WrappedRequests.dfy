/** Requests for which a size_t or a long wraps around, on arenas as they are made. */
module WrappedRequests {
  import opened Sizes
  import opened Chunks
  import opened Layout
  import opened State
  import opened Arenas
  import opened Trimming
  import opened Pages
  import opened Taking
  import opened Searching
  import opened Passes
  import opened SystemAllocation
  import opened HeapGrowth
  import opened IntMalloc
  import opened SystemCalls
  import opened Aligning
  import opened Independent

  // Pages of 4096 bytes, heaps of at most 2^20 bytes, addresses of 32 or 64 bits, in granules.
  function PageOf(g: int): int
    requires IsGrain(g)
  { 4096 / g }
  function HeapMaxOf(g: int): int
    requires IsGrain(g)
  { 0x10_0000 / g }
  function SpaceOf(g: int): int
    requires IsGrain(g)
  { if g == 8 then 0x2000_0000 else 0x1000_0000_0000_0000 }

  // An arena as it is made: its first heap holds the top and nothing else.
  ghost predicate FreshIn(a: Arena, r: Region)
    reads a
  {
    && a.Valid() && a.nonMain && IsGrain(a.g) && a.page == PageOf(a.g) && a.heapMax == HeapMaxOf(a.g) && a.limit == SpaceOf(a.g)
    && !a.haveFast && a.slots == map[] && a.top == r.first && a.regions == [r] && a.chunks == map[r.first := Chunk(r.end - r.first, Top, 0)]
  }

  // The smallest heap, at the first address that a heap can have; the arena takes 141 granules of it.
  function FirstHeap(g: int): Region
    requires IsGrain(g)
  { Region(HeapMaxOf(g), HeapMaxOf(g) + 143, HeapMaxOf(g) + HeapMin(g)) }

  method NewArena(g: int) returns (a: Arena)
    requires IsGrain(g)
    ensures fresh(a) && a.g == g && FreshIn(a, FirstHeap(g))
  {
    RealUnits(g);
    hide UnitsOk, FirstHeapOk, FirstHeap, PageOf, HeapMaxOf, SpaceOf, Good;
    a := new Arena.InHeap(g, PageOf(g), HeapMaxOf(g), SpaceOf(g), 0, FirstHeap(g));
  }

  lemma RealUnits(g: int)
    requires IsGrain(g)
    ensures UnitsOk(g, true, PageOf(g), HeapMaxOf(g), SpaceOf(g)) && FirstHeapOk(FirstHeap(g), PageOf(g), HeapMaxOf(g), SpaceOf(g))
  {
    if g == 8 {
      assert PageOf(g) == 512 && HeapMaxOf(g) == 131072;
    } else {
      assert PageOf(g) == 256 && HeapMaxOf(g) == 65536;
    }
  }

  // A system that has nothing.
  const NO_ANSWER := Answers(MAP_FAILED, false, false, MAP_FAILED, MAP_FAILED, MAP_FAILED, false, false, false, false)

  // malloc takes the chunk from the start of the top.
  method FirstMalloc(a: Arena, r: Region, bytes: int) returns (p: int, given: int)
    requires FreshIn(a, r) && 0 <= bytes < Bytes(a.g, a.limit) && !OutOfRange(a.g, a.limit, bytes) && Safe(a, bytes)
    requires Request(a.g, bytes) + 2 <= r.end - r.first
    modifies a
    ensures a.Valid() && p == r.first && given == Request(a.g, bytes) && a.regions == [r] && a.top == r.first + given
    ensures a.top in a.chunks && a.chunks[a.top].size == r.end - r.first - given && HandedOut(old(a.Now()), a.Now(), p, given)
  {
    hide Good, MapOk, HeapsOk, SystemSize, NFastbins, FastbinIndex, WithinLimit, UnitsOk, FreshPast, HandedOut, TopKnown, PrevUsed, OutOfRange, KnownTo;
    ghost var x := a.Now();
    RequestIs(a.g, bytes);
    ghost var last := a.lastRemainder;
    var from, passes, ok;
    ghost var seen;
    p, given, from, seen, passes, ok := Malloc(a, bytes, NO_ANSWER);
    NotExhausted(x.c, seen, r, Request(a.g, bytes));
    FromTop(x, a.Now(), seen, r, Request(a.g, bytes), p, given, from, last, Small(a, Request(a.g, bytes)));
    TopIsTop(a.Now(), a.g, a.nonMain);
  }

  lemma NotExhausted(c: map<int, Chunk>, seen: map<int, Chunk>, r: Region, n: int)
    requires seen == map[r.first := Chunk(r.end - r.first, Top, 0)] && n + 2 <= r.end - r.first
    ensures !Exhausted(c, seen, n)
  {
    assert seen[r.first].tag == Top;
  }

  lemma FromTop(x: St, z: St, seen: map<int, Chunk>, r: Region, n: int, p: int, given: int, from: Source, last: int, small: bool)
    requires seen == map[r.first := Chunk(r.end - r.first, Top, 0)] && Served(x, z, n, p, given, from, seen, last, small) && n >= 2
    requires from != Fastbin && from != SmallBin && from != System
    ensures from == TopChunk && p == r.first && given == n && z.c == Split(seen, p, n, Live, Top)
  {
    hide FreshPast, HandedOut, PrevUsed;
  }

  // ---- the top that a request endangers

  // For every request beyond the guard there is an arena, valid and with a heap of its full size,
  // that it endangers.
  method ArenaInDanger(g: int, page: int, hm: int, limit: int, n: int) returns (a: Arena)
    requires IsGrain(g) && UnitsOk(g, true, page, hm, limit) && page >= 2 && hm % page == 0 && 2 * hm <= limit && n >= 2 && n + 2 < limit
    requires !Guard(n, page, hm, limit)
    ensures fresh(a) && a.Valid() && Endangered(a, n)
  {
    hide UnitsOk, Good, MapOk, HeapsOk, SystemSize, NFastbins, FastbinIndex, WithinLimit, EmptyHeaders, Cuts, KnownTo;
    MaxPositive(g, page, hm, limit);
    var r := Region(hm, BadTop(n, hm, page, limit), 2 * hm);
    BadHeap(n, page, hm, limit);
    a := new Arena.InHeap(g, page, hm, limit, 0, r);
  }

  lemma MaxPositive(g: int, page: int, hm: int, limit: int)
    requires UnitsOk(g, true, page, hm, limit)
    ensures hm > 0
  {
  }

  lemma BadHeap(n: int, page: int, hm: int, limit: int)
    requires page >= 2 && hm > 0 && hm % page == 0 && 2 * hm <= limit && n + 2 < limit && !Guard(n, page, hm, limit)
    ensures var r := Region(hm, BadTop(n, hm, page, limit), 2 * hm);
      FirstHeapOk(r, page, hm, limit) && Cuts(n, r.first, r.end - r.first, r.base, page, limit)
  {
    ModFull(hm);
    SumMod(hm, hm, page);
    GuardNeeded(n, hm, page, hm, limit);
  }

  // The largest request that malloc does not turn away at once.
  function LargestRequest(g: int): int
    requires IsGrain(g)
  { Bytes(g, SpaceOf(g)) - 4 * g - 1 }

  // Moves the top of a fresh arena to the granule after the first page.
  function MovingRequest(g: int): int
    requires IsGrain(g)
  { Bytes(g, PageOf(g) - 142) - (g - 1) }

  lemma RealNumbers(g: int)
    requires IsGrain(g)
    ensures var r := FirstHeap(g);
      && Request(g, MovingRequest(g)) == PageOf(g) - 142 >= 2 && 0 <= MovingRequest(g) < Bytes(g, SpaceOf(g)) && !OutOfRange(g, SpaceOf(g), MovingRequest(g))
      && Guard(PageOf(g) - 142, PageOf(g), HeapMaxOf(g), SpaceOf(g)) && PageOf(g) - 140 <= r.end - r.first
      && 0 <= LargestRequest(g) && !OutOfRange(g, SpaceOf(g), LargestRequest(g)) && Request(g, LargestRequest(g)) == SpaceOf(g) - 3
    ensures var r := FirstHeap(g); var top := r.first + PageOf(g) - 142; PageOf(g) > 0 && Cuts(SpaceOf(g) - 3, top, r.end - top, r.base, PageOf(g), SpaceOf(g))
    ensures var r := FirstHeap(g); r.end - (r.first + PageOf(g) - 142) < SpaceOf(g) - 1
  {
  }

  // A fresh arena, one block, and then the largest request: when the system does what grow_heap
  // asks for, the heap ends before its top, which is no longer mapped.
  method HeapEndsBeforeTop(g: int) returns (a: Arena, bytes: int)
    requires IsGrain(g)
    ensures fresh(a) && bytes == LargestRequest(g) && !OutOfRange(g, SpaceOf(g), bytes)
    ensures !a.Valid() && a.regions != [] && a.regions[|a.regions| - 1].end < a.top && a.top !in a.hi
  {
    hide Good, MapOk, HeapsOk, SystemSize, NFastbins, FastbinIndex, WithinLimit, UnitsOk, HandedOut, Cuts, OutOfRange, Request,
      PageOf, HeapMaxOf, SpaceOf, FirstHeap, Bytes, LargestRequest, MovingRequest, TopKnown, KnownTo;
    RealNumbers(g);
    a := NewArena(g);
    var r := FirstHeap(g);
    var p, given := FirstMalloc(a, r, MovingRequest(g));
    bytes := LargestRequest(g);
    assert Endangered(a, Request(g, bytes));
    var res := GrowHeap(a, Request(g, bytes), true);
  }

  // ---- sums that wrap around

  // memalign with the alignment of a cache line, for the largest request: malloc is asked for a few
  // granules, finds them, and the block has less room than the request.
  method PaddingWrapsOnce(g: int) returns (a: Arena, p: int, given: int)
    requires IsGrain(g)
    ensures fresh(a) && a.Valid() && p != 0 && given < Request(g, LargestRequest(g)) && !OutOfRange(g, SpaceOf(g), LargestRequest(g))
    ensures p in a.chunks && a.chunks[p].tag == Live && a.chunks[p].size == given
  {
    hide Good, MapOk, HeapsOk, SystemSize, NFastbins, FastbinIndex, WithinLimit, UnitsOk, HandedOut, OutOfRange, Request, FreshPast,
      PageOf, HeapMaxOf, SpaceOf, FirstHeap, Bytes, LargestRequest, TopKnown, Exhausted, Padded, Alignment, KnownTo;
    a := NewArena(g);
    WrappedPadding(g);
    RealNumbers(g);
    ghost var x := a.Now();
    ghost var r := FirstHeap(g);
    var ok;
    ghost var seen;
    p, given, seen, ok := TakePadded(a, 64, LargestRequest(g), NO_ANSWER);
    NotExhausted(x.c, seen, r, Request(g, Padded(g, 64, LargestRequest(g)) % Bytes(g, SpaceOf(g))));
    HandedNonZero(a.Now(), a.g, a.nonMain, x, p, given);
  }

  lemma WrappedPadding(g: int)
    requires IsGrain(g)
    ensures var space, b, m := SpaceOf(g), LargestRequest(g), Padded(g, 64, LargestRequest(g));
      && space >= 16 && Bytes(g, space) > 0 && 2 * Alignment(g, 64) <= Bytes(g, space) && m >= Bytes(g, space)
      && !OutOfRange(g, space, m % Bytes(g, space)) && Guard(Request(g, m % Bytes(g, space)), PageOf(g), HeapMaxOf(g), space)
      && Request(g, m % Bytes(g, space)) + 2 <= FirstHeap(g).end - FirstHeap(g).first
  {
    LineAlignment(g);
    if g == 8 {
      assert LargestRequest(g) == 0xFFFF_FFDF && Padded(g, 64, LargestRequest(g)) == 0x1_0000_0038;
    } else {
      assert LargestRequest(g) == 0xFFFF_FFFF_FFFF_FFBF && Padded(g, 64, LargestRequest(g)) == 0x1_0000_0000_0000_0030;
    }
  }

  lemma LineAlignment(g: int)
    requires IsGrain(g)
    ensures Alignment(g, 64) == 64
  {
    assert IsPow2(1) && IsPow2(2) && IsPow2(4) && IsPow2(8) && IsPow2(16) && IsPow2(32) && IsPow2(64);
  }

  // iALLOc for two elements of half the address space each takes a block of two granules.
  method ElementsWrapOnce(g: int) returns (a: Arena, p: int, given: int)
    requires IsGrain(g)
    ensures fresh(a) && a.Valid() && p != 0 && given < Wanted(g, TwoHalves(g), 2, false, true)
    ensures p in a.chunks && a.chunks[p].tag == Live && a.chunks[p].size == given
  {
    hide Good, MapOk, HeapsOk, SystemSize, NFastbins, FastbinIndex, WithinLimit, UnitsOk, HandedOut, OutOfRange, Request,
      PageOf, HeapMaxOf, SpaceOf, FirstHeap, Bytes, TopKnown, Exhausted, Asked, Wanted, PrevUsed, TwoHalves, KnownTo;
    a := NewArena(g);
    TwoWanted(g);
    ghost var x := a.Now();
    var contents, asz, ok;
    ghost var seen;
    p, given, contents, asz, seen, ok := Aggregate(a, TwoHalves(g), 2, false, true, NO_ANSWER);
    NotExhausted(x.c, seen, FirstHeap(g), 2);
    HandedNonZero(a.Now(), a.g, a.nonMain, x, p, given);
  }

  function TwoHalves(g: int): seq<int>
    requires IsGrain(g)
  { [Bytes(g, SpaceOf(g)) / 2, Bytes(g, SpaceOf(g)) / 2] }

  lemma TwoWanted(g: int)
    requires IsGrain(g)
    ensures var sizes, space := TwoHalves(g), SpaceOf(g);
      && |sizes| == 2 && sizes[0] >= 0 && sizes[1] >= 0 && space > 0
      && Wanted(g, sizes, 2, false, true) >= space
      && Request(g, Asked(g, space, sizes, 2, false, true)) == 2 && !OutOfRange(g, space, Asked(g, space, sizes, 2, false, true))
      && Guard(2, PageOf(g), HeapMaxOf(g), space) && 4 <= FirstHeap(g).end - FirstHeap(g).first
  {
    var sizes, space := TwoHalves(g), SpaceOf(g);
    var ks := Elements(g, sizes, 2, false);
    assert ks[..1] == [ks[0]] && [ks[0]][..0] == [];
    assert Sum([]) == 0 && Sum([ks[0]]) == ks[0] && Sum(ks) == ks[0] + ks[1];
    var half := space / 2 + 1;
    assert Request(g, sizes[0]) == half && Request(g, sizes[1]) == half;
    assert SizeOf(g, space, sizes[0]) == half && SizeOf(g, space, sizes[1]) == half;
    assert ContentsTo(g, space, sizes, 0) == 0;
    assert ContentsTo(g, space, sizes, 1) == half;
    assert ContentsTo(g, space, sizes, 2) == 2;
  }
}
