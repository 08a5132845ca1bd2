/** Malloc: all its paths in their order. */
module IntMalloc {
  import opened Memory
  import opened Sizes
  import opened BinLists
  import opened Chunks
  import opened Layout
  import opened State
  import opened Arenas
  import opened LiveView
  import opened Consolidating
  import opened HeapTrim
  import opened Pages
  import opened Taking
  import opened UnsortedList
  import opened Searching
  import opened Passes
  import opened SystemAllocation
  import opened HeapGrowth
  import opened NewHeaps
  import opened Expanding
  import opened SystemCalls

  // request2size, in granules
  function Request(g: int, bytes: int): int
    requires g > 0
  { if bytes + g / 2 + (g - 1) < 2 * g then 2 else (bytes + g / 2 + (g - 1)) / g }

  // REQUEST_OUT_OF_RANGE: -2 * MINSIZE as a size_t
  predicate OutOfRange(g: int, limit: int, bytes: int) { bytes >= Bytes(g, limit) - 4 * g }

  // In an arena of heaps the request passes the guard against grow_heap for a negative amount.
  predicate Safe(a: Arena, bytes: int)
    requires a.g > 0
  { a.nonMain && !OutOfRange(a.g, a.limit, bytes) ==> Guard(Request(a.g, bytes), a.page, a.heapMax, a.limit) }

  // A request for nothing is always safe.
  lemma NothingSafe(a: Arena)
    requires a.Valid()
    ensures Safe(a, 0)
  {
    if a.nonMain { RoomBeside(a); }
  }

  lemma RoomBeside(a: Arena)
    requires a.Valid() && a.nonMain
    ensures a.page > 0 && 2 + a.heapMax < a.limit
  {
    FirstHeapStays(a.Now(), a.g, a.nonMain, a.page, a.heapMax);
    hide Base;
    var r := a.regions[0];
    assert RegionsOk(a.regions, a.lo, a.hi);
    HeapIs(a.regions, a.page, a.heapMax, 0);
    MulAtLeast(r.base / a.heapMax, a.heapMax) by { DivMod(r.base, a.heapMax); }
  }

  // The smallest chunk with room for the bytes and the size word.
  lemma RequestIs(g: int, bytes: int)
    requires IsGrain(g) && bytes >= 0
    ensures var n := Request(g, bytes); n >= 2 && bytes + g / 2 <= Bytes(g, n)
    ensures var n := Request(g, bytes); n > 2 ==> Bytes(g, n - 1) < bytes + g / 2
  {
  }

  // A request in range neither wraps around when padded nor when MINSIZE is added.
  lemma InRangeFits(g: int, limit: int, bytes: int)
    requires IsGrain(g) && bytes >= 0 && !OutOfRange(g, limit, bytes)
    ensures Request(g, bytes) + 2 < limit
  {
  }

  // The size realloc and the independent allocators ask for: nb - MALLOC_ALIGN_MASK.
  lemma RequestAgain(g: int, n: int)
    requires IsGrain(g) && n >= 2
    ensures Bytes(g, n) - (g - 1) >= 0 && Request(g, Bytes(g, n) - (g - 1)) == n
  {
  }

  lemma NoExactStays(x: St, y: St, g: int, nm: bool, n: int)
    requires Good(x, g, nm) && Good(y, g, nm) && OnlyUnsortedAdded(x.s, y.s) && n >= 2 && InSmallbinRange(Bytes(g, n))
    requires NoExact(x.s, x.c, n)
    ensures NoExact(y.s, y.c, n)
  {
    hide Good, BinIndex, Bytes, InSmallbinRange;
    GoodParts(x, g, nm);
    BinIndexRange(g, n);
    forall q {:trigger q in y.s} | q in y.s && y.s[q].bin >= 2 && q in y.c
      ensures y.c[q].size != n
    {
      SlotIs(x, g, nm, q);
      SlotIs(y, g, nm, q);
      if BinIndex(Bytes(g, x.c[q].size)) < 64 { SmallBinExact(g, x.c[q].size, y.c[q].size); }
    }
  }

  lemma FreshInside(x: St, z: St, g: int, nm: bool, p: int, n: int)
    requires Good(x, g, nm) && Good(z, g, nm) && z.rs == x.rs && p in z.c && z.c[p].tag == Live && z.c[p].size == n
    ensures FreshPast(x.rs, z.lo, z.hi, p, n)
  {
    hide Good;
    if x.rs != [] { LastApart(x, g, nm, Region(0, 0, 0)) by { AnyFree(x, g, nm); } }
    NotPast(x.rs, x.rs, z, g, nm, p, n);
  }

  // What a served request leaves behind.
  ghost predicate Served(x: St, z: St, n: int, p: int, given: int, from: Source, seen: map<int, Chunk>, last: int, small: bool) {
    && HandedOut(x, z, p, given) && n <= given < n + 2
    && FreshPast(x.rs, z.lo, z.hi, p, given)
    && LiveOf(seen) == LiveOf(x.c)
    && from != Nowhere && (from != Bins ==> given == n)
    && (from == Unsorted ==> TookUnsorted(seen, z.c, p, n, last, small))
    && (from == Bins ==> BestFit(seen, p, n) && TookFree(seen, z.c, p, n))
    && (from == TopChunk || from == System ==> NoFit(seen, n))
    && (from != Fastbin ==> PrevUsed(z.hi, p))
    && (from == TopChunk ==> p in seen && z.c == Split(seen, p, n, Live, Top))
  }

  predicate Small(a: Arena, n: int) { InSmallbinRange(Bytes(a.g, n)) }

  // The last remainder once the request is served: a chunk that is split for a small request leaves it.
  ghost predicate Remaindered(seen: map<int, Chunk>, p: int, n: int, from: Source, last: int, small: bool, now: int) {
    if from == Unsorted || from == Bins then p in seen && now == NewRemainder(seen, p, n, last, small) else now == last
  }

  // What the unsorted list holds for the request is what serves it.
  ghost predicate FromList(x: St, n: int, last: int, small: bool, p: int, from: Source) {
    HasExact(x.s, x.c, n) || SplitsLast(x.s, x.c, n, last, small) ==> from == Unsorted && Chosen(x.s, x.c, n, last, small, p)
  }

  // The fastbin of the request has a chunk.
  ghost predicate FastReady(a: Arena, n: int)
    reads a
  {
    Bytes(a.g, n) <= a.maxFast && 0 <= FastbinIndex(Bytes(a.g, n)) < |a.fastbins| && a.fastbins[FastbinIndex(Bytes(a.g, n))] != 0
  }

  // Nothing in the heap serves the request: fastbins are consolidated, no free chunk is large enough, nor is the top.
  ghost predicate Exhausted(c: map<int, Chunk>, seen: map<int, Chunk>, n: int) {
    && LiveOf(seen) == LiveOf(c) && NoFit(seen, n)
    && forall q {:trigger seen[q]} :: q in seen ==> seen[q].tag != Fast && (seen[q].tag == Top ==> seen[q].size < n + 2)
  }

  // The system gave no memory, or not enough for a request whose size with top_pad wraps around.
  ghost predicate Refused(a: Arena, rs: seq<Region>, seen: map<int, Chunk>, n: int, sys: Answers)
    reads a
  {
    NoMore(a, rs, seen, n, sys) &&
    if a.nonMain then NotGrown(rs, a.regions)
    else SumFits(n, a.topPad, a.page, a.limit) ==> a.regions == rs && a.chunks == seen
  }

  // The answers of the system do not let the arena grow enough.
  ghost predicate NoMore(a: Arena, rs: seq<Region>, seen: map<int, Chunk>, n: int, sys: Answers) {
    && a.page > 0 && a.limit > 0 && (a.nonMain ==> a.heapMax > 0)
    && if a.nonMain then forall q {:trigger seen[q]} :: q in seen && seen[q].tag == Top ==> Denied(a, rs, seen[q].size, n, sys)
       else Denied(a, rs, 0, n, sys)
  }

  // Neither the heap nor the system has anything for the request.
  ghost predicate Starved(a: Arena, rs: seq<Region>, c: map<int, Chunk>, n: int, sys: Answers) {
    exists seen :: Exhausted(c, seen, n) && NoMore(a, rs, seen, n, sys)
  }

  lemma ExhaustedSame(c: map<int, Chunk>, d: map<int, Chunk>, seen: map<int, Chunk>, n: int)
    requires Exhausted(d, seen, n) && LiveOf(d) == LiveOf(c)
    ensures Exhausted(c, seen, n)
  {
  }

  lemma ExhaustedIs(x: St, y: St, g: int, nm: bool, n: int)
    requires Good(y, g, nm) && Unnoticed(x, y) && NoFit(y.c, n) && y.f == map[] && TopKnown(y.top, y.hi, y.rs)
    requires y.top in y.hi && y.hi[y.top].Size? && y.hi[y.top].n < n + 2
    ensures Exhausted(x.c, y.c, n)
  {
    TopReads(y, g, nm);
    hide Linked, Indexed, Tiled, Tagged, RegionsOk;
    forall q {:trigger y.c[q]} | q in y.c
      ensures y.c[q].tag != Fast && (y.c[q].tag == Top ==> y.c[q].size < n + 2)
    {
      var _ := q in y.f;
      ChunksInRegions(y, g, nm, q);
    }
  }

  // The paths before the unsorted list is looked at.
  method QuickFit(a: Arena, n: int) returns (p: int, from: Source, ok: bool)
    requires a.Valid() && n >= 2
    modifies a`lo, a`hi, a`slots, a`chunks, a`fast, a`fastbins, a`top, a`haveFast
    ensures ok && a.Valid()
    ensures p == 0 ==> Unnoticed(old(a.Now()), a.Now()) && from == Nowhere
    ensures p == 0 ==> if InSmallbinRange(Bytes(a.g, n)) then NoExact(a.slots, a.chunks, n) else !a.haveFast
    ensures p == 0 && !old(a.haveFast) ==> !a.haveFast && a.chunks == old(a.chunks)
    ensures p != 0 ==> Served(old(a.Now()), a.Now(), n, p, n, from, old(a.chunks), a.lastRemainder, Small(a, n))
    ensures p != 0 ==> from == SmallBin || (from == Fastbin && old(a.haveFast))
    ensures p == 0 && (Small(a, n) || !old(a.haveFast)) ==> a.Now() == old(a.Now())
    ensures from == SmallBin <==> !old(FastReady(a, n)) && Small(a, n) && !NoExact(old(a.slots), old(a.chunks), n)
    ensures if old(FastReady(a, n)) then from == Fastbin && p == old(a.fastbins)[FastbinIndex(Bytes(a.g, n))] else from != Fastbin
    ensures from == SmallBin ==> LastOfBin(old(a.slots), p)
  {
    hide LastOfBin, TookUnsorted, Good, Unnoticed, HandedOut, NoExact, HeapsOk, PageEnds, MapOk, SystemSize,
      FastbinIndex, NFastbins, Bytes, WithinLimit, UnitsOk, TopKnown, FreshPast, OnlyUnsortedAdded, LiveOf, TookFree, KnownTo;
    ghost var x := a.Now();
    SelfKept(x);
    ok := true;
    p := 0;
    from := Nowhere;
    if Bytes(a.g, n) <= a.maxFast {
      p, ok := FastPop(a, n);
      if p != 0 {
        QuickServed(x, a.Now(), a.g, a.nonMain, n, p, a.lastRemainder, Small(a, n));
        from := Fastbin;
        return;
      }
    }
    if InSmallbinRange(Bytes(a.g, n)) {
      p := SmallHit(a, n);
      if p != 0 {
        QuickServed(x, a.Now(), a.g, a.nonMain, n, p, a.lastRemainder, Small(a, n));
        from := SmallBin;
      }
    } else if a.haveFast {
      var ok1 := Consolidate(a);
      ok := ok && ok1;
    }
  }

  lemma QuickServed(x: St, z: St, g: int, nm: bool, n: int, p: int, last: int, small: bool)
    requires Good(x, g, nm) && Good(z, g, nm) && z.rs == x.rs && HandedOut(x, z, p, n)
    ensures Served(x, z, n, p, n, Fastbin, x.c, last, small) && (PrevUsed(z.hi, p) ==> Served(x, z, n, p, n, SmallBin, x.c, last, small))
  {
    hide Good, FreshPast;
    HandedNonZero(z, g, nm, x, p, n);
    FreshInside(x, z, g, nm, p, n);
  }

  lemma PassServed(x: St, y: St, z: St, g: int, nm: bool, n: int, p: int, given: int, from: Source, last: int, small: bool)
    requires Good(x, g, nm) && Good(z, g, nm) && z.rs == x.rs && Unnoticed(x, y) && HandedOut(y, z, p, given) && n <= given < n + 2
    requires from == Unsorted || from == Bins || from == TopChunk
    requires (from != Bins ==> given == n) && PrevUsed(z.hi, p)
    requires from == Unsorted ==> TookUnsorted(y.c, z.c, p, n, last, small)
    requires from == Bins ==> BestFit(y.c, p, n) && TookFree(y.c, z.c, p, n)
    requires from == TopChunk ==> NoFit(y.c, n) && p in y.c && z.c == Split(y.c, p, n, Live, Top)
    ensures Served(x, z, n, p, given, from, y.c, last, small)
  {
    hide TookUnsorted, Good, FreshPast, BestFit, TookFree, NoFit, DataKept;
    UnnoticedThenOut(x, y, z, p, given);
    HandedNonZero(z, g, nm, x, p, given);
    FreshInside(x, z, g, nm, p, given);
  }

  lemma SystemServed(x: St, y: St, z: St, g: int, nm: bool, n: int, p: int, last: int, small: bool)
    requires Good(x, g, nm) && Good(z, g, nm) && y.rs == x.rs && Unnoticed(x, y) && HandedOut(y, z, p, n) && NoFit(y.c, n)
    requires FreshPast(y.rs, z.lo, z.hi, p, n) && PrevUsed(z.hi, p)
    ensures Served(x, z, n, p, n, System, y.c, last, small)
  {
    hide Good, FreshPast, DataKept;
    UnnoticedThenOut(x, y, z, p, n);
  }

  lemma DeniedAll(a: Arena, y: St, n: int, sys: Answers)
    requires Good(y, a.g, a.nonMain) && TopKnown(y.top, y.hi, y.rs) && y.top in y.hi && y.hi[y.top].Size?
    requires a.page > 0 && a.limit > 0 && (a.nonMain ==> a.heapMax > 0) && Denied(a, y.rs, y.hi[y.top].n, n, sys)
    ensures NoMore(a, y.rs, y.c, n, sys)
  {
    TopReads(y, a.g, a.nonMain);
    hide Linked, Indexed, Tiled, Tagged, RegionsOk, NoHeap, HasRoom, CanMap, MainSize;
    forall q {:trigger y.c[q]} | q in y.c && y.c[q].tag == Top
      ensures q == y.top && y.hi[y.top].n == y.c[q].size
    {
      ChunksInRegions(y, a.g, a.nonMain, q);
    }
  }

  lemma NotEndangered(a: Arena, n: int)
    requires a.Valid() && (a.nonMain ==> Guard(n, a.page, a.heapMax, a.limit))
    ensures !Endangered(a, n)
  {
    if a.nonMain { Unendangered(a, n); }
  }

  // One round of the outer loop: serve the request, give up, or ask for another round.
  method Round(a: Arena, ghost x: St, n: int, sys: Answers) returns (p: int, given: int, from: Source, ghost seen: map<int, Chunk>, again: bool, ok: bool)
    requires a.Valid() && n >= 2 && Good(x, a.g, a.nonMain) && Unnoticed(x, a.Now()) && a.regions == x.rs
    requires if InSmallbinRange(Bytes(a.g, n)) then NoExact(a.slots, a.chunks, n) else !a.haveFast
    requires n + 2 < a.limit && (a.nonMain ==> Guard(n, a.page, a.heapMax, a.limit))
    modifies a
    ensures ok && a.Valid()
    ensures p == 0 ==> Unnoticed(x, a.Now())
    ensures p == 0 && !again ==> Exhausted(x.c, seen, n)
    ensures p == 0 && !again ==> Refused(a, x.rs, seen, n, sys)
    ensures p != 0 ==> Served(x, a.Now(), n, p, given, from, seen, old(a.lastRemainder), Small(a, n))
    ensures Remaindered(seen, p, n, from, old(a.lastRemainder), Small(a, n), a.lastRemainder)
    ensures Chosen(old(a.slots), old(a.chunks), n, old(a.lastRemainder), Small(a, n), if from == Unsorted then p else 0)
    ensures from != Fastbin && from != SmallBin && seen == old(a.chunks)
    ensures p == 0 ==> from == Nowhere && a.lastRemainder == old(a.lastRemainder)
    ensures from == System ==> Exhausted(x.c, seen, n)
    ensures p != 0 && from != System ==> a.regions == x.rs
    ensures again ==> p == 0 && old(a.haveFast) && !a.haveFast && a.regions == x.rs
    ensures again && InSmallbinRange(Bytes(a.g, n)) ==> NoExact(a.slots, a.chunks, n)
  {
    hide NewRemainder, Chosen, NotGrown, TookUnsorted, Exhausted, Good, Unnoticed, NoExact, HeapsOk, PageEnds, MapOk, SystemSize,
      FastbinIndex, NFastbins, WithinLimit, UnitsOk, TopKnown, Served, OnlyUnsortedAdded, NoFit, TookFree, BestFit,
      HandedOut, Bytes, FreshPast, InSmallbinRange, KnownTo;
    ghost var y := a.Now();
    seen := a.chunks;
    ghost var last := a.lastRemainder;
    again := false;
    p, given, from, ok := Pass(a, n);
    if p != 0 {
      PassServed(x, y, a.Now(), a.g, a.nonMain, n, p, given, from, last, Small(a, n));
      return;
    }
    UnnoticedTrans(x, y, a.Now());
    y := a.Now();
    var ok1;
    if a.haveFast {
      assert InSmallbinRange(Bytes(a.g, n));
      ok1 := Consolidate(a);
      NoExactStays(y, a.Now(), a.g, a.nonMain, n);
      UnnoticedTrans(x, y, a.Now());
      again := true;
    } else {
      ExhaustedIs(x, y, a.g, a.nonMain, n);
      NotEndangered(a, n);
      p, ok1 := SysMalloc(a, n, sys);
      if p == 0 {
        DeniedAll(a, y, n, sys);
        UnnoticedTrans(x, y, a.Now());
      } else {
        given, from := n, System;
        SystemServed(x, y, a.Now(), a.g, a.nonMain, n, p, last, Small(a, n));
      }
    }
    ok := ok && ok1;
  }

  lemma ListFirst(y: St, n: int, last: int, small: bool, p: int, from: Source)
    requires Chosen(y.s, y.c, n, last, small, if from == Unsorted then p else 0)
    ensures FromList(y, n, last, small, p, from)
  {
  }

  lemma ListHasNone(x: St, n: int, last: int, small: bool, p: int, from: Source)
    requires FromList(x, n, last, small, 0, Nowhere)
    ensures FromList(x, n, last, small, p, from)
  {
  }

  lemma QuickRemainder(seen: map<int, Chunk>, p: int, n: int, from: Source, last: int, small: bool)
    requires from != Unsorted && from != Bins
    ensures Remaindered(seen, p, n, from, last, small, last)
  {
  }

  // aproxy_int_malloc
  method Malloc(a: Arena, bytes: int, sys: Answers) returns (p: int, given: int, from: Source, ghost seen: map<int, Chunk>, passes: int, ok: bool)
    requires a.Valid() && 0 <= bytes < Bytes(a.g, a.limit) && Safe(a, bytes)
    modifies a
    ensures ok && a.Valid() && passes <= 2
    ensures p == 0 ==> Unnoticed(old(a.Now()), a.Now())
    ensures p != 0 ==> var n := Request(a.g, bytes);
      && Served(old(a.Now()), a.Now(), n, p, given, from, seen, old(a.lastRemainder), Small(a, n))
      && Remaindered(seen, p, n, from, old(a.lastRemainder), Small(a, n), a.lastRemainder)
    ensures p == 0 ==> a.lastRemainder == old(a.lastRemainder)
    ensures OutOfRange(a.g, a.limit, bytes) ==> p == 0
    ensures p == 0 ==> OutOfRange(a.g, a.limit, bytes) || Exhausted(old(a.chunks), seen, Request(a.g, bytes))
    ensures p == 0 ==> OutOfRange(a.g, a.limit, bytes) || Refused(a, old(a.regions), seen, Request(a.g, bytes), sys)
    ensures from == Fastbin ==> old(a.haveFast)
    ensures !OutOfRange(a.g, a.limit, bytes) ==> (from == Fastbin <==> old(FastReady(a, Request(a.g, bytes))))
    ensures from == Fastbin ==> old(FastReady(a, Request(a.g, bytes))) && p == old(a.fastbins)[FastbinIndex(Bytes(a.g, Request(a.g, bytes)))]
    ensures from == SmallBin ==> LastOfBin(old(a.slots), p)
    ensures !OutOfRange(a.g, a.limit, bytes) ==> var n := Request(a.g, bytes);
      from == SmallBin <==> !old(FastReady(a, n)) && Small(a, n) && !NoExact(old(a.slots), old(a.chunks), n)
    ensures !OutOfRange(a.g, a.limit, bytes) && from != Fastbin && from != SmallBin ==> var n := Request(a.g, bytes);
      Small(a, n) || !old(a.haveFast) ==> FromList(old(a.Now()), n, old(a.lastRemainder), Small(a, n), p, from)
    ensures from == System ==> Exhausted(old(a.chunks), seen, Request(a.g, bytes))
    ensures p != 0 && from != System ==> a.regions == old(a.regions)
    ensures !old(a.haveFast) ==> seen == old(a.chunks)
  {
    hide Refused, Remaindered, FromList, Chosen, Small, TookUnsorted, Exhausted, FastReady, LastOfBin, Good, Unnoticed, NoExact, HeapsOk, PageEnds, MapOk,
      SystemSize, FastbinIndex, NFastbins, WithinLimit, UnitsOk, TopKnown, Served, OnlyUnsortedAdded, NoFit, TookFree,
      BestFit, HandedOut, Bytes, FreshPast, InSmallbinRange, KnownTo;
    ghost var x := a.Now();
    GoodParts(x, a.g, a.nonMain);
    given, seen, passes := 0, a.chunks, 0;
    ghost var last := a.lastRemainder;
    if OutOfRange(a.g, a.limit, bytes) {
      SelfKept(x);
      return 0, 0, Nowhere, seen, 0, true;
    }
    RequestIs(a.g, bytes);
    InRangeFits(a.g, a.limit, bytes);
    var n := Request(a.g, bytes);
    p, from, ok := QuickFit(a, n);
    if p != 0 {
      QuickRemainder(seen, p, n, from, last, Small(a, n));
      given := n;
      return;
    }
    var again := true;
    while again
      invariant ok && a.Valid() && passes <= 2
      invariant p == 0 ==> Unnoticed(x, a.Now())
      invariant p == 0 && !again ==> Exhausted(x.c, seen, n) && Refused(a, x.rs, seen, n, sys)
      invariant p != 0 ==> Served(x, a.Now(), n, p, given, from, seen, last, Small(a, n)) && Remaindered(seen, p, n, from, last, Small(a, n), a.lastRemainder)
      invariant p == 0 ==> a.lastRemainder == last && from == Nowhere
      invariant passes == 0 ==> again && ((Small(a, n) || !old(a.haveFast)) ==> a.Now() == x)
      invariant passes > 0 && (Small(a, n) || !old(a.haveFast)) ==> FromList(x, n, last, Small(a, n), p, from)
      invariant again ==> p == 0 && a.regions == x.rs
      invariant p != 0 && from != System ==> a.regions == x.rs
      invariant from != Fastbin && from != SmallBin && (from == System ==> Exhausted(x.c, seen, n))
      invariant !old(a.haveFast) ==> seen == old(a.chunks) && (again ==> !a.haveFast && a.chunks == old(a.chunks))
      invariant again ==> if InSmallbinRange(Bytes(a.g, n)) then NoExact(a.slots, a.chunks, n) else !a.haveFast
      invariant again ==> passes == 0 || (passes == 1 && !a.haveFast)
      decreases again, 2 - passes
    {
      passes := passes + 1;
      var ok1;
      ghost var y := a.Now();
      p, given, from, seen, again, ok1 := Round(a, x, n, sys);
      if passes == 1 { ListFirst(y, n, last, Small(a, n), p, from); } else if old(!a.haveFast) || Small(a, n) { ListHasNone(x, n, last, Small(a, n), p, from); }
      ok := ok && ok1;
    }
  }
}
