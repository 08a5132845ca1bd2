/** public_fREe and public_rEALLOc, for chunks of one arena. */
module PublicCalls {
  import opened Sizes
  import opened Chunks
  import opened FastLists
  import opened Layout
  import opened State
  import opened Arenas
  import opened LiveView
  import opened Consolidating
  import opened FreeAll
  import opened Pages
  import opened Taking
  import opened Searching
  import opened SystemAllocation
  import opened IntMalloc
  import opened SystemCalls
  import opened LiveCuts
  import opened Reallocating
  import opened ReallocAll
  import opened ArenaLookup

  // free; a null pointer is ignored
  method PublicFree(a: Arena, p: int, remapped: bool) returns (ok: bool)
    requires a.Valid() && (p != 0 ==> p in a.chunks && a.chunks[p].tag == Live)
    modifies a
    ensures ok && a.Valid()
    ensures if p == 0 then a.Now() == old(a.Now()) else GivenBack(old(a.Now()), a.Now(), p)
  {
    hide Good, GivenBack, MapOk, HeapsOk, PageEnds, SystemSize, FastbinIndex, NFastbins, Bytes, WithinLimit, UnitsOk, TopKnown, KnownTo;
    ok := true;
    if p == 0 { return; }
    FindsOwner(a, p);
    ok := ArenaForChunk(a.hi, a.arPtr, a.heapMax, p) == a.id;
    var ok1 := Free(a, p, remapped);
    ok := ok && ok1;
  }

  // realloc: of a null pointer it is malloc, for no bytes it is free
  method PublicRealloc(a: Arena, p: int, bytes: int, sys: Answers) returns (q: int, k: int, ok: bool)
    requires a.Valid() && (p != 0 ==> p in a.chunks && a.chunks[p].tag == Live)
    requires 0 <= bytes < Bytes(a.g, a.limit) && (p == 0 || bytes != 0 ==> Safe(a, bytes))
    modifies a
    ensures ok && a.Valid()
    ensures p != 0 && bytes == 0 ==> q == 0 && GivenBack(old(a.Now()), a.Now(), p)
    ensures p == 0 && q == 0 ==> Unnoticed(old(a.Now()), a.Now())
    ensures p == 0 && q == 0 ==> OutOfRange(a.g, a.limit, bytes) || Starved(a, old(a.regions), old(a.chunks), Request(a.g, bytes), sys)
    ensures p == 0 && q != 0 ==> HandedOut(old(a.Now()), a.Now(), q, k) && Request(a.g, bytes) <= k < Request(a.g, bytes) + 2
    ensures p != 0 && bytes != 0 && q == 0 ==> Unnoticed(old(a.Now()), a.Now())
    ensures p != 0 && bytes != 0 && q == 0 ==> var n := Request(a.g, bytes);
      OutOfRange(a.g, a.limit, bytes) || OutOfRange(a.g, a.limit, Bytes(a.g, n) - (a.g - 1)) || Starved(a, old(a.regions), old(a.chunks), n, sys)
    ensures p != 0 && q != 0 ==> Reallocated(old(a.Now()), a.Now(), p, q, k) && Request(a.g, bytes) <= k < Request(a.g, bytes) + 2
  {
    hide Good, GivenBack, HandedOut, Reallocated, Unnoticed, MapOk, HeapsOk, PageEnds, SystemSize, FastbinIndex, NFastbins, Bytes, WithinLimit,
      UnitsOk, TopKnown, KnownTo, Exhausted, NoMore, Request, FreshPast, BestFit, TookFree, NoFit, OutOfRange;
    q, k := 0, 0;
    if p != 0 && bytes == 0 {
      ok := PublicFree(a, p, sys.first);
      return;
    }
    if p == 0 {
      var from, passes;
      ghost var seen;
      q, k, from, seen, passes, ok := Malloc(a, bytes, sys);
      return;
    }
    ghost var x := a.Now();
    SizeRead(a, p);
    var oldsize := a.hi[p].n;
    if p > (a.limit - oldsize) % a.limit { return 0, 0, false; }
    FindsOwner(a, p);
    ok := ArenaForChunk(a.hi, a.arPtr, a.heapMax, p) == a.id;
    var ok1;
    q, k, ok1 := Realloc(a, p, bytes, sys);
    ok := ok && ok1;
    if q != 0 {
      NewIsLive(x, a.Now(), p, q, k);
      FindsOwner(a, q);
      ok := ok && ArenaForChunk(a.hi, a.arPtr, a.heapMax, q) == a.id;
    }
  }

  // The size word of a chunk in use; the chunk does not wrap around the end of the address space.
  lemma SizeRead(a: Arena, p: int)
    requires a.Valid() && p in a.chunks && a.chunks[p].tag == Live
    ensures p in a.hi && a.hi[p].Size? && a.limit > 0 && p <= (a.limit - a.hi[p].n) % a.limit
  {
    hide Good, MapOk, HeapsOk, PageEnds, SystemSize, FastbinIndex, NFastbins, Bytes, TopKnown, KnownTo;
    LiveIs(a.Now(), a.g, a.nonMain, p);
    LiveEndsInside(a.Now(), a.g, a.nonMain, p);
    ModSmall(a.limit - a.hi[p].n, a.limit);
  }

  lemma NewIsLive(x: St, y: St, p: int, q: int, k: int)
    requires Reallocated(x, y, p, q, k)
    ensures q in y.c && y.c[q].tag == Live
  {
    assert q in LiveOf(y.c);
  }
}
