/** arena_for_chunk, mallopt, and requests that are too large for a size_t or a long. */
module ArenaLookup {
  import opened Memory
  import opened Sizes
  import opened Chunks
  import opened State
  import opened Arenas
  import opened Consolidating
  import opened Pages
  import opened HeapTrim
  import opened SystemAllocation
  import opened IntMalloc
  import opened LiveCuts

  // ---- from a chunk to its arena

  // arena_for_chunk; arPtr holds the ar_ptr field of every heap, by address
  function ArenaForChunk(hi: map<int, Word>, arPtr: map<int, int>, hm: int, p: int): int
    requires p in hi && hi[p].Size? && (hi[p].a ==> hm > 0 && HeapForPtr(p, hm) in arPtr)
  { if hi[p].a then arPtr[HeapForPtr(p, hm)] else MAIN_ARENA }

  // Every chunk in use of an arena is found to belong to it.
  lemma FindsOwner(a: Arena, p: int)
    requires a.Valid() && p in a.chunks && a.chunks[p].tag == Live
    ensures p in a.hi && a.hi[p].Size? && (a.hi[p].a ==> a.heapMax > 0 && HeapForPtr(p, a.heapMax) in a.arPtr)
    ensures ArenaForChunk(a.hi, a.arPtr, a.heapMax, p) == a.id
  {
    hide Base, Good, MapOk, SystemSize, FastbinIndex, NFastbins, Bytes, WithinLimit, UnitsOk, TopKnown;
    ghost var x := a.Now();
    LiveIs(x, a.g, a.nonMain, p);
    if a.nonMain {
      LiveEndsInside(x, a.g, a.nonMain, p);
      HeapIs(x.rs, a.page, a.heapMax, x.c[p].home);
      WithinArea(p, x.rs[x.c[p].home].base, a.heapMax);
    }
  }

  // ---- mallopt(M_MXFAST)

  const MAX_FAST_SIZE := 80

  // set_max_fast, in bytes
  function MaxFastFor(g: int, value: int): int
    requires IsGrain(g)
  { if value == 0 then 8 else Bytes(g, Request(g, value)) }

  // The largest fastbin class stays inside the array, and holds MINSIZE chunks, except for 0.
  lemma MaxFastInRange(g: int, value: int)
    requires IsGrain(g) && 0 <= value <= MAX_FAST_SIZE
    ensures Bytes(g, 2) <= MaxFastFor(g, value) && 0 <= FastbinIndex(MaxFastFor(g, value)) < NFastbins(g) <==> value != 0
    ensures value == 0 ==> MaxFastFor(g, value) == Spacing(2)
  {
  }

  // mallopt(M_MXFAST, value); the arena stays as it should be exactly when value is not 0.
  method SetMxFast(a: Arena, value: int) returns (res: bool, ok: bool)
    requires a.Valid()
    modifies a`lo, a`hi, a`slots, a`chunks, a`top, a`fast, a`fastbins, a`haveFast, a`maxFast
    ensures ok && Unnoticed(old(a.Now()), a.Now()) && (a.Valid() <==> value != 0)
    ensures res <==> 0 <= value <= MAX_FAST_SIZE
    ensures a.maxFast == if res && IsGrain(a.g) then MaxFastFor(a.g, value) else old(a.maxFast)
  {
    hide Good, Unnoticed, MapOk, HeapsOk, PageEnds, SystemSize, NFastbins, WithinLimit, UnitsOk, TopKnown;
    ok := Consolidate(a);
    GrainIs(a.Now(), a.g, a.nonMain);
    res := value >= 0 && value <= MAX_FAST_SIZE;
    if res {
      MaxFastInRange(a.g, value);
      a.maxFast := MaxFastFor(a.g, value);
    }
  }

  lemma GrainIs(x: St, g: int, nm: bool)
    requires Good(x, g, nm)
    ensures IsGrain(g)
  {
  }
}
