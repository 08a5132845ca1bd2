/** What memory from the system does to a heap, for both kinds of arena. */
module SystemAllocation {
  import opened Memory
  import opened Sizes
  import opened BinLists
  import opened Chunks
  import opened Frames
  import opened FastLists
  import opened Layout
  import opened State
  import opened Arenas
  import opened Release
  import opened Freeing
  import opened LiveView
  import opened Consolidating
  import opened HeapTrim
  import opened IntFree
  import opened FreeAll
  import opened Taking
  import opened Searching
  import opened Passes
  import opened Growing
  import opened Attaching
  import opened Retiring
  import opened NewHeaps

  // Freeing what is left of the old top undoes its being in use.
  lemma OutThenBack(x: St, y: St, z: St, g: int, nm: bool, p: int, n: int)
    requires HandedOut(x, y, p, n) && GivenBack(y, z, p) && Good(x, g, nm)
    ensures Unnoticed(x, z)
  {
    hide Linked, FastLinked, Indexed, FastIndexed, Tagged, RegionsOk, Placed;
    assert LiveOf(z.c) == LiveOf(x.c);
    forall q | q in x.c && x.c[q].tag == Live
      ensures SameBody(x.lo, x.hi, z.lo, z.hi, q, x.c[q].size)
    {
      OutThenBackBody(x, y, z, g, nm, p, n, q);
    }
  }

  lemma OutThenBackBody(x: St, y: St, z: St, g: int, nm: bool, p: int, n: int, q: int)
    requires HandedOut(x, y, p, n) && GivenBack(y, z, p) && Good(x, g, nm) && q in x.c && x.c[q].tag == Live
    ensures SameBody(x.lo, x.hi, z.lo, z.hi, q, x.c[q].size)
  {
    hide Linked, FastLinked, Indexed, FastIndexed, Tagged, RegionsOk, Placed, SameBody;
    assert ChunkAt(x.c, q);
    assert q in LiveOf(x.c) && q != p;
    assert q in LiveOf(y.c) && LiveOf(y.c)[q] == x.c[q].size;
    assert q in y.c && y.c[q].tag == Live && y.c[q].size == x.c[q].size;
    assert SameBody(x.lo, x.hi, y.lo, y.hi, q, x.c[q].size);
    BodyTrans(x.lo, x.hi, y.lo, y.hi, z.lo, z.hi, q, x.c[q].size);
  }

  ghost predicate RegionFits(a: Arena, r: Region)
    reads a
  {
    if a.nonMain then HeapRegionOk(a.regions, a.page, a.heapMax, a.limit, r)
    else r.base == r.first && r.base < r.end <= a.limit && a.page > 0 && r.base % a.page == 0 && r.end % a.page == 0
  }

  lemma MoreRegions(rs: seq<Region>, page: int, limit: int, r: Region)
    requires PageEnds(rs, page) && WithinLimit(rs, 0, limit) && r.base % page == 0 && r.end % page == 0 && r.base < r.end <= limit
    ensures PageEnds(rs + [r], page) && WithinLimit(rs + [r], 0, limit)
    ensures SystemSize(rs + [r]) == SystemSize(rs) + r.end - r.base
  {
    var ts := rs + [r];
    assert ts[..|ts| - 1] == rs;
  }

  lemma CountersGrow(a: Arena, r: Region)
    requires a.Counters() && RegionFits(a, r)
    ensures SystemSize(a.regions + [r]) == SystemSize(a.regions) + r.end - r.base
    ensures WithinLimit(a.regions + [r], if a.nonMain then a.heapMax else 0, a.limit)
    ensures if a.nonMain then HeapsOk(a.regions + [r], a.page, a.heapMax) else PageEnds(a.regions + [r], a.page)
  {
    hide HeapsOk, PageEnds, MapOk, SystemSize, FastbinIndex, NFastbins, Bytes, WithinLimit, HeapRegionOk, UnitsOk;
    if a.nonMain { MoreHeaps(a.regions, a.page, a.heapMax, a.limit, r); } else { MoreRegions(a.regions, a.page, a.limit, r); }
  }

  lemma KnownGrow(nm: bool, rs: seq<Region>, arPtr: map<int, int>, id: int, r: Region)
    requires KnownTo(nm, rs, arPtr, id)
    ensures KnownTo(nm, rs + [r], if nm then arPtr[r.base := id] else arPtr, id)
  {
  }

  // The memory of region r becomes the arena's, with a new top.
  method AttachRegion(a: Arena, r: Region)
    requires a.Counters() && RegionFits(a, r)
    modifies a`lo, a`hi, a`top, a`chunks, a`regions, a`systemMem, a`contiguous, a`arPtr
    ensures a.Now() == Attached(old(a.Now()), r) && a.Counters() && !a.contiguous
  {
    hide HeapsOk, PageEnds, MapOk, SystemSize, FastbinIndex, NFastbins, Bytes, WithinLimit, RegionFits, UnitsOk, KnownTo, TopKnown, Attached;
    CountersGrow(a, r);
    KnownGrow(a.nonMain, a.regions, a.arPtr, a.id, r);
    ghost var x := a.Now();
    EnterRegion(a, r);
    AttachedHas(x, r);
    KnownTop(a.top, a.hi, x.rs, r);
  }

  method EnterRegion(a: Arena, r: Region)
    modifies a`lo, a`hi, a`top, a`chunks, a`regions, a`systemMem, a`contiguous, a`arPtr
    ensures a.Now() == Attached(old(a.Now()), r) && !a.contiguous && a.systemMem == old(a.systemMem) + r.end - r.base
    ensures a.arPtr == if a.nonMain then old(a.arPtr)[r.base := a.id] else old(a.arPtr)
  {
    hide ZerosLo, ZerosHi;
    ghost var x := a.Now();
    a.contiguous := false;
    a.systemMem := a.systemMem + (r.end - r.base);
    a.chunks := Attached(x, r).c;
    a.regions := a.regions + [r];
    if a.nonMain { a.arPtr := a.arPtr[r.base := a.id]; }
    a.top := r.first;
    a.lo := a.lo + ZerosLo(r.base, r.end);
    a.hi := (a.hi + ZerosHi(r.base, r.end))[r.first := Size(r.end - r.first, true, false)];
  }

  lemma AttachedHas(x: St, r: Region)
    ensures var y := Attached(x, r); y.rs == x.rs + [r] && y.s == x.s && y.f == x.f && y.heads == x.heads && y.top == r.first
  {
  }

  lemma KnownTop(top: int, hi: map<int, Word>, rs: seq<Region>, r: Region)
    ensures TopKnown(top, hi, rs + [r])
  {
  }

  // Setup fencepost for the old top chunk, of m granules after MINSIZE is taken off.
  method WriteMarkers(a: Arena, t: int, m: int)
    modifies a`lo, a`hi
    ensures a.hi == RetiredHi(old(a.hi), t, m, a.nonMain) && a.lo == RetiredLo(old(a.lo), t, m, a.nonMain)
  {
    if a.nonMain {
      a.hi := a.hi[t + m + 1 := Size(0, true, false)];
      if m >= 2 {
        a.hi := a.hi[t + m := Size(1, true, false)];
        a.lo := a.lo[t + m + 1 := 1];
        a.hi := a.hi[t := Size(m, true, true)];
      } else {
        a.hi := a.hi[t := Size(m + 1, true, false)];
        a.lo := a.lo[t + m + 1 := m + 1];
      }
    } else {
      a.hi := a.hi[t := Size(m, true, false)];
      a.hi := a.hi[t + m := Size(1, true, false)];
      a.hi := a.hi[t + m + 1 := Size(1, true, false)];
    }
  }

  // The top's size, 0 when there is no memory yet.
  function TopSize(a: Arena): int
    reads a
  { if a.top in a.hi && a.hi[a.top].Size? then a.hi[a.top].n else 0 }

  // From so many granules on an old top makes free look at the heaps.
  function Bulk(a: Arena): int { if a.g > 0 then 2 + (CONSOLIDATION_THRESHOLD - 1) / a.g + 1 else 0 }

  lemma BulkIs(a: Arena, m: int)
    requires IsGrain(a.g) && m + 2 < Bulk(a)
    ensures Bytes(a.g, m) < CONSOLIDATION_THRESHOLD
  {
  }

  lemma OldTopAlone(x: St, y: St, g: int, nm: bool, r: Region, m: int)
    requires Attachable(x, g, nm, r) && x.rs != [] && RetiredTo(x, y, nm, r, m) && Good(y, g, nm) && m >= 2
    ensures x.top in y.c && MergedSize(y.c, x.top) == m
  {
    RetiredFills(x, y, g, nm, r, m);
    hide Attachable, Attached;
    LowEdgeIs(y, g, nm, x.top);
    assert y.hi[x.top].p by { assert y.hi == RetiredHi(Attached(x, r).hi, x.top, m, nm); }
  }

  // From one top to another: markers at the end of the old one, and what is left of it freed.
  method ReplaceTop(a: Arena, r: Region, remapped: bool) returns (ok: bool)
    requires a.Valid() && !a.haveFast && Attachable(a.Now(), a.g, a.nonMain, r) && RegionFits(a, r)
    modifies a
    ensures ok && a.Valid() && Unnoticed(old(a.Now()), a.Now())
    ensures Shrunk(old(a.regions) + [r], a.regions) && OnlyUnsortedAdded(old(a.slots), a.slots)
    ensures a.lastRemainder == old(a.lastRemainder)
    ensures !a.nonMain || old(TopSize(a)) < Bulk(a) ==> a.regions == old(a.regions) + [r] && TopFills(a.Now(), r)
  {
    hide Bulk, MergedSize, TopFills, Good, Attachable, HeapsOk, PageEnds, HandedOut, Unnoticed, MapOk,
      SystemSize, FastbinIndex, NFastbins, Bytes, WithinLimit, RegionFits, Retired, Attached, RetiredHi, RetiredLo,
      UnitsOk, GivenBack, KnownTo, TopKnown, LiveOf, DataKept;
    ghost var x := a.Now();
    TopReads(x, a.g, a.nonMain);
    var old_top := a.top;
    var old_size := a.hi[old_top].n;
    OldSizeReads(x, a.g, a.nonMain, r);
    AttachRegion(a, r);
    AttachedChunks(x, r);
    ok := true;
    if old_size == 0 {
      FirstRegionMain(x, a.g, a.nonMain, r);
      AttachedFills(x, r);
      return;
    }
    var m := old_size - 2;
    WriteMarkers(a, old_top, m);
    a.chunks := Retired(a.chunks, old_top, m, a.nonMain);
    ghost var y := a.Now();
    assert RetiredTo(x, y, a.nonMain, r, m);
    AttachedHas(x, r);
    KnownTop(a.top, a.hi, x.rs, r);
    RetireGood(x, y, a.g, a.nonMain, r, m);
    RetiredFills(x, y, a.g, a.nonMain, r, m);
    if m >= 2 {
      HandedNonZero(y, a.g, a.nonMain, x, old_top, m);
      OldTopAlone(x, y, a.g, a.nonMain, r, m);
      ok := FreeOldTop(a, y, r, old_top, m, remapped);
      OutThenBack(x, y, a.Now(), a.g, a.nonMain, old_top, m);
    }
  }

  method FreeOldTop(a: Arena, ghost y: St, ghost r: Region, t: int, ghost m: int, remapped: bool) returns (ok: bool)
    requires a.Valid() && !a.haveFast && y == a.Now() && t in y.c && y.c[t].tag == Live && y.c[t].size == m && MergedSize(y.c, t) == m
    requires TopFills(y, r) && t + m in y.c && y.c[t + m].tag == Fence
    modifies a
    ensures ok && a.Valid() && GivenBack(y, a.Now(), t) && OnlyUnsortedAdded(y.s, a.slots) && Shrunk(y.rs, a.regions)
    ensures !a.nonMain || m + 2 < Bulk(a) ==> a.regions == y.rs && TopFills(a.Now(), r)
    ensures a.lastRemainder == old(a.lastRemainder)
  {
    hide HeapsTrimmed, Retag, Released, MergedSize, TopFills, Good, Attachable, HeapsOk, PageEnds, MapOk, Bulk,
      SystemSize, FastbinIndex, NFastbins, Bytes, WithinLimit, RegionFits, UnitsOk, GivenBack, KnownTo, TopKnown;
    GrainOf(y, a.g, a.nonMain);
    if m + 2 < Bulk(a) { BulkIs(a, m); }
    ok := Free(a, t, remapped);
    if !a.nonMain || m + 2 < Bulk(a) { FreedFills(y, a.Now(), a.g, a.nonMain, r, t); }
  }

  // The top is the whole of region r.
  ghost predicate TopFills(x: St, r: Region) {
    x.top == r.first && r.first in x.c && x.c[r.first].tag == Top && x.c[r.first].size == r.end - r.first
  }

  lemma AttachedFills(x: St, r: Region)
    ensures TopFills(Attached(x, r), r)
  {
  }

  lemma RetiredFills(x: St, y: St, g: int, nm: bool, r: Region, m: int)
    requires Attachable(x, g, nm, r) && x.rs != [] && RetiredTo(x, y, nm, r, m)
    ensures TopFills(y, r) && (m >= 2 ==> x.top in y.c && y.c[x.top].size == m && x.top + m in y.c && y.c[x.top + m].tag == Fence)
  {
    OutsideNew(x, g, nm, r);
    hide Good;
  }

  lemma OutsideNew(x: St, g: int, nm: bool, r: Region)
    requires Attachable(x, g, nm, r) && x.top in x.c
    ensures !(x.top <= r.first < x.top + x.c[x.top].size)
  {
    assert PlacedAt(x.c, x.rs, x.top);
    assert RegionsApart(x.rs[x.c[x.top].home], r);
  }

  // Freeing what is before a marker leaves the new top alone.
  lemma FreedFills(y: St, z: St, g: int, nm: bool, r: Region, t: int)
    requires Good(y, g, nm) && Good(z, g, nm) && TopFills(y, r) && t in y.c && y.c[t].tag == Live
    requires t + y.c[t].size in y.c && y.c[t + y.c[t].size].tag == Fence
    requires z.c == Retag(y.c, t, Fast) || z.c == Released(y.c, t)
    ensures TopFills(z, r)
  {
    if z.c == Released(y.c, t) && z.c != Retag(y.c, t, Fast) {
      LowEdgeFree(y, g, nm, t);
      hide Good;
      SpanPieces(y, g, nm, t, LowEdge(y.c, t), HighEdge(y.c, t));
      hide LowEdge;
    }
    assert r.first in z.c && z.c[r.first] == y.c[r.first];
    TopIsThere(z, g, nm, r.first);
  }

  lemma TopIsThere(z: St, g: int, nm: bool, p: int)
    requires Good(z, g, nm) && p in z.c && z.c[p].tag == Top
    ensures z.top == p
  {
  }

  lemma OldSizeReads(x: St, g: int, nm: bool, r: Region)
    requires Good(x, g, nm) && TopKnown(x.top, x.hi, x.rs) && Attachable(x, g, nm, r)
    ensures x.top in x.hi && x.hi[x.top].Size?
    ensures x.hi[x.top].n == 0 <==> x.rs == []
    ensures x.rs != [] ==> x.top in x.c && x.c[x.top].size == x.hi[x.top].n >= 2 && x.top in Attached(x, r).c
  {
    hide Good;
    TopReads(x, g, nm);
  }

  lemma FirstRegionMain(x: St, g: int, nm: bool, r: Region)
    requires Attachable(x, g, nm, r) && x.rs == []
    ensures Good(Attached(x, r), g, nm) && Unnoticed(x, Attached(x, r))
  {
    AttachBase(x, g, nm, r);
    FirstRegion(x, g, nm, r);
  }

  // ---- what a block holds beyond the end the newest region had

  ghost predicate FreshPast(rs: seq<Region>, lo: map<int, int>, hi: map<int, Word>, p: int, n: int) {
    rs != [] && rs[|rs| - 1].base <= p < rs[|rs| - 1].end ==>
      && (forall k {:trigger lo[k]} {:trigger k in lo} :: rs[|rs| - 1].end <= k <= p + n ==> k in lo && lo[k] == 0)
      && (forall k {:trigger hi[k]} {:trigger k in hi} :: rs[|rs| - 1].end <= k < p + n ==> k in hi && hi[k] == Size(0, false, false))
  }

  lemma LiveEndsInside(z: St, g: int, nm: bool, p: int)
    requires Good(z, g, nm) && p in z.c && z.c[p].tag == Live
    ensures 0 <= z.c[p].home < |z.rs|
    ensures z.rs[z.c[p].home].base <= p && p + z.c[p].size < z.rs[z.c[p].home].end
  {
    var e := p + z.c[p].size;
    assert ChunkAt(z.c, p) && ChunkAt(z.c, e) && PlacedAt(z.c, z.rs, p) && PlacedAt(z.c, z.rs, e);
  }

  // A block that starts in the newest region, and was not got by extending it, ends there.
  lemma NotPast(rs: seq<Region>, us: seq<Region>, z: St, g: int, nm: bool, p: int, n: int)
    requires |rs| <= |us| && us[..|rs|] == rs && Shrunk(us, z.rs)
    requires rs != [] ==> forall i {:trigger us[i]} :: 0 <= i < |us| && i != |rs| - 1 ==> RegionsApart(us[i], rs[|rs| - 1])
    requires Good(z, g, nm) && p in z.c && z.c[p].tag == Live && z.c[p].size == n
    ensures FreshPast(rs, z.lo, z.hi, p, n)
  {
    hide Good;
    LiveEndsInside(z, g, nm, p);
    var h := z.c[p].home;
    assert us[h].base <= p && p + n < us[h].end;
    assert rs != [] && h == |rs| - 1 ==> us[h] == rs[h];
  }

  lemma LastApart(x: St, g: int, nm: bool, r: Region)
    requires Good(x, g, nm) && x.rs != [] && FreeOf(x.rs, r)
    ensures var us := x.rs + [r]; forall i {:trigger us[i]} :: 0 <= i < |us| && i != |x.rs| - 1 ==> RegionsApart(us[i], x.rs[|x.rs| - 1])
    ensures forall i {:trigger x.rs[i]} :: 0 <= i < |x.rs| && i != |x.rs| - 1 ==> RegionsApart(x.rs[i], x.rs[|x.rs| - 1])
  {
    assert forall i :: 0 <= i < |x.rs| - 1 ==> RegionsApart(x.rs[i], x.rs[|x.rs| - 1]);
  }
}
