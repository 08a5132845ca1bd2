/** The two ways of free below the consolidation threshold, with their integrity checks. */
module IntFree {
  import opened Memory
  import opened Sizes
  import opened BinLists
  import opened Chunks
  import opened Frames
  import opened FastLists
  import opened Layout
  import opened State
  import opened Arenas
  import opened Release
  import opened Freeing
  import opened LiveView

  const CONSOLIDATION_THRESHOLD := 65536

  lemma SystemCovers(rs: seq<Region>, i: int)
    requires 0 <= i < |rs| && forall j {:trigger rs[j]} :: 0 <= j < |rs| ==> rs[j].base <= rs[j].end
    ensures rs[i].end - rs[i].base <= SystemSize(rs)
    decreases |rs|
  {
    SystemNat(rs[..|rs| - 1]);
    if i < |rs| - 1 { SystemCovers(rs[..|rs| - 1], i); }
  }

  lemma SystemNat(rs: seq<Region>)
    requires forall j {:trigger rs[j]} :: 0 <= j < |rs| ==> rs[j].base <= rs[j].end
    ensures 0 <= SystemSize(rs)
  {
    if |rs| > 0 { SystemNat(rs[..|rs| - 1]); }
  }

  // The tests of free and realloc on the chunk after a live one never fire.
  lemma NextPassesTests(x: St, g: int, nm: bool, p: int)
    requires Good(x, g, nm) && p in x.c && x.c[p].tag == Live
    ensures var n := p + x.c[p].size;
      && p in x.hi && x.hi[p].Size? && x.hi[p].n == x.c[p].size
      && n in x.hi && x.hi[n].Size? && !TooSmall(x.hi[n]) && 0 < x.hi[n].n < SystemSize(x.rs) && x.hi[n].p
      && n in x.c && (n == x.top <==> x.c[n].tag == Top) && x.c[p].size < SystemSize(x.rs) && p != x.top && x.top in x.hi && x.hi[x.top].Size?
      && 0 <= x.c[p].home < |x.rs| && p + x.c[p].size <= x.rs[x.c[p].home].end
  {
    hide Linked, Indexed, FastLinked, FastIndexed;
    NextIs(x, g, nm, p);
    LiveHasRoom(x, g, nm, p);
    var n := p + x.c[p].size;
    assert ChunkAt(x.c, n) && PlacedAt(x.c, x.rs, n) && PlacedAt(x.c, x.rs, p);
    SystemCovers(x.rs, x.c[p].home);
    assert CornerAt(x.c, x.rs, x.top, |x.rs| - 1);
    assert HeadAt(x.c, x.lo, x.hi, nm, x.top);
  }

  method PushFastbin(a: Arena, p: int, idx: int)
    requires Good(a.Now(), a.g, a.nonMain) && p in a.chunks && a.chunks[p].tag == Live
    requires idx == FastbinIndex(Bytes(a.g, a.chunks[p].size)) && 0 <= idx < |a.fastbins|
    modifies a`lo, a`fastbins, a`chunks, a`fast
    ensures Good(a.Now(), a.g, a.nonMain)
    ensures a.chunks == Retag(old(a.chunks), p, Fast) && DataKept(old(a.chunks), old(a.lo), old(a.hi), a.lo, a.hi, p)
    ensures a.fastbins == old(a.fastbins)[idx := p]
    ensures p in a.fast && a.fast[p].cls == idx && a.fast == old(a.fast)[p := a.fast[p]]
  {
    hide Good, DataKept;
    ghost var x := a.Now();
    FastRoom(x, a.g, a.nonMain, idx);
    PushGood(x, a.g, a.nonMain, p, idx);
    ghost var y := Pushed(x, p, idx);
    a.lo := a.lo[p + 1 := a.fastbins[idx]];
    a.fastbins := a.fastbins[idx := p];
    a.chunks := y.c;
    a.fast := y.f;
  }

  method FreeFast(a: Arena, p: int) returns (ok: bool)
    requires a.Valid() && p in a.chunks && a.chunks[p].tag == Live && Bytes(a.g, a.chunks[p].size) <= a.maxFast
    modifies a`lo, a`fastbins, a`haveFast, a`chunks, a`fast
    ensures ok && a.Valid()
    ensures a.chunks == Retag(old(a.chunks), p, Fast) && DataKept(old(a.chunks), old(a.lo), old(a.hi), a.lo, a.hi, p)
    ensures p in a.fastbins
  {
    hide Good, DataKept, Retag;
    ghost var x := a.Now();
    NextPassesTests(x, a.g, a.nonMain, p);
    LiveHasRoom(x, a.g, a.nonMain, p);
    var size := a.hi[p].n;
    if TooSmall(a.hi[p + size]) || a.hi[p + size].n >= a.systemMem { return false; }
    a.haveFast := true;
    var idx := FastbinIndex(Bytes(a.g, size));
    ClassInRange(x, a.g, a.nonMain, p, a.maxFast);
    FastRoom(x, a.g, a.nonMain, idx);
    if a.fastbins[idx] == p { return false; }
    PushFastbin(a, p, idx);
    assert a.fastbins[idx] == p;
    return true;
  }

  lemma ClassInRange(x: St, g: int, nm: bool, p: int, m: int)
    requires Good(x, g, nm) && p in x.c && x.c[p].tag == Live && Bytes(g, x.c[p].size) <= m
    ensures 0 <= FastbinIndex(Bytes(g, x.c[p].size)) <= FastbinIndex(m)
    ensures p !in x.f && p > 0
  {
    hide Linked, Indexed, FastLinked, Tiled, Tagged, Placed;
    LiveHasRoom(x, g, nm, p);
    RoomForLinks(x, g, nm, p);
    assert p in x.f ==> FastFits(x.f, x.c, g, p);
  }

  lemma FastRoom(x: St, g: int, nm: bool, i: int)
    requires Good(x, g, nm) && 0 <= i < |x.heads|
    ensures FastHead(x.f, x.heads, i) && (x.heads[i] != 0 ==> x.heads[i] in x.f)
  {
  }

  method FreeNormal(a: Arena, p: int) returns (size: int, ok: bool)
    requires a.Valid() && p in a.chunks && a.chunks[p].tag == Live
    modifies a`lo, a`hi, a`slots, a`chunks, a`top
    ensures ok && a.Valid() && size == HighEdge(old(a.chunks), p) - LowEdge(old(a.chunks), p)
    ensures a.chunks == Released(old(a.chunks), p)
    ensures OnlyUnsortedAdded(old(a.slots), a.slots)
    ensures LiveOf(a.chunks) == LiveOf(old(a.chunks)) - {p} && DataKept(old(a.chunks), old(a.lo), old(a.hi), a.lo, a.hi, p)
  {
    hide Good, DataKept, LowEdge, HighEdge, Released, BodiesKept, MapOk, HeapsOk, KnownTo;
    ghost var x := a.Now();
    NextPassesTests(x, a.g, a.nonMain, p);
    size := a.hi[p].n;
    var next := p + size;
    if p == a.top { return size, false; }
    var topEnd := a.top + a.hi[a.top].n;
    if a.contiguous && next >= topEnd { return size, false; }
    if !a.hi[next].p { return size, false; }
    if TooSmall(a.hi[next]) || a.hi[next].n >= a.systemMem { return size, false; }
    size, ok := Coalesce(a, a.fastbins, p);
    MapStaysOk(x.s, a.slots, a.binmap);
    ReleasedLive(x, a.g, a.nonMain, p);
    ReleasedData(x, a.g, a.nonMain, a.lo, a.hi, p);
  }
}
