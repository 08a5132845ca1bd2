/** malloc_consolidate: every fastbin chunk goes back to the heap. */
module Consolidating {
  import opened Memory
  import opened Sizes
  import opened Chunks
  import opened Frames
  import opened FastLists
  import opened State
  import opened Arenas
  import opened Release
  import opened Freeing
  import opened LiveView

  // From c0 to c1 the client's chunks and their contents are the same.
  ghost predicate Unnoticed(x: St, y: St) {
    && LiveOf(y.c) == LiveOf(x.c)
    && DataKept(x.c, x.lo, x.hi, y.lo, y.hi, 0)
  }

  lemma DataTrans(c0: map<int, Chunk>, c1: map<int, Chunk>, lo0: map<int, int>, hi0: map<int, Word>,
                  lo1: map<int, int>, hi1: map<int, Word>, lo2: map<int, int>, hi2: map<int, Word>, p: int)
    requires DataKept(c0, lo0, hi0, lo1, hi1, p) && DataKept(c1, lo1, hi1, lo2, hi2, p)
    requires LiveOf(c0) - {p} == LiveOf(c1) - {p}
    ensures DataKept(c0, lo0, hi0, lo2, hi2, p)
  {
    forall x | x in c0 && c0[x].tag == Live && x != p
      ensures SameBody(lo0, hi0, lo2, hi2, x, c0[x].size)
    {
      assert x in LiveOf(c0) - {p};
      assert x in LiveOf(c1) - {p} && (LiveOf(c1) - {p})[x] == c0[x].size;
      assert x in c1 && c1[x].tag == Live && c1[x].size == c0[x].size;
      BodyTrans(lo0, hi0, lo1, hi1, lo2, hi2, x, c0[x].size);
    }
  }

  lemma BodyTrans(lo0: map<int, int>, hi0: map<int, Word>, lo1: map<int, int>, hi1: map<int, Word>, lo2: map<int, int>, hi2: map<int, Word>, x: int, n: int)
    requires SameBody(lo0, hi0, lo1, hi1, x, n) && SameBody(lo1, hi1, lo2, hi2, x, n)
    ensures SameBody(lo0, hi0, lo2, hi2, x, n)
  {
    assert forall k :: x < k <= x + n && k in lo0 ==> k in lo1;
    assert forall k :: x < k < x + n && k in hi0 ==> k in hi1;
  }

  method Consolidate(a: Arena) returns (ok: bool)
    requires a.Valid()
    modifies a`lo, a`hi, a`slots, a`chunks, a`top, a`fast, a`fastbins, a`haveFast
    ensures ok
    ensures a.Valid() && !a.haveFast
    ensures Unnoticed(old(a.Now()), a.Now())
    ensures OnlyUnsortedAdded(old(a.slots), a.slots)
  {
    hide Good, Unnoticed, NFastbins, FastbinIndex, Bytes, MapOk, HeapsOk, PageEnds, KnownTo;
    ghost var x0 := a.Now();
    SelfKept(x0);
    ok := true;
    a.haveFast := false;
    var i := 0;
    var last := FastbinIndex(a.maxFast);
    while i <= last
      invariant 0 <= i <= last + 1 && last == FastbinIndex(a.maxFast) < |a.fastbins| == NFastbins(a.g) && ok
      invariant Good(a.Now(), a.g, a.nonMain) && a.regions == x0.rs
      invariant forall j :: 0 <= j < i ==> a.fastbins[j] == 0
      invariant forall p {:trigger p in a.fast} :: p in a.fast ==> a.fast[p].cls <= last
      invariant Unnoticed(x0, a.Now()) && !a.haveFast && OnlyUnsortedAdded(x0.s, a.slots)
      invariant TopKnown(a.top, a.hi, a.regions)
    {
      if a.fastbins[i] != 0 {
        var ok1 := DrainBin(a, x0, i);
        ok := ok && ok1;
      }
      i := i + 1;
    }
    NoneLeft(a.Now(), a.g, a.nonMain, last);
    MapStaysOk(x0.s, a.slots, a.binmap);
  }

  // One fastbin: detach its list, then free its chunks one by one.
  method DrainBin(a: Arena, ghost x0: St, i: int) returns (ok: bool)
    requires 0 <= i < |a.fastbins| && a.fastbins[i] != 0
    requires Good(a.Now(), a.g, a.nonMain) && Unnoticed(x0, a.Now()) && OnlyUnsortedAdded(x0.s, a.slots)
    modifies a`lo, a`hi, a`slots, a`chunks, a`top, a`fast, a`fastbins
    ensures ok && a.fastbins == old(a.fastbins)[i := 0] && a.fast.Keys <= old(a.fast).Keys && a.regions != []
    ensures forall q {:trigger q in a.fast} :: q in a.fast ==> a.fast[q] == old(a.fast)[q]
    ensures Good(a.Now(), a.g, a.nonMain) && Unnoticed(x0, a.Now()) && OnlyUnsortedAdded(x0.s, a.slots)
  {
    hide Good, Unnoticed;
    var p := a.fastbins[i];
    assert a.fastbins[i := 0][i := p] == a.fastbins;
    a.fastbins := a.fastbins[i := 0];
    ok := true;
    while p != 0
      invariant ok && a.fastbins == old(a.fastbins)[i := 0] && a.fast.Keys <= old(a.fast).Keys
      invariant forall q {:trigger q in a.fast} :: q in a.fast ==> a.fast[q] == old(a.fast)[q]
      invariant p == old(a.fastbins)[i] || a.regions != []
      invariant Good(a.View(a.fastbins[i := p]), a.g, a.nonMain)
      invariant Unnoticed(x0, a.View(a.fastbins[i := p])) && OnlyUnsortedAdded(x0.s, a.slots)
      decreases |a.fast|
    {
      var nextp, ok1 := ConsolidateOne(a, x0, i, p);
      ok := ok && ok1;
      p := nextp;
    }
    assert a.fastbins[i := 0] == a.fastbins;
  }

  lemma SelfKept(x: St)
    ensures Unnoticed(x, x)
  {
  }

  lemma NoneLeft(x: St, g: int, nm: bool, last: int)
    requires Good(x, g, nm) && -1 <= last < |x.heads|
    requires forall j :: 0 <= j <= last ==> x.heads[j] == 0
    requires forall p {:trigger p in x.f} :: p in x.f ==> x.f[p].cls <= last
    ensures x.f == map[]
  {
    Depths(x.f, x.lo, x.heads);
    EmptyClasses(x.f, x.lo, x.heads, last);
    assert forall p :: p in x.f ==> Upper(x.f, x.f[p].cls, -1);
    assert forall p :: p !in x.f;
    assert x.f.Keys == {};
  }

  lemma Depths(f: map<int, FastSlot>, lo: map<int, int>, heads: seq<int>)
    requires FastLinked(f, lo, heads)
    ensures forall p {:trigger p in f} :: p in f ==> f[p].depth >= 0 && 0 <= f[p].cls < |heads|
  {
    assert forall p :: p in f ==> FastAt(f, lo, p);
  }

  lemma EmptyClasses(f: map<int, FastSlot>, lo: map<int, int>, heads: seq<int>, last: int)
    requires FastLinked(f, lo, heads) && -1 <= last < |heads|
    requires forall j :: 0 <= j <= last ==> heads[j] == 0
    ensures forall j {:trigger Upper(f, j, -1)} :: 0 <= j <= last ==> Upper(f, j, -1)
  {
    hide Upper;
    forall j | 0 <= j <= last
      ensures Upper(f, j, -1)
    {
      assert FastHead(f, heads, j);
    }
  }

  method ConsolidateOne(a: Arena, ghost x0: St, i: int, p: int) returns (nextp: int, ok: bool)
    requires 0 <= i < |a.fastbins| && p != 0 && a.fastbins[i] == 0
    requires Good(a.View(a.fastbins[i := p]), a.g, a.nonMain)
    requires Unnoticed(x0, a.View(a.fastbins[i := p])) && OnlyUnsortedAdded(x0.s, a.slots)
    modifies a`lo, a`hi, a`slots, a`chunks, a`top, a`fast
    ensures ok && p in old(a.fast) && a.fast == old(a.fast) - {p} && a.regions != []
    ensures Good(a.View(a.fastbins[i := nextp]), a.g, a.nonMain)
    ensures Unnoticed(x0, a.View(a.fastbins[i := nextp])) && OnlyUnsortedAdded(x0.s, a.slots)
  {
    hide Good, Unnoticed, Released, LowEdge, HighEdge, BodiesKept;
    ghost var hs := a.fastbins[i := p];
    ghost var x := a.View(hs);
    PopGood(x, a.g, a.nonMain, i);
    nextp := a.lo[p + 1];
    ChunksInRegions(x, a.g, a.nonMain, p);
    ghost var y := Popped(x, i);
    assert y.heads == a.fastbins[i := nextp];
    a.chunks := y.c;
    a.fast := y.f;
    var sz, ok1 := Coalesce(a, a.fastbins[i := nextp], p);
    ok := ok1;
    ConsolidatedOne(x0, x, y, a.View(a.fastbins[i := nextp]), a.g, a.nonMain, p);
  }

  lemma ConsolidatedOne(x0: St, x: St, y: St, z: St, g: int, nm: bool, p: int)
    requires Good(y, g, nm) && Unnoticed(x0, x) && p in x.c && x.c[p].tag == Fast
    requires y.lo == x.lo && y.hi == x.hi && y.c == Retag(x.c, p, Live)
    requires z.c == Released(y.c, p) && BodiesKept(y.c, y.lo, y.hi, z.lo, z.hi, LowEdge(y.c, p), HighEdge(y.c, p))
    ensures Unnoticed(x0, z)
  {
    hide Good, Released, LowEdge, HighEdge, BodiesKept, DataKept;
    ReleasedLive(y, g, nm, p);
    ReleasedData(y, g, nm, z.lo, z.hi, p);
    assert LiveOf(y.c) - {p} == LiveOf(x.c);
    DataWeaken(y.c, x.c, y.lo, y.hi, z.lo, z.hi, p);
    DataTrans(x0.c, x.c, x0.lo, x0.hi, x.lo, x.hi, z.lo, z.hi, 0);
  }

  lemma DataWeaken(c: map<int, Chunk>, d: map<int, Chunk>, lo: map<int, int>, hi: map<int, Word>, lo': map<int, int>, hi': map<int, Word>, p: int)
    requires DataKept(c, lo, hi, lo', hi', p) && LiveOf(d) == LiveOf(c) - {p}
    ensures DataKept(d, lo, hi, lo', hi', 0)
  {
    forall x | x in d && d[x].tag == Live && x != 0
      ensures SameBody(lo, hi, lo', hi', x, d[x].size)
    {
      assert x in LiveOf(d) && LiveOf(d)[x] == d[x].size;
      assert x in LiveOf(c) && x != p && LiveOf(c)[x] == d[x].size;
    }
  }
}
