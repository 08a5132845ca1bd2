/** Realloc: all its paths. */
module ReallocAll {
  import opened Memory
  import opened Sizes
  import opened BinLists
  import opened Chunks
  import opened Frames
  import opened FastLists
  import opened Layout
  import opened State
  import opened Arenas
  import opened Release
  import opened Freeing
  import opened LiveView
  import opened Consolidating
  import opened IntFree
  import opened FreeAll
  import opened Resizing
  import opened Taking
  import opened Searching
  import opened SystemAllocation
  import opened IntMalloc
  import opened SystemCalls
  import opened LiveCuts
  import opened Reallocating
  import opened ClientWrites

  // ---- expand forward into top

  method ExtendIntoTop(a: Arena, p: int, oldsize: int, newsize: int, n: int)
    requires a.Valid() && p in a.chunks && a.chunks[p].tag == Live && oldsize == a.chunks[p].size < n
    requires p + oldsize == a.top && a.top in a.chunks && newsize == oldsize + a.chunks[a.top].size && n + 2 <= newsize
    modifies a`hi, a`top, a`chunks
    ensures a.Valid() && Kept(old(a.Now()), a.Now(), p, n, oldsize)
  {
    hide Good, Kept, MapOk, HeapsOk, PageEnds, SystemSize, FastbinIndex, NFastbins, Bytes, WithinLimit, UnitsOk, KnownTo,
      TookFromTop, LiveOf, DataKept, SameBody;
    ghost var x := a.Now();
    LiveIs(x, a.g, a.nonMain, p);
    ChunksInRegions(x, a.g, a.nonMain, p);
    MoveTop(a, p, newsize, n);
    TakeFromTop(x, a.Now(), a.g, a.nonMain, p, n);
    TopKept(x, a.Now(), p, n);
  }

  method MoveTop(a: Arena, p: int, newsize: int, n: int)
    requires p in a.chunks && a.chunks[p].tag == Live && p in a.hi && a.hi[p].Size? && (a.hi[p].a ==> a.nonMain) && a.regions != []
    requires p + a.chunks[p].size == a.top && a.top in a.chunks && newsize == a.chunks[p].size + a.chunks[a.top].size && n + 2 <= newsize
    requires a.chunks[p].size < n
    modifies a`hi, a`top, a`chunks
    ensures TookFromTop(old(a.Now()), a.Now(), a.nonMain, p, n)
  {
    ghost var c := (a.chunks - {a.top})[p := Chunk(n, Live, a.chunks[p].home)][p + n := Chunk(newsize - n, Top, a.chunks[p].home)];
    a.hi := a.hi[p := a.hi[p].(n := n, a := a.hi[p].a || a.nonMain)];
    a.top := p + n;
    a.hi := a.hi[a.top := Size(newsize - n, true, false)];
    a.chunks := c;
  }

  lemma TopKept(x: St, y: St, v: int, k: int)
    requires v in x.c && x.c[v].tag == Live && LiveOf(y.c) == LiveOf(x.c)[v := k]
    requires DataKept(x.c, x.lo, x.hi, y.lo, y.hi, v) && SameBody(x.lo, x.hi, y.lo, y.hi, v, x.c[v].size)
    ensures Kept(x, y, v, k, x.c[v].size)
  {
  }

  // ---- expand forward into a free next chunk

  method UnlinkNext(a: Arena, p: int, oldsize: int, newsize: int) returns (ok: bool, ghost mid: St)
    requires a.Valid() && p in a.chunks && a.chunks[p].tag == Live && oldsize == a.chunks[p].size
    requires p + oldsize in a.chunks && a.chunks[p + oldsize].tag == Binned && newsize == oldsize + a.chunks[p + oldsize].size
    modifies a`lo, a`hi, a`slots, a`chunks
    ensures ok && a.Counters() && Good(mid, a.g, a.nonMain) && Pending(a.Now(), mid, a.nonMain, p, newsize)
    ensures Kept(old(a.Now()), mid, p, newsize, oldsize)
    ensures p in mid.c && mid.c[p].tag == Live && mid.c[p].size == newsize
  {
    hide Good, Kept, MapOk, HeapsOk, PageEnds, SystemSize, FastbinIndex, NFastbins, Bytes, WithinLimit, UnitsOk,
      Pending, Absorbed, WroteLo, WroteHi, Linked, KnownTo;
    ghost var x := a.Now();
    var next := p + oldsize;
    GoodParts(x, a.g, a.nonMain);
    OnlyBinnedListed(x, a.g, a.nonMain, next);
    ok := a.Unlink(next);
    AbsorbReads(x, a.Now(), a.g, a.nonMain, p, next);
    mid := AbsorbedState(x, a.Now(), a.nonMain, p, next, newsize);
    AbsorbPending(x, a.Now(), mid, a.g, a.nonMain, p, next, newsize);
    AbsorbNext(x, mid, a.g, a.nonMain, p);
    TopKept(x, mid, p, newsize);
    a.chunks := mid.c;
    MapStaysOk(x.s, a.slots, a.binmap);
    RegionsThere(x, a.g, a.nonMain, p, a.top, a.hi);
  }

  method ExtendIntoNext(a: Arena, p: int, oldsize: int, newsize: int, n: int, remapped: bool) returns (k: int, ok: bool)
    requires a.Valid() && p in a.chunks && a.chunks[p].tag == Live && oldsize == a.chunks[p].size < n <= newsize && n >= 2
    requires p + oldsize in a.chunks && a.chunks[p + oldsize].tag == Binned && newsize == oldsize + a.chunks[p + oldsize].size
    modifies a
    ensures ok && a.Valid() && Kept(old(a.Now()), a.Now(), p, k, oldsize) && n <= k < n + 2
  {
    hide Good, Kept, MapOk, HeapsOk, PageEnds, SystemSize, FastbinIndex, NFastbins, Bytes, WithinLimit, UnitsOk,
      Pending, KnownTo;
    ghost var x := a.Now();
    ghost var mid;
    ok, mid := UnlinkNext(a, p, oldsize, newsize);
    var ok1;
    k, ok1 := TrimTo(a, mid, p, newsize, n, remapped);
    ok := ok && ok1;
    KeptShorter(mid, a.Now(), p, k, k, oldsize);
    KeptTrans(x, mid, a.Now(), p, newsize, k, oldsize);
  }

  lemma RegionsThere(x: St, g: int, nm: bool, p: int, top: int, hi: map<int, Word>)
    requires Good(x, g, nm) && p in x.c
    ensures TopKnown(top, hi, x.rs)
  {
    ChunksInRegions(x, g, nm, p);
  }

  // next, after p, is off its list.
  ghost predicate NextOff(x: St, y: St, g: int, nm: bool, p: int, next: int) {
    && Good(x, g, nm) && p in x.c && x.c[p].tag == Live && next == p + x.c[p].size && next in x.c && x.c[next].tag == Binned
    && y == x.(lo := y.lo, hi := y.hi, s := x.s - {next})
    && Linked(y.s, y.lo, y.hi) && WroteLo(x.s, {}, x.lo, y.lo) && WroteHi(x.s, {}, x.hi, y.hi)
  }

  lemma AbsorbReads(x: St, y: St, g: int, nm: bool, p: int, next: int)
    requires NextOff(x, y, g, nm, p, next)
    ensures p in x.hi && x.hi[p].Size? && x.hi[p].a == nm && p in y.hi && y.hi[p] == x.hi[p]
    ensures var e := next + x.c[next].size; e in x.c && e in x.hi && x.hi[e].Size? && e in y.hi && y.hi[e] == x.hi[e]
  {
    hide Linked, FastLinked, FastIndexed, RegionsOk, Placed, Tagged, Tiled, Indexed, WroteLo, WroteHi, Base;
    LiveIs(x, g, nm, p);
    BinnedIs(x, g, nm, next);
    HeadsAfterLinks(x, g, nm, y.lo, y.hi, p);
    HeadsAfterLinks(x, g, nm, y.lo, y.hi, next + x.c[next].size);
  }

  lemma AbsorbPending(x: St, y: St, mid: St, g: int, nm: bool, p: int, next: int, size: int)
    requires NextOff(x, y, g, nm, p, next) && size == x.c[p].size + x.c[next].size
    requires p in x.hi && x.hi[p].Size? && x.hi[p].a == nm && p in y.hi && y.hi[p] == x.hi[p]
    requires var e := p + size; e in x.c && e in x.hi && x.hi[e].Size? && e in y.hi && y.hi[e] == x.hi[e]
    requires mid == AbsorbedState(x, y, nm, p, next, size)
    ensures Absorbed(x, mid, nm, p) && Pending(y.(c := mid.c), mid, nm, p, size)
  {
    hide Linked, FastLinked, FastIndexed, RegionsOk, Placed, Tagged, Indexed;
    BinnedIs(x, g, nm, next);
    assert ChunkAt(x.c, p);
    var hi1 := y.hi[p := Size(size, y.hi[p].p, nm)];
    LinksAfterHead(x, g, mid.s, next, p, y.lo, y.hi, y.lo, hi1);
    LinksAfterHead(x, g, mid.s, next, p + size, y.lo, hi1, y.lo, mid.hi);
  }

  ghost function AbsorbedState(x: St, y: St, nm: bool, p: int, next: int, size: int): St
    requires p in x.c && p in y.hi && y.hi[p].Size? && p + size in y.hi && y.hi[p + size].Size?
  {
    y.(c := (x.c - {next})[p := Chunk(size, Live, x.c[p].home)],
       hi := y.hi[p := Size(size, y.hi[p].p, nm)][p + size := y.hi[p + size].(p := true)])
  }

  // ---- allocate, copy, free

  // The words of the granules before i have been moved.
  ghost predicate Copied(lo0: map<int, int>, hi0: map<int, Word>, s: int, lo: map<int, int>, hi: map<int, Word>, d: int, i: int, m: int) {
    && (forall j {:trigger LoMoved(lo0, s, lo, d, j)} :: 0 < j < i ==> LoMoved(lo0, s, lo, d, j))
    && (forall j {:trigger HiMoved(hi0, s, hi, d, j)} :: 0 < j < i && j < m ==> HiMoved(hi0, s, hi, d, j))
  }

  ghost predicate OnlyWrote(lo0: map<int, int>, hi0: map<int, Word>, lo: map<int, int>, hi: map<int, Word>, d: int, i: int, m: int) {
    && (forall k {:trigger lo[k]} {:trigger k in lo} :: k in lo0 ==> k in lo && (!(d < k < d + i) ==> lo[k] == lo0[k]))
    && (forall k {:trigger hi[k]} {:trigger k in hi} :: k in hi0 ==> k in hi && (!(d < k < d + i && k < d + m) ==> hi[k] == hi0[k]))
    && (forall k {:trigger k in lo0} :: k in lo ==> k in lo0)
    && (forall k {:trigger k in hi0} :: k in hi ==> k in hi0)
  }

  method CopyWords(a: Arena, s: int, d: int, m: int)
    requires (d + m <= s || s + m <= d) && m >= 1
    requires Backed(a.lo, a.hi, s, m) && Backed(a.lo, a.hi, d, m)
    modifies a`lo, a`hi
    ensures Copied(old(a.lo), old(a.hi), s, a.lo, a.hi, d, m + 1, m)
    ensures OnlyWrote(old(a.lo), old(a.hi), a.lo, a.hi, d, m + 1, m)
  {
    var i := 1;
    while i <= m
      invariant 1 <= i <= m + 1
      invariant Copied(old(a.lo), old(a.hi), s, a.lo, a.hi, d, i, m)
      invariant OnlyWrote(old(a.lo), old(a.hi), a.lo, a.hi, d, i, m)
    {
      assert s + i in old(a.lo) && s + i in a.lo && s + i in a.hi && d + i in old(a.lo) && d + i in old(a.hi);
      ghost var lo1, hi1 := a.lo, a.hi;
      a.lo := a.lo[d + i := a.lo[s + i]];
      if i < m { a.hi := a.hi[d + i := a.hi[s + i]]; }
      CopiedMore(old(a.lo), old(a.hi), s, lo1, hi1, a.lo, a.hi, d, i, m);
      i := i + 1;
    }
  }

  lemma CopiedMore(lo0: map<int, int>, hi0: map<int, Word>, s: int, lo: map<int, int>, hi: map<int, Word>, lo': map<int, int>, hi': map<int, Word>,
                   d: int, i: int, m: int)
    requires Copied(lo0, hi0, s, lo, hi, d, i, m) && OnlyWrote(lo0, hi0, lo, hi, d, i, m) && 1 <= i <= m && (d + m <= s || s + m <= d)
    requires s + i in lo0 && s + i in hi0 && s + i in lo && s + i in hi && lo' == lo[d + i := lo[s + i]]
    requires hi' == if i < m then hi[d + i := hi[s + i]] else hi
    ensures Copied(lo0, hi0, s, lo', hi', d, i + 1, m)
  {
    assert lo[s + i] == lo0[s + i] && hi[s + i] == hi0[s + i];
    forall j | 0 < j < i + 1
      ensures LoMoved(lo0, s, lo', d, j)
    {
      assert j < i ==> LoMoved(lo0, s, lo, d, j);
    }
    forall j | 0 < j < i + 1 && j < m
      ensures HiMoved(hi0, s, hi', d, j)
    {
      assert j < i ==> HiMoved(hi0, s, hi, d, j);
    }
  }

  lemma JoinAfter(x: St, y: St, mid: St, g: int, nm: bool, p: int, newp: int, n: int)
    requires Good(x, g, nm) && Good(y, g, nm) && p in x.c && x.c[p].tag == Live && HandedOut(x, y, newp, n) && newp == p + x.c[p].size
    requires p in y.hi && y.hi[p].Size? && newp in y.c && p in y.c
    requires mid == y.(c := (y.c - {newp})[p := Chunk(x.c[p].size + n, Live, y.c[p].home)], hi := y.hi[p := Size(x.c[p].size + n, y.hi[p].p, nm)])
    requires y.c[p].tag == Live && y.c[p].size == x.c[p].size && y.c[newp].tag == Live && y.c[newp].size == n
    ensures Good(mid, g, nm) && Kept(x, mid, p, x.c[p].size + n, x.c[p].size)
    ensures mid.c[p].tag == Live && mid.c[p].size == x.c[p].size + n
  {
    hide Good, SameBody;
    JoinLive(y, mid, g, nm, p);
    LiveIs(x, g, nm, p);
    assert LiveOf(mid.c) == LiveOf(x.c)[p := x.c[p].size + n];
    JoinBody(y, mid, p, x.c[p].size);
    BodyTrans(x.lo, x.hi, y.lo, y.hi, mid.lo, mid.hi, p, x.c[p].size);
    forall q | q in x.c && x.c[q].tag == Live && q != p
      ensures SameBody(x.lo, x.hi, mid.lo, mid.hi, q, x.c[q].size)
    {
      JoinOther(x, y, mid, g, nm, p, newp, n, q);
    }
  }

  lemma JoinBody(y: St, mid: St, p: int, m: int)
    requires mid.lo == y.lo && p in mid.hi && mid.hi == y.hi[p := mid.hi[p]]
    ensures SameBody(y.lo, y.hi, mid.lo, mid.hi, p, m)
  {
  }

  lemma JoinOther(x: St, y: St, mid: St, g: int, nm: bool, p: int, newp: int, n: int, q: int)
    requires Good(x, g, nm) && HandedOut(x, y, newp, n) && q in x.c && x.c[q].tag == Live && q != p
    requires forall r {:trigger SameBody(y.lo, y.hi, mid.lo, mid.hi, r, y.c[r].size)} ::
        r in y.c && y.c[r].tag == Live && r != p && r != newp ==> SameBody(y.lo, y.hi, mid.lo, mid.hi, r, y.c[r].size)
    ensures SameBody(x.lo, x.hi, mid.lo, mid.hi, q, x.c[q].size)
  {
    hide Good, SameBody;
    LiveIs(x, g, nm, q);
    assert q in LiveOf(x.c) && q != newp;
    assert q in LiveOf(y.c) && LiveOf(y.c)[q] == x.c[q].size;
    assert q in y.c && y.c[q].tag == Live && y.c[q].size == x.c[q].size;
    assert SameBody(y.lo, y.hi, mid.lo, mid.hi, q, y.c[q].size);
    assert SameBody(x.lo, x.hi, y.lo, y.hi, q, x.c[q].size);
    BodyTrans(x.lo, x.hi, y.lo, y.hi, mid.lo, mid.hi, q, x.c[q].size);
  }

  // What holds of the old and the new chunk once malloc has returned.
  lemma AfterMalloc(x: St, y: St, g: int, nm: bool, p: int, newp: int, n: int)
    requires Good(x, g, nm) && Good(y, g, nm) && p in x.c && x.c[p].tag == Live && HandedOut(x, y, newp, n)
    ensures p in y.c && y.c[p].tag == Live && y.c[p].size == x.c[p].size && newp in y.c && y.c[newp].tag == Live && y.c[newp].size == n
    ensures newp > 0 && p != newp && SameBody(x.lo, x.hi, y.lo, y.hi, p, x.c[p].size)
    ensures p + x.c[p].size <= newp || newp + n <= p
    ensures p in y.hi && y.hi[p].Size? && y.hi[p].a == nm && y.hi[p].n == x.c[p].size && newp + n in y.hi && y.hi[newp + n].Size? && y.hi[newp + n].p
    ensures y.rs != [] && x.c[p].size >= 2
  {
    hide Good, SameBody;
    LiveIs(x, g, nm, p);
    HandedNonZero(y, g, nm, x, newp, n);
    assert p in LiveOf(x.c) && p in LiveOf(y.c) && LiveOf(y.c)[p] == x.c[p].size;
    assert p in y.c && y.c[p].tag == Live && y.c[p].size == x.c[p].size;
    LiveIs(y, g, nm, p);
    LiveIs(y, g, nm, newp);
    TiledApart(y.c, p, newp) by { GoodTiled(y, g, nm); }
    TiledApart(y.c, newp, p) by { GoodTiled(y, g, nm); }
    ChunksInRegions(y, g, nm, p);
  }

  lemma GoodTiled(x: St, g: int, nm: bool)
    requires Good(x, g, nm)
    ensures Tiled(x.c)
  {
  }

  // The new block follows the old one: nothing has to be copied.
  method JoinNew(a: Arena, ghost x: St, p: int, oldsize: int, given: int, n: int, remapped: bool) returns (k: int, ok: bool)
    requires a.Valid() && Good(x, a.g, a.nonMain) && p in x.c && x.c[p].tag == Live && oldsize == x.c[p].size < n <= given && n >= 2
    requires HandedOut(x, a.Now(), p + oldsize, given)
    modifies a
    ensures ok && a.Valid() && Kept(x, a.Now(), p, k, oldsize) && n <= k < n + 2
  {
    hide Good, Kept, HandedOut, MapOk, HeapsOk, PageEnds, SystemSize, FastbinIndex, NFastbins, Bytes, WithinLimit,
      UnitsOk, KnownTo;
    ghost var y := a.Now();
    var newp := p + oldsize;
    AfterMalloc(x, y, a.g, a.nonMain, p, newp, given);
    var newsize := given + oldsize;
    ghost var mid := y.(c := (y.c - {newp})[p := Chunk(oldsize + given, Live, y.c[p].home)], hi := y.hi[p := Size(oldsize + given, y.hi[p].p, a.nonMain)]);
    JoinAfter(x, y, mid, a.g, a.nonMain, p, newp, given);
    a.chunks := mid.c;
    assert newp + given == p + newsize && a.hi[p + newsize] == a.hi[p + newsize].(p := true);
    assert mid.hi == a.hi[p := Size(newsize, a.hi[p].p, a.nonMain)][p + newsize := a.hi[p + newsize].(p := true)];
    k, ok := TrimTo(a, mid, p, newsize, n, remapped);
    KeptShorter(mid, a.Now(), p, k, k, oldsize);
    KeptTrans(x, mid, a.Now(), p, newsize, k, oldsize);
  }

  lemma Moved(x: St, y: St, w: St, z: St, g: int, nm: bool, p: int, q: int, n: int)
    requires Good(x, g, nm) && Good(y, g, nm) && Good(w, g, nm) && p in x.c && x.c[p].tag == Live && HandedOut(x, y, q, n) && q != p && x.c[p].size <= n
    requires SameBody(x.lo, x.hi, y.lo, y.hi, p, x.c[p].size)
    requires Copied(y.lo, y.hi, p, w.lo, w.hi, q, x.c[p].size + 1, x.c[p].size)
    requires LiveOf(w.c) == LiveOf(y.c) && DataKept(y.c, y.lo, y.hi, w.lo, w.hi, q) && GivenBack(w, z, p)
    requires q in w.c && w.c[q].tag == Live && w.c[q].size == n
    ensures Reallocated(x, z, p, q, n)
  {
    hide Good, SameBody, HandedOut, Copied, GivenBack, DataKept;
    MovedLive(x, y, w, z, p, q, n);
    MovedCarried(x, y, w, z, g, nm, p, q, n);
    assert DataKept(x.c, x.lo, x.hi, z.lo, z.hi, p) by {
      forall r | r in x.c && x.c[r].tag == Live && r != p
        ensures SameBody(x.lo, x.hi, z.lo, z.hi, r, x.c[r].size)
      {
        MovedOther(x, y, w, z, g, nm, p, q, n, r);
      }
      DataIs(x, z, p);
    }
  }

  lemma DataIs(x: St, z: St, p: int)
    requires forall r {:trigger SameBody(x.lo, x.hi, z.lo, z.hi, r, x.c[r].size)} ::
      r in x.c && x.c[r].tag == Live && r != p ==> SameBody(x.lo, x.hi, z.lo, z.hi, r, x.c[r].size)
    ensures DataKept(x.c, x.lo, x.hi, z.lo, z.hi, p)
  {
    hide SameBody;
  }

  lemma MovedLive(x: St, y: St, w: St, z: St, p: int, q: int, n: int)
    requires HandedOut(x, y, q, n) && LiveOf(w.c) == LiveOf(y.c) && GivenBack(w, z, p) && q != p
    ensures LiveOf(z.c) == (LiveOf(x.c) - {p})[q := n] && q !in LiveOf(x.c)
  {
    hide DataKept, LiveOf;
  }

  lemma MovedOther(x: St, y: St, w: St, z: St, g: int, nm: bool, p: int, q: int, n: int, r: int)
    requires Good(x, g, nm) && HandedOut(x, y, q, n) && LiveOf(w.c) == LiveOf(y.c) && DataKept(y.c, y.lo, y.hi, w.lo, w.hi, q) && GivenBack(w, z, p)
    requires r in x.c && x.c[r].tag == Live && r != p
    ensures SameBody(x.lo, x.hi, z.lo, z.hi, r, x.c[r].size)
  {
    hide Good, SameBody;
    LiveIs(x, g, nm, r);
    assert r in LiveOf(x.c) && r != q;
    assert r in LiveOf(y.c) && LiveOf(y.c)[r] == x.c[r].size && r in LiveOf(w.c) && LiveOf(w.c)[r] == x.c[r].size;
    assert r in y.c && y.c[r].tag == Live && y.c[r].size == x.c[r].size;
    assert r in w.c && w.c[r].tag == Live && w.c[r].size == x.c[r].size;
    BodyTrans(x.lo, x.hi, y.lo, y.hi, w.lo, w.hi, r, x.c[r].size);
    BodyTrans(x.lo, x.hi, w.lo, w.hi, z.lo, z.hi, r, x.c[r].size);
  }

  lemma MovedCarried(x: St, y: St, w: St, z: St, g: int, nm: bool, p: int, q: int, n: int)
    requires Good(x, g, nm) && p in x.c && x.c[p].tag == Live && q != p && x.c[p].size <= n
    requires SameBody(x.lo, x.hi, y.lo, y.hi, p, x.c[p].size)
    requires Copied(y.lo, y.hi, p, w.lo, w.hi, q, x.c[p].size + 1, x.c[p].size)
    requires q in w.c && w.c[q].tag == Live && w.c[q].size == n && GivenBack(w, z, p)
    ensures Carried(x.lo, x.hi, p, z.lo, z.hi, q, MinOf(x.c[p].size, n))
  {
    hide Good;
    var m := x.c[p].size;
    BodyMapped(x, g, nm, p);
    assert SameBody(w.lo, w.hi, z.lo, z.hi, q, n);
    forall j | 0 < j <= m
      ensures LoMoved(x.lo, p, z.lo, q, j)
    {
      assert LoMoved(y.lo, p, w.lo, q, j);
    }
    forall j | 0 < j < m
      ensures HiMoved(x.hi, p, z.hi, q, j)
    {
      assert HiMoved(y.hi, p, w.hi, q, j);
    }
  }

  method MoveNew(a: Arena, ghost x: St, p: int, newp: int, oldsize: int, given: int, remapped: bool) returns (ok: bool)
    requires a.Valid() && Good(x, a.g, a.nonMain) && p in x.c && x.c[p].tag == Live && oldsize == x.c[p].size <= given
    requires HandedOut(x, a.Now(), newp, given) && newp != p + oldsize
    modifies a
    ensures ok && a.Valid() && Reallocated(x, a.Now(), p, newp, given)
  {
    hide Good, HandedOut, MapOk, HeapsOk, PageEnds, SystemSize, FastbinIndex, NFastbins, Bytes, WithinLimit, UnitsOk,
      Copied, OnlyWrote, GivenBack, Reallocated, DataKept, LiveOf, KnownTo;
    ghost var y := a.Now();
    AfterMalloc(x, y, a.g, a.nonMain, p, newp, given);
    BodyMapped(y, a.g, a.nonMain, p);
    BodyMapped(y, a.g, a.nonMain, newp);
    BackedLess(a.lo, a.hi, newp, given, oldsize);
    CopyWords(a, p, newp, oldsize);
    ghost var w := a.Now();
    CopyIsWrite(y, w, newp, oldsize);
    WriteGood(y, w, a.g, a.nonMain, newp);
    ok := Free(a, p, remapped);
    Moved(x, y, w, a.Now(), a.g, a.nonMain, p, newp, given);
  }

  lemma BackedLess(lo: map<int, int>, hi: map<int, Word>, s: int, n: int, m: int)
    requires Backed(lo, hi, s, n) && m <= n
    ensures Backed(lo, hi, s, m)
  {
  }

  lemma CopyIsWrite(y: St, w: St, q: int, m: int)
    requires q in y.c && y.c[q].tag == Live && m <= y.c[q].size && w == y.(lo := w.lo, hi := w.hi)
    requires OnlyWrote(y.lo, y.hi, w.lo, w.hi, q, m + 1, m)
    ensures WroteBody(y, w, q)
  {
  }

  lemma NextSize(x: St, g: int, nm: bool, p: int)
    requires Good(x, g, nm) && p in x.c && x.c[p].tag == Live
    ensures p in x.hi && x.hi[p].Size? && x.hi[p].n == x.c[p].size
    ensures var next := p + x.c[p].size;
      && next in x.c && next in x.hi && x.hi[next].Size? && x.hi[next].n == x.c[next].size && (next == x.top <==> x.c[next].tag == Top)
      && (next != x.top ==> var e := next + x.c[next].size; e in x.hi && x.hi[e].Size? && x.hi[e].p == (x.c[next].tag != Binned))
  {
    NextIs(x, g, nm, p);
  }

  method ShrinkInPlace(a: Arena, p: int, oldsize: int, n: int, remapped: bool) returns (k: int, ok: bool)
    requires a.Valid() && p in a.chunks && a.chunks[p].tag == Live && a.chunks[p].size == oldsize && 2 <= n <= oldsize
    modifies a
    ensures ok && a.Valid() && Kept(old(a.Now()), a.Now(), p, k, MinOf(oldsize, k)) && n <= k < n + 2
  {
    hide Good, Kept, MapOk, HeapsOk, PageEnds, SystemSize, FastbinIndex, NFastbins, Bytes, WithinLimit, UnitsOk, KnownTo;
    ghost var x := a.Now();
    LiveIs(x, a.g, a.nonMain, p);
    assert a.hi == a.hi[p := Size(oldsize, a.hi[p].p, a.nonMain)][p + oldsize := a.hi[p + oldsize].(p := true)];
    k, ok := TrimTo(a, x, p, oldsize, n, remapped);
  }

  // allocate, copy, free
  method Relocate(a: Arena, p: int, oldsize: int, n: int, ghost bytes: int, sys: Answers) returns (q: int, k: int, ok: bool)
    requires a.Valid() && p in a.chunks && a.chunks[p].tag == Live && a.chunks[p].size == oldsize < n && n >= 2
    requires IsGrain(a.g) && !OutOfRange(a.g, a.limit, bytes) && bytes >= 0 && n == Request(a.g, bytes)
    requires Safe(a, bytes)
    modifies a
    ensures ok && a.Valid()
    ensures q == 0 ==> Unnoticed(old(a.Now()), a.Now())
    ensures q == p ==> Kept(old(a.Now()), a.Now(), p, k, oldsize)
    ensures q != 0 && q != p ==> Reallocated(old(a.Now()), a.Now(), p, q, k)
    ensures q != 0 ==> n <= k < n + 2
    ensures q == 0 ==> OutOfRange(a.g, a.limit, Bytes(a.g, n) - (a.g - 1)) || Starved(a, old(a.regions), old(a.chunks), n, sys)
  {
    hide Exhausted, NoMore, Good, Kept, HandedOut, MapOk, HeapsOk, PageEnds, SystemSize, FastbinIndex, NFastbins, Bytes,
      WithinLimit, UnitsOk, Reallocated, Unnoticed, FreshPast, OutOfRange, BestFit, TookFree, NoFit, LiveOf, KnownTo;
    ghost var x := a.Now();
    LiveIs(x, a.g, a.nonMain, p);
    RequestAgain(a.g, n);
    InRangeFits(a.g, a.limit, bytes);
    BytesFit(a.g, n, a.limit);
    var newp, given, from, passes;
    ghost var seen;
    newp, given, from, seen, passes, ok := Malloc(a, Bytes(a.g, n) - (a.g - 1), sys);
    if newp == 0 { return 0, 0, ok; }
    assert HandedOut(x, a.Now(), newp, given);
    AfterMalloc(x, a.Now(), a.g, a.nonMain, p, newp, given);
    var ok1;
    if newp == p + oldsize {
      k, ok1 := JoinNew(a, x, p, oldsize, given, n, sys.first);
      q := p;
    } else {
      ok1 := MoveNew(a, x, p, newp, oldsize, given, sys.first);
      q, k := newp, given;
    }
    ok := ok && ok1;
  }

  lemma BytesFit(g: int, n: int, limit: int)
    requires IsGrain(g) && n + 2 <= limit
    ensures Bytes(g, n) - (g - 1) < Bytes(g, limit)
  {
  }

  // The chunk is large enough, or becomes so with the top or the free chunk after it.
  ghost predicate GrowsInPlace(c: map<int, Chunk>, p: int, n: int)
    requires p in c
  {
    var next := p + c[p].size;
    || c[p].size >= n
    || (next in c && c[next].tag == Top && c[p].size + c[next].size >= n + 2)
    || (next in c && c[next].tag == Binned && c[p].size + c[next].size >= n)
  }

  // aproxy_int_realloc, for a chunk that is not mapped on its own
  method Realloc(a: Arena, p: int, bytes: int, sys: Answers) returns (q: int, k: int, ok: bool)
    requires a.Valid() && p in a.chunks && a.chunks[p].tag == Live
    requires 0 <= bytes < Bytes(a.g, a.limit)
    requires Safe(a, bytes)
    modifies a
    ensures ok && a.Valid()
    ensures q == 0 ==> Unnoticed(old(a.Now()), a.Now())
    ensures q != 0 ==> Reallocated(old(a.Now()), a.Now(), p, q, k) && Request(a.g, bytes) <= k < Request(a.g, bytes) + 2
    ensures OutOfRange(a.g, a.limit, bytes) ==> q == 0
    ensures q == 0 ==> OutOfRange(a.g, a.limit, bytes) || old(a.chunks)[p].size < Request(a.g, bytes)
    ensures q != p ==> OutOfRange(a.g, a.limit, bytes) || !GrowsInPlace(old(a.chunks), p, Request(a.g, bytes))
    ensures q == 0 ==> var n := Request(a.g, bytes);
      OutOfRange(a.g, a.limit, bytes) || OutOfRange(a.g, a.limit, Bytes(a.g, n) - (a.g - 1)) || Starved(a, old(a.regions), old(a.chunks), n, sys)
  {
    hide Starved, Good, Kept, HandedOut, MapOk, HeapsOk, PageEnds, SystemSize, FastbinIndex, NFastbins, Bytes,
      WithinLimit, UnitsOk, Reallocated, Unnoticed, TopKnown, KnownTo;
    ghost var x := a.Now();
    SelfKept(x);
    GoodParts(x, a.g, a.nonMain);
    if OutOfRange(a.g, a.limit, bytes) { return 0, 0, true; }
    RequestIs(a.g, bytes);
    var n := Request(a.g, bytes);
    NextPassesTests(x, a.g, a.nonMain, p);
    LiveIs(x, a.g, a.nonMain, p);
    var oldsize := a.hi[p].n;
    if TooSmall(a.hi[p]) || oldsize >= a.systemMem { return 0, 0, false; }
    var next := p + oldsize;
    var nextsize := a.hi[next].n;
    if TooSmall(a.hi[next]) || nextsize >= a.systemMem { return 0, 0, false; }
    NextSize(x, a.g, a.nonMain, p);
    if oldsize >= n {
      k, ok := ShrinkInPlace(a, p, oldsize, n, sys.first);
      q := p;
    } else if next == a.top && oldsize + nextsize >= n + 2 {
      ExtendIntoTop(a, p, oldsize, oldsize + nextsize, n);
      q, k, ok := p, n, true;
    } else if next != a.top && !a.hi[next + nextsize].p && oldsize + nextsize >= n {
      k, ok := ExtendIntoNext(a, p, oldsize, oldsize + nextsize, n, sys.first);
      q := p;
    } else {
      q, k, ok := Relocate(a, p, oldsize, n, bytes, sys);
      if q != p { return; }
    }
    KeptIs(x, a.Now(), a.g, a.nonMain, p, k);
  }
}
