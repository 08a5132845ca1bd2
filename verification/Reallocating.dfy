/** What realloc promises, and giving back the part that is not needed. */
module Reallocating {
  import opened Memory
  import opened Sizes
  import opened Chunks
  import opened Frames
  import opened State
  import opened Arenas
  import opened LiveView
  import opened Consolidating
  import opened FreeAll
  import opened Resizing
  import opened Splitting
  import opened LiveCuts

  ghost predicate LoMoved(lo: map<int, int>, p: int, lo': map<int, int>, q: int, j: int) {
    p + j in lo && q + j in lo' && lo'[q + j] == lo[p + j]
  }

  ghost predicate HiMoved(hi: map<int, Word>, p: int, hi': map<int, Word>, q: int, j: int) {
    p + j in hi && q + j in hi' && hi'[q + j] == hi[p + j]
  }

  // The words the client sees in the first m granules at p are found at q.
  ghost predicate Carried(lo: map<int, int>, hi: map<int, Word>, p: int, lo': map<int, int>, hi': map<int, Word>, q: int, m: int) {
    && (forall j {:trigger LoMoved(lo, p, lo', q, j)} :: 0 < j <= m ==> LoMoved(lo, p, lo', q, j))
    && (forall j {:trigger HiMoved(hi, p, hi', q, j)} :: 0 < j < m ==> HiMoved(hi, p, hi', q, j))
  }

  // The chunk at p is now the chunk of k granules at q, with its contents.
  ghost predicate Reallocated(x: St, z: St, p: int, q: int, k: int) {
    && p in x.c && x.c[p].tag == Live
    && LiveOf(z.c) == (LiveOf(x.c) - {p})[q := k]
    && (q == p || q !in LiveOf(x.c))
    && DataKept(x.c, x.lo, x.hi, z.lo, z.hi, p)
    && Carried(x.lo, x.hi, p, z.lo, z.hi, q, MinOf(x.c[p].size, k))
  }

  // ---- in place: the chunk at v becomes one of k granules

  ghost predicate Kept(x: St, z: St, v: int, k: int, m: int) {
    && v in x.c && x.c[v].tag == Live
    && LiveOf(z.c) == LiveOf(x.c)[v := k]
    && DataKept(x.c, x.lo, x.hi, z.lo, z.hi, v)
    && SameBody(x.lo, x.hi, z.lo, z.hi, v, m)
  }

  lemma KeptIs(x: St, z: St, g: int, nm: bool, v: int, k: int)
    requires Good(x, g, nm) && v in x.c && Kept(x, z, v, k, MinOf(x.c[v].size, k))
    ensures Reallocated(x, z, v, v, k)
  {
    hide Good;
    assert LiveOf(x.c)[v := k] == (LiveOf(x.c) - {v})[v := k];
    BodyMapped(x, g, nm, v);
  }

  ghost predicate Backed(lo: map<int, int>, hi: map<int, Word>, s: int, m: int) {
    forall k {:trigger k in lo} {:trigger k in hi} :: s < k <= s + m ==> k in lo && k in hi
  }

  lemma BodyMapped(x: St, g: int, nm: bool, v: int)
    requires Good(x, g, nm) && v in x.c && x.c[v].tag == Live
    ensures Backed(x.lo, x.hi, v, x.c[v].size)
  {
    hide Good;
    forall k | v < k <= v + x.c[v].size
      ensures k in x.lo && k in x.hi
    {
      MappedAt(x, g, nm, v, k);
    }
  }

  lemma MappedAt(x: St, g: int, nm: bool, v: int, k: int)
    requires Good(x, g, nm) && v in x.c && x.c[v].tag == Live && v < k <= v + x.c[v].size
    ensures k in x.lo && k in x.hi
  {
    LiveIs(x, g, nm, v);
    if k < v + x.c[v].size { InsideMapped(x, v, k); } else { InsideMapped(x, k, k); }
  }

  lemma KeptTrans(x: St, y: St, z: St, v: int, k: int, l: int, m: int)
    requires Kept(x, y, v, k, m) && Kept(y, z, v, l, m) && v in x.c
    ensures Kept(x, z, v, l, m)
  {
    hide DataKept, SameBody;
    assert LiveOf(x.c) - {v} == LiveOf(y.c) - {v};
    DataTrans(x.c, y.c, x.lo, x.hi, y.lo, y.hi, z.lo, z.hi, v);
    BodyTrans(x.lo, x.hi, y.lo, y.hi, z.lo, z.hi, v, m);
  }

  lemma BodyShorter(lo: map<int, int>, hi: map<int, Word>, lo': map<int, int>, hi': map<int, Word>, x: int, n: int, m: int)
    requires SameBody(lo, hi, lo', hi', x, n) && m <= n
    ensures SameBody(lo, hi, lo', hi', x, m)
  {
  }

  lemma KeptShorter(x: St, z: St, v: int, k: int, n: int, m: int)
    requires Kept(x, z, v, k, n) && m <= n
    ensures Kept(x, z, v, k, m)
  {
    hide DataKept, LiveOf;
    BodyShorter(x.lo, x.hi, z.lo, z.hi, v, n, m);
  }

  // A chunk cut in two whose second part is then freed.
  lemma CutThenFree(x: St, y: St, z: St, g: int, nm: bool, v: int, n: int)
    requires Good(x, g, nm) && CutInTwo(x, y, nm, v, n) && GivenBack(y, z, v + n)
    ensures Kept(x, z, v, n, n)
  {
    hide Good, SameBody;
    LiveIs(x, g, nm, v);
    CutLive(x, y, g, nm, v, n);
    assert v + n !in x.c;
    assert LiveOf(z.c) == LiveOf(x.c)[v := n];
    CutBody(x, y, g, nm, v, n);
    assert v in LiveOf(y.c) && LiveOf(y.c)[v] == n;
    assert v in y.c && y.c[v].tag == Live && y.c[v].size == n;
    BodyTrans(x.lo, x.hi, y.lo, y.hi, z.lo, z.hi, v, n);
    CutOthers(x, y, z, v, n);
  }

  lemma CutBody(x: St, y: St, g: int, nm: bool, v: int, n: int)
    requires CutInTwo(x, y, nm, v, n)
    ensures SameBody(x.lo, x.hi, y.lo, y.hi, v, n)
  {
  }

  lemma CutOthers(x: St, y: St, z: St, v: int, n: int)
    requires v + n in LiveOf(y.c) && LiveOf(y.c) == LiveOf(x.c)[v := n][v + n := LiveOf(y.c)[v + n]] && v + n !in x.c
    requires DataKept(x.c, x.lo, x.hi, y.lo, y.hi, v) && DataKept(y.c, y.lo, y.hi, z.lo, z.hi, v + n)
    ensures DataKept(x.c, x.lo, x.hi, z.lo, z.hi, v)
  {
    hide SameBody;
    forall q | q in x.c && x.c[q].tag == Live && q != v
      ensures SameBody(x.lo, x.hi, z.lo, z.hi, q, x.c[q].size)
    {
      assert q in LiveOf(x.c) && LiveOf(x.c)[q] == x.c[q].size;
      assert q in LiveOf(y.c) && LiveOf(y.c)[q] == x.c[q].size;
      assert q in y.c && y.c[q].tag == Live && y.c[q].size == x.c[q].size;
      BodyTrans(x.lo, x.hi, y.lo, y.hi, z.lo, z.hi, q, x.c[q].size);
    }
  }

  // The heads as they will be once the size at v is written.
  ghost predicate Pending(x: St, mid: St, nm: bool, v: int, size: int) {
    && v in x.hi && x.hi[v].Size? && v + size in x.hi && x.hi[v + size].Size? && x.hi[v].a == nm
    && x == mid.(hi := x.hi)
    && mid.hi == x.hi[v := Size(size, x.hi[v].p, nm)][v + size := x.hi[v + size].(p := true)]
  }

  // What the request does not need is split off and freed when it is a chunk.
  method TrimTo(a: Arena, ghost mid: St, v: int, newsize: int, n: int, remapped: bool) returns (k: int, ok: bool)
    requires a.Counters() && Good(mid, a.g, a.nonMain) && Pending(a.Now(), mid, a.nonMain, v, newsize)
    requires v in mid.c && mid.c[v].tag == Live && mid.c[v].size == newsize && 2 <= n <= newsize
    modifies a
    ensures ok && a.Valid() && Kept(mid, a.Now(), v, k, k) && k == if newsize - n < 2 then newsize else n
  {
    hide Good, Kept, HeapsOk, PageEnds, MapOk, SystemSize, FastbinIndex, NFastbins, Bytes, WithinLimit, UnitsOk,
      GivenBack, KnownTo;
    ghost var x := a.Now();
    assert a.regions != [] by { ChunksInRegions(mid, a.g, a.nonMain, v); }
    ok := true;
    if newsize - n < 2 {
      a.hi := a.hi[v := a.hi[v].(n := newsize, a := a.hi[v].a || a.nonMain)];
      a.hi := a.hi[v + newsize := a.hi[v + newsize].(p := true)];
      k := newsize;
      assert a.Now() == mid;
      KeptSelf(mid, v, newsize);
    } else {
      var rem := v + n;
      a.hi := a.hi[v := a.hi[v].(n := n, a := a.hi[v].a || a.nonMain)];
      a.hi := a.hi[rem := Size(newsize - n, true, a.nonMain)];
      a.hi := a.hi[v + newsize := a.hi[v + newsize].(p := true)];
      a.chunks := Split(mid.c, v, n, Live, Live);
      ghost var y := a.Now();
      LiveIs(mid, a.g, a.nonMain, v);
      CutNow(x, mid, y, a.nonMain, v, newsize, n);
      CutLive(mid, y, a.g, a.nonMain, v, n);
      assert rem in LiveOf(y.c);
      ok := Free(a, rem, remapped);
      CutThenFree(mid, y, a.Now(), a.g, a.nonMain, v, n);
      k := n;
    }
  }

  lemma KeptSelf(x: St, v: int, m: int)
    requires v in x.c && x.c[v].tag == Live
    ensures Kept(x, x, v, x.c[v].size, m)
  {
  }

  lemma CutNow(x: St, mid: St, y: St, nm: bool, v: int, size: int, n: int)
    requires Pending(x, mid, nm, v, size) && v in mid.c && mid.c[v].tag == Live && mid.c[v].size == size && 2 <= n && n + 2 <= size
    requires y == x.(hi := y.hi, c := Split(mid.c, v, n, Live, Live))
    requires y.hi == x.hi[v := x.hi[v].(n := n, a := x.hi[v].a || nm)][v + n := Size(size - n, true, nm)][v + size := x.hi[v + size].(p := true)]
    ensures CutInTwo(mid, y, nm, v, n)
  {
    assert y.hi == mid.hi[v := Size(n, mid.hi[v].p, nm)][v + n := Size(size - n, true, nm)];
  }
}
