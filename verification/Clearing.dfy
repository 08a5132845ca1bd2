/** calloc: the product test, and what has to be cleared. */
module Clearing {
  import opened Memory
  import opened Sizes
  import opened Chunks
  import opened Frames
  import opened Layout
  import opened State
  import opened Arenas
  import opened LiveView
  import opened Consolidating
  import opened Trimming
  import opened Pages
  import opened Taking
  import opened Searching
  import opened Passes
  import opened SystemAllocation
  import opened IntMalloc
  import opened SystemCalls
  import opened LiveCuts
  import opened Reallocating
  import opened ClientWrites
  import opened ReallocAll

  ghost predicate ZeroLoAt(lo: map<int, int>, k: int) { k in lo && lo[k] == 0 }
  ghost predicate ZeroHiAt(hi: map<int, Word>, k: int) { k in hi && hi[k] == Size(0, false, false) }

  // The client sees only zeros in the first m granules at p.
  ghost predicate ZeroBody(lo: map<int, int>, hi: map<int, Word>, p: int, m: int) {
    && (forall k {:trigger ZeroLoAt(lo, k)} :: p < k <= p + m ==> ZeroLoAt(lo, k))
    && (forall k {:trigger ZeroHiAt(hi, k)} :: p < k < p + m ==> ZeroHiAt(hi, k))
  }

  ghost predicate ZeroSoFar(lo: map<int, int>, hi: map<int, Word>, p: int, i: int, m: int) {
    && (forall k {:trigger ZeroLoAt(lo, k)} :: p < k < p + i ==> ZeroLoAt(lo, k))
    && (forall k {:trigger ZeroHiAt(hi, k)} :: p < k < p + i && k < p + m ==> ZeroHiAt(hi, k))
  }

  // MALLOC_ZERO
  method ZeroWords(a: Arena, p: int, m: int)
    requires m >= 1 && Backed(a.lo, a.hi, p, m)
    modifies a`lo, a`hi
    ensures ZeroBody(a.lo, a.hi, p, m)
    ensures OnlyWrote(old(a.lo), old(a.hi), a.lo, a.hi, p, m + 1, m)
  {
    var i := 1;
    while i <= m
      invariant 1 <= i <= m + 1
      invariant ZeroSoFar(a.lo, a.hi, p, i, m)
      invariant OnlyWrote(old(a.lo), old(a.hi), a.lo, a.hi, p, i, m)
    {
      assert p + i in old(a.lo) && p + i in old(a.hi);
      ghost var lo1, hi1 := a.lo, a.hi;
      a.lo := a.lo[p + i := 0];
      if i < m { a.hi := a.hi[p + i := Size(0, false, false)]; }
      ZeroMore(lo1, hi1, a.lo, a.hi, p, i, m);
      i := i + 1;
    }
  }

  lemma ZeroMore(lo: map<int, int>, hi: map<int, Word>, lo': map<int, int>, hi': map<int, Word>, p: int, i: int, m: int)
    requires ZeroSoFar(lo, hi, p, i, m) && 1 <= i <= m && lo' == lo[p + i := 0]
    requires hi' == if i < m then hi[p + i := Size(0, false, false)] else hi
    ensures ZeroSoFar(lo', hi', p, i + 1, m)
  {
    forall k | p < k < p + i + 1
      ensures ZeroLoAt(lo', k)
    {
      assert k < p + i ==> ZeroLoAt(lo, k);
    }
    forall k | p < k < p + i + 1 && k < p + m
      ensures ZeroHiAt(hi', k)
    {
      assert k < p + i ==> ZeroHiAt(hi, k);
    }
  }

  // ---- the element count product

  // n * elem as size_t and the test that it did not wrap around; half is HALF_INTERNAL_SIZE_T.
  predicate Rejected(n: int, elem: int, half: int)
    requires half > 0
  {
    && (n >= half || elem >= half)
    && elem != 0 && ((n * elem) % (half * half)) / elem != n
  }

  lemma Product(n: int, elem: int, half: int)
    requires 0 <= n < half * half && 0 <= elem < half * half && half > 0
    ensures Rejected(n, elem, half) <==> n * elem >= half * half
    ensures !Rejected(n, elem, half) ==> (n * elem) % (half * half) == n * elem
  {
    var w := half * half;
    ProductPositive(n, elem);
    if n * elem < w {
      ModSmall(n * elem, w);
      if elem != 0 { DivExact(n, elem); }
    } else {
      if n < half && elem < half { ProductBelow(n, elem, half); }
      ModBelow(n * elem, w);
      DivLess((n * elem) % w, n, elem, w);
    }
  }

  lemma ProductPositive(n: int, elem: int)
    requires n >= 0 && elem >= 0
    ensures n * elem >= 0 && (elem == 0 ==> n * elem == 0)
  {
  }

  lemma DivExact(n: int, elem: int)
    requires elem > 0
    ensures (n * elem) / elem == n
  {
    MulMod(n, elem);
    DivMod(n * elem, elem);
    var j := n - (n * elem) / elem;
    assert j * elem == 0;
    MulAtLeast(j, elem);
  }

  lemma ProductBelow(n: int, elem: int, half: int)
    requires 0 <= n < half && 0 <= elem < half
    ensures n * elem < half * half
  {
    assert n * elem <= n * half;
  }

  lemma ModBelow(x: int, w: int)
    requires w > 0 && x >= w
    ensures 0 <= x % w <= x - w
  {
    DivMod(x, w);
    var d := x / w;
    MulAtLeast(d, w);
    NoProduct(d, w);
  }

  lemma DivLess(r: int, n: int, elem: int, w: int)
    requires elem > 0 && 0 <= r <= n * elem - w && elem < w
    ensures r / elem < n
  {
    DivMod(r, elem);
    var d := r / elem - n;
    assert d * elem == (r / elem) * elem - n * elem;
    NoProduct(d, elem);
  }

  lemma NoProduct(d: int, m: int)
    requires m > 0
    ensures d <= 0 ==> d * m <= 0
    ensures d >= 0 ==> d * m >= 0
  {
  }

  // ---- calloc

  // The words of a block: cleared up to csz granules, fresh from there on.
  lemma AllZero(lo: map<int, int>, hi: map<int, Word>, p: int, csz: int, given: int)
    requires ZeroBody(lo, hi, p, csz) && csz <= given
    requires forall k {:trigger lo[k]} {:trigger k in lo} :: p + csz < k <= p + given ==> k in lo && lo[k] == 0
    requires forall k {:trigger hi[k]} {:trigger k in hi} :: p + csz <= k < p + given ==> k in hi && hi[k] == Size(0, false, false)
    ensures ZeroBody(lo, hi, p, given)
  {
  }

  lemma FreshIsZero(rs: seq<Region>, lo: map<int, int>, hi: map<int, Word>, lo': map<int, int>, hi': map<int, Word>, p: int, csz: int, given: int)
    requires FreshPast(rs, lo, hi, p, given) && OnlyWrote(lo, hi, lo', hi', p, csz + 1, csz) && ZeroBody(lo', hi', p, csz)
    requires rs != [] && rs[|rs| - 1].base <= p < rs[|rs| - 1].end <= p + csz && 1 <= csz <= given
    ensures ZeroBody(lo', hi', p, given)
  {
    forall k {:trigger lo'[k]} {:trigger k in lo'} | p + csz < k <= p + given
      ensures k in lo' && lo'[k] == 0
    {
      assert k in lo;
    }
    forall k {:trigger hi'[k]} {:trigger k in hi'} | p + csz <= k < p + given
      ensures k in hi' && hi'[k] == Size(0, false, false)
    {
      assert k in hi;
    }
    AllZero(lo', hi', p, csz, given);
  }

  // public_cALLOc on one arena, for a block that is not mapped on its own; used granules of the top
  // lie below the highest address that was ever in use
  method Calloc(a: Arena, n: int, elem: int, half: int, sys: Answers, used: int) returns (p: int, given: int, ok: bool)
    requires a.Valid() && half > 0 && half * half == Bytes(a.g, a.limit) && 0 <= n < half * half && 0 <= elem < half * half
    requires n * elem < half * half ==> Safe(a, n * elem)
    modifies a
    ensures ok && a.Valid()
    ensures n * elem >= half * half ==> p == 0
    ensures p == 0 ==> Unnoticed(old(a.Now()), a.Now())
    ensures p != 0 ==> HandedOut(old(a.Now()), a.Now(), p, given) && ZeroBody(a.lo, a.hi, p, given)
    ensures p != 0 ==> n * elem + a.g / 2 <= Bytes(a.g, given)
    ensures p == 0 ==> n * elem >= half * half || OutOfRange(a.g, a.limit, n * elem) || Starved(a, old(a.regions), old(a.chunks), Request(a.g, n * elem), sys)
  {
    hide Exhausted, NoMore, Good, HandedOut, MapOk, HeapsOk, PageEnds, SystemSize, FastbinIndex, NFastbins, Bytes,
      WithinLimit, UnitsOk, Unnoticed, FreshPast, OutOfRange, BestFit, TookFree, NoFit, LiveOf, TopKnown, Rejected,
      Request, ZeroBody, KnownTo;
    ghost var x := a.Now();
    SelfKept(x);
    GoodParts(x, a.g, a.nonMain);
    Product(n, elem, half);
    if Rejected(n, elem, half) { return 0, 0, true; }
    ProductPositive(n, elem);
    var bytes := (n * elem) % (half * half);
    TopReads(x, a.g, a.nonMain);
    var oldtop := a.top;
    var oldtopsize := a.hi[oldtop].n;
    // in the main arena these count as old
    if !a.nonMain && used > oldtopsize { oldtopsize := used; }
    var from, passes;
    ghost var seen;
    p, given, from, seen, passes, ok := Malloc(a, bytes, sys);
    if p == 0 { return; }
    RequestIs(a.g, bytes);
    BytesGrow(a.g, Request(a.g, bytes), given);
    ClearBlock(a, x, p, given, oldtop, oldtopsize);
  }

  // Of a block that the top has grown for, only the old part is cleared.
  method ClearBlock(a: Arena, ghost x: St, p: int, ghost given: int, oldtop: int, oldtopsize: int)
    requires a.Valid() && Good(x, a.g, a.nonMain) && HandedOut(x, a.Now(), p, given) && FreshPast(x.rs, a.lo, a.hi, p, given)
    requires TopKnown(x.top, x.hi, x.rs) && oldtop == x.top && x.top in x.hi && x.hi[x.top].Size? && oldtopsize >= x.hi[x.top].n
    modifies a`lo, a`hi
    ensures a.Valid() && HandedOut(x, a.Now(), p, given) && ZeroBody(a.lo, a.hi, p, given)
  {
    hide Good, HandedOut, MapOk, HeapsOk, PageEnds, SystemSize, FastbinIndex, NFastbins, Bytes, WithinLimit, UnitsOk,
      FreshPast, LiveOf, ZeroBody, OnlyWrote, WroteBody, Backed, KnownTo;
    ghost var y := a.Now();
    HandedNonZero(y, a.g, a.nonMain, x, p, given);
    LiveIs(y, a.g, a.nonMain, p);
    ChunksInRegions(y, a.g, a.nonMain, p);
    var csz := a.hi[p].n;
    if p == oldtop && csz > oldtopsize { csz := oldtopsize; }
    CallocEnds(x, a.g, a.nonMain, p, oldtopsize, given, csz);
    BodyMapped(y, a.g, a.nonMain, p);
    BackedLess(a.lo, a.hi, p, given, csz);
    ZeroWords(a, p, csz);
    CopyIsWrite(y, a.Now(), p, csz);
    WriteGood(y, a.Now(), a.g, a.nonMain, p);
    if csz < given { FreshIsZero(x.rs, y.lo, y.hi, a.lo, a.hi, p, csz, given); }
    ClearedOut(x, y, a.Now(), a.g, a.nonMain, p, given);
  }

  lemma BytesGrow(g: int, n: int, m: int)
    requires n <= m
    ensures Bytes(g, n) <= Bytes(g, m)
  {
  }

  lemma CallocEnds(x: St, g: int, nm: bool, p: int, oldtopsize: int, given: int, csz: int)
    requires Good(x, g, nm) && TopKnown(x.top, x.hi, x.rs) && x.top in x.hi && x.hi[x.top].Size? && oldtopsize >= x.hi[x.top].n
    requires p > 0 && given >= 2 && csz == if p == x.top && given > oldtopsize then oldtopsize else given
    ensures 1 <= csz <= given
    ensures csz < given ==> x.rs != [] && x.rs[|x.rs| - 1].base <= p < x.rs[|x.rs| - 1].end <= p + csz
  {
    hide Base;
    if x.rs != [] {
      TopIsTop(x, g, nm) by { assert Good(x, g, nm); }
      assert PlacedAt(x.c, x.rs, x.top);
      RegionBases(x, g, nm);
    }
  }

  lemma RegionBases(x: St, g: int, nm: bool)
    requires Good(x, g, nm)
    ensures forall i {:trigger x.rs[i]} :: 0 <= i < |x.rs| ==> x.rs[i].base <= x.rs[i].first
  {
  }

  lemma ClearedOut(x: St, y: St, w: St, g: int, nm: bool, p: int, n: int)
    requires Good(x, g, nm) && HandedOut(x, y, p, n) && LiveOf(w.c) == LiveOf(y.c) && DataKept(y.c, y.lo, y.hi, w.lo, w.hi, p)
    ensures HandedOut(x, w, p, n)
  {
    hide SameBody;
    forall r | r in x.c && x.c[r].tag == Live
      ensures SameBody(x.lo, x.hi, w.lo, w.hi, r, x.c[r].size)
    {
      ClearedOther(x, y, w, g, nm, p, n, r);
    }
  }

  lemma ClearedOther(x: St, y: St, w: St, g: int, nm: bool, p: int, n: int, r: int)
    requires Good(x, g, nm) && HandedOut(x, y, p, n) && DataKept(y.c, y.lo, y.hi, w.lo, w.hi, p) && r in x.c && x.c[r].tag == Live
    ensures SameBody(x.lo, x.hi, w.lo, w.hi, r, x.c[r].size)
  {
    hide SameBody, Good;
    LiveIs(x, g, nm, r);
    assert r in LiveOf(x.c) && r in LiveOf(y.c) && LiveOf(y.c)[r] == x.c[r].size && r != p;
    assert r in y.c && y.c[r].tag == Live && y.c[r].size == x.c[r].size;
    BodyTrans(x.lo, x.hi, y.lo, y.hi, w.lo, w.hi, r, x.c[r].size);
  }
}
