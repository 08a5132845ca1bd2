/** independent_calloc and independent_comalloc: one chunk carved into many. */
module Independent {
  import opened Memory
  import opened Sizes
  import opened Chunks
  import opened Frames
  import opened State
  import opened Arenas
  import opened LiveView
  import opened Consolidating
  import opened HeapTrim
  import opened Pages
  import opened Taking
  import opened Searching
  import opened SystemAllocation
  import opened IntMalloc
  import opened SystemCalls
  import opened LiveCuts
  import opened Reallocating
  import opened ClientWrites
  import opened ReallocAll
  import opened Clearing

  function Sum(ks: seq<int>): int { if |ks| == 0 then 0 else Sum(ks[..|ks| - 1]) + ks[|ks| - 1] }

  // The chunk sizes of the elements: all the first one, or one each.
  function Elements(g: int, sizes: seq<int>, n: int, same: bool): (ks: seq<int>)
    requires IsGrain(g) && n >= 0 && (if same then n > 0 ==> |sizes| >= 1 else |sizes| >= n)
    ensures |ks| == n
  { seq(n, i requires 0 <= i < n => Request(g, if same then sizes[0] else sizes[i])) }

  // Chunks of the sizes ks laid out one after the other from p.
  ghost function Spread(p: int, ks: seq<int>): map<int, int> {
    if |ks| == 0 then map[] else Spread(p, ks[..|ks| - 1])[p + Sum(ks[..|ks| - 1]) := ks[|ks| - 1]]
  }

  lemma {:induction false} SumMore(ks: seq<int>, i: int)
    requires 0 <= i < |ks|
    ensures Sum(ks[..i + 1]) == Sum(ks[..i]) + ks[i]
    ensures forall p :: Spread(p, ks[..i + 1]) == Spread(p, ks[..i])[p + Sum(ks[..i]) := ks[i]]
  {
    assert ks[..i + 1][..i] == ks[..i];
  }

  lemma {:induction false} SumAtLeast(ks: seq<int>, i: int)
    requires 0 <= i <= |ks| && forall j :: 0 <= j < |ks| ==> ks[j] >= 2
    ensures Sum(ks[..i]) >= 2 * i && Sum(ks) - Sum(ks[..i]) >= 2 * (|ks| - i)
    decreases |ks| - i, i
  {
    if i > 0 { SumPrefix(ks, i); }
    if i < |ks| {
      SumMore(ks, i);
      SumAtLeast(ks, i + 1);
    } else {
      assert ks[..i] == ks;
    }
  }

  lemma {:induction false} SumPrefix(ks: seq<int>, i: int)
    requires 0 <= i <= |ks| && forall j :: 0 <= j < |ks| ==> ks[j] >= 2
    ensures Sum(ks[..i]) >= 2 * i
  {
    if i > 0 {
      SumMore(ks, i - 1);
      SumPrefix(ks, i - 1);
    }
  }

  lemma {:induction false} SumSame(ks: seq<int>, k: int)
    requires forall j :: 0 <= j < |ks| ==> ks[j] == k
    ensures Sum(ks) == |ks| * k
  {
    if |ks| > 0 { SumSame(ks[..|ks| - 1], k); }
  }

  // request2size on a size_t, in granules
  function SizeOf(g: int, limit: int, bytes: int): int
    requires g > 0 && limit > 0
  {
    var sum := (bytes + g / 2 + (g - 1)) % Bytes(g, limit);
    if sum < 2 * g then 2 else sum / g
  }

  lemma SizeOfIs(g: int, limit: int, bytes: int)
    requires IsGrain(g) && limit > 0 && bytes >= 0
    ensures SizeOf(g, limit, bytes) >= 2 && (Request(g, bytes) < limit ==> SizeOf(g, limit, bytes) == Request(g, bytes))
  {
    var sum := bytes + g / 2 + (g - 1);
    ModRange(sum, Bytes(g, limit));
    if Request(g, bytes) < limit && sum < Bytes(g, limit) { ModSmall(sum, Bytes(g, limit)); }
    if Request(g, bytes) < limit && sum >= Bytes(g, limit) { SmallSum(g, sum, limit); }
  }

  lemma SmallSum(g: int, sum: int, limit: int)
    requires IsGrain(g) && limit > 0 && sum >= Bytes(g, limit) && (sum < 2 * g || sum / g < limit)
    ensures sum < 2 * g && limit == 1
  {
  }

  // contents_size, a size_t
  function Contents(g: int, limit: int, sizes: seq<int>, n: int, same: bool): int
    requires g > 0 && limit > 0 && n >= 0 && (if same then |sizes| >= 1 else |sizes| >= n)
  { if same then (n * SizeOf(g, limit, sizes[0])) % limit else ContentsTo(g, limit, sizes, n) }

  function ContentsTo(g: int, limit: int, sizes: seq<int>, n: int): int
    requires g > 0 && limit > 0 && 0 <= n <= |sizes|
  { if n == 0 then 0 else (ContentsTo(g, limit, sizes, n - 1) + SizeOf(g, limit, sizes[n - 1])) % limit }

  method ContentsSize(g: int, limit: int, sizes: seq<int>, n: int, same: bool) returns (contents: int)
    requires g > 0 && limit > 0 && n > 0 && (if same then |sizes| >= 1 else |sizes| >= n)
    ensures contents == Contents(g, limit, sizes, n, same)
  {
    if same {
      contents := (n * SizeOf(g, limit, sizes[0])) % limit;
    } else {
      contents := 0;
      var i := 0;
      while i != n
        invariant 0 <= i <= n && contents == ContentsTo(g, limit, sizes, i)
      {
        contents := (contents + SizeOf(g, limit, sizes[i])) % limit;
        i := i + 1;
      }
    }
  }

  // The unchecked sum is the sum of the sizes when that fits.
  lemma ContentsIs(g: int, limit: int, sizes: seq<int>, n: int, same: bool)
    requires IsGrain(g) && limit > 0 && n > 0 && (if same then |sizes| >= 1 else |sizes| >= n)
    requires forall i :: 0 <= i < |sizes| ==> sizes[i] >= 0
    ensures Contents(g, limit, sizes, n, same) >= 0
    ensures Sum(Elements(g, sizes, n, same)) < limit ==> Contents(g, limit, sizes, n, same) == Sum(Elements(g, sizes, n, same))
  {
    hide SizeOf, Request, Sum;
    var ks := Elements(g, sizes, n, same);
    ElementsAre(g, sizes, n, same);
    if same {
      SumSame(ks, Request(g, sizes[0]));
      ModRange(n * SizeOf(g, limit, sizes[0]), limit);
      if Sum(ks) < limit {
        FactorBelow(n, Request(g, sizes[0]));
        SizeOfIs(g, limit, sizes[0]);
        SumAtLeast(ks, 0);
        assert ks[..0] == [] && Sum([]) == 0 by { NoSum(); }
        ModSmall(Sum(ks), limit);
      }
    } else {
      ContentsToIs(g, limit, sizes, n, n);
      assert ks[..n] == ks;
    }
  }

  lemma {:induction false} ContentsToIs(g: int, limit: int, sizes: seq<int>, n: int, i: int)
    requires IsGrain(g) && limit > 0 && 0 <= i <= n <= |sizes| && n > 0 && forall j :: 0 <= j < |sizes| ==> sizes[j] >= 0
    ensures ContentsTo(g, limit, sizes, i) >= 0
    ensures var ks := Elements(g, sizes, n, false); Sum(ks) < limit ==> ContentsTo(g, limit, sizes, i) == Sum(ks[..i])
  {
    hide SizeOf, Request, Sum;
    var ks := Elements(g, sizes, n, false);
    ElementsAre(g, sizes, n, false);
    if i == 0 {
      assert ks[..0] == [] && Sum([]) == 0 by { NoSum(); }
    } else {
      ContentsToIs(g, limit, sizes, n, i - 1);
      SumMore(ks, i - 1);
      SumAtLeast(ks, i);
      SizeOfIs(g, limit, sizes[i - 1]);
      SumAtLeast(ks, i - 1);
      ModRange(ContentsTo(g, limit, sizes, i - 1) + SizeOf(g, limit, sizes[i - 1]), limit);
      if Sum(ks) < limit { ModSmall(Sum(ks[..i]), limit); }
    }
  }

  lemma NoSum()
    ensures Sum([]) == 0
  {
  }

  lemma FactorBelow(n: int, k: int)
    requires n > 0 && k >= 0
    ensures k <= n * k
  {
  }

  // ---- splitting out the elements

  // The heads as they will be once the size at q, of the piece not yet split, is written.
  ghost predicate HeadPending(x: St, mid: St, nm: bool, q: int, size: int) {
    && x == mid.(hi := x.hi)
    && mid.hi == x.hi[q := Size(size, true, nm)]
  }

  // From x to z the live chunks of born appeared and nothing else of the client's changed.
  ghost predicate Gained(x: St, z: St, born: map<int, int>) {
    && LiveOf(z.c) == LiveOf(x.c) + born
    && (forall p {:trigger p in born} :: p in born ==> p !in LiveOf(x.c))
    && DataKept(x.c, x.lo, x.hi, z.lo, z.hi, 0)
  }

  lemma BornMap(l: map<int, int>, ly: map<int, int>, lz: map<int, int>, born: map<int, int>, q: int, n: int, k: int)
    requires ly == l + born[q := n] && lz == ly[q := k][q + k := n - k] && q + k !in ly && k != 0 && q !in born
    requires forall p {:trigger p in born} :: p in born[q := n] ==> p !in l
    ensures lz == l + born[q := k][q + k := n - k]
    ensures q + k !in born && q !in l && q + k !in l
  {
  }

  lemma GainedCut(x: St, y: St, z: St, g: int, nm: bool, born: map<int, int>, q: int, k: int)
    requires Good(x, g, nm) && Good(y, g, nm) && CutInTwo(y, z, nm, q, k) && q !in born && q in y.c
    requires Gained(x, y, born[q := y.c[q].size])
    ensures Good(z, g, nm) && Gained(x, z, born[q := k][q + k := y.c[q].size - k]) && q + k !in born && q + k != q
    ensures PrevUsed(z.hi, q + k) && q + k > 0
  {
    hide Good, SameBody, LiveOf, DataKept;
    CutLive(y, z, g, nm, q, k);
    LiveIs(y, g, nm, q);
    var n := y.c[q].size;
    NotLive(y.c, q + k);
    BornMap(LiveOf(x.c), LiveOf(y.c), LiveOf(z.c), born, q, n, k);
    assert DataKept(x.c, x.lo, x.hi, z.lo, z.hi, 0) by { GainedData(x, y, z, g, nm, born[q := n], q); }
  }

  lemma NotLive(c: map<int, Chunk>, q: int)
    requires q !in c
    ensures q !in LiveOf(c)
  {
  }

  lemma GainedData(x: St, y: St, z: St, g: int, nm: bool, born: map<int, int>, q: int)
    requires Good(x, g, nm) && Gained(x, y, born) && DataKept(y.c, y.lo, y.hi, z.lo, z.hi, q) && q in born
    ensures DataKept(x.c, x.lo, x.hi, z.lo, z.hi, 0)
  {
    hide Good, SameBody, Gained;
    forall r | r in x.c && x.c[r].tag == Live
      ensures SameBody(x.lo, x.hi, z.lo, z.hi, r, x.c[r].size)
    {
      GainedOther(x, y, z, g, nm, born, q, r);
    }
  }

  lemma GainedOther(x: St, y: St, z: St, g: int, nm: bool, born: map<int, int>, q: int, r: int)
    requires Good(x, g, nm) && Gained(x, y, born) && DataKept(y.c, y.lo, y.hi, z.lo, z.hi, q) && q in born && r in x.c && x.c[r].tag == Live
    ensures SameBody(x.lo, x.hi, z.lo, z.hi, r, x.c[r].size)
  {
    hide Good, SameBody;
    LiveIs(x, g, nm, r);
    assert r in LiveOf(x.c) && r !in born;
    assert r in LiveOf(y.c) && LiveOf(y.c)[r] == x.c[r].size;
    assert r in y.c && y.c[r].tag == Live && y.c[r].size == x.c[r].size;
    BodyTrans(x.lo, x.hi, y.lo, y.hi, z.lo, z.hi, r, x.c[r].size);
  }

  // The piece not yet split out, at q, in a state whose other heads are all written.
  ghost predicate Carving(x: St, a: St, mid: St, g: int, nm: bool, base: map<int, int>, p: int, ks: seq<int>, i: int, q: int, size: int) {
    && Good(mid, g, nm) && HeadPending(a, mid, nm, q, size)
    && q in mid.c && mid.c[q].tag == Live && mid.c[q].size == size
    && 0 <= i < |ks| && q == p + Sum(ks[..i]) && q !in base + Spread(p, ks[..i])
    && Gained(x, mid, (base + Spread(p, ks[..i]))[q := size])
    && Sum(ks) - Sum(ks[..i]) <= size
  }

  ghost function CutState(mid: St, nm: bool, q: int, k: int, size: int): St
    requires q in mid.c
  { mid.(c := Split(mid.c, q, k, Live, Live), hi := mid.hi[q := Size(k, true, nm)][q + k := Size(size - k, true, nm)]) }

  lemma CarveStep(x: St, a: St, mid: St, b: St, g: int, nm: bool, base: map<int, int>, p: int, ks: seq<int>, i: int, q: int, size: int)
    requires Good(x, g, nm) && Carving(x, a, mid, g, nm, base, p, ks, i, q, size) && i + 1 < |ks|
    requires forall j :: 0 <= j < |ks| ==> ks[j] >= 2
    requires b == a.(hi := a.hi[q := Size(ks[i], true, nm)], c := Split(mid.c, q, ks[i], Live, Live))
    ensures Carving(x, b, CutState(mid, nm, q, ks[i], size), g, nm, base, p, ks, i + 1, q + ks[i], size - ks[i])
  {
    hide Good, Gained, Spread, Sum;
    var k := ks[i];
    var mid2 := CutState(mid, nm, q, k, size);
    SumMore(ks, i);
    SumAtLeast(ks, i + 1);
    assert CutInTwo(mid, mid2, nm, q, k);
    GainedCut(x, mid, mid2, g, nm, base + Spread(p, ks[..i]), q, k);
    SpreadMore(base, p, ks, i);
  }

  lemma SpreadMore(base: map<int, int>, p: int, ks: seq<int>, i: int)
    requires 0 <= i < |ks|
    ensures base + Spread(p, ks[..i + 1]) == (base + Spread(p, ks[..i]))[p + Sum(ks[..i]) := ks[i]]
  {
    hide Sum;
    SumMore(ks, i);
  }

  // The starts of the elements split out so far.
  ghost predicate StartsAt(p: int, ks: seq<int>, ptrs: seq<int>) {
    |ptrs| <= |ks| && forall i {:trigger ptrs[i]} :: 0 <= i < |ptrs| ==> ptrs[i] == p + Sum(ks[..i])
  }

  ghost predicate HeadsOnly(hi: map<int, Word>, hi': map<int, Word>, ptrs: seq<int>) {
    forall k {:trigger hi'[k]} {:trigger k in hi'} :: k in hi && k !in ptrs ==> k in hi' && hi'[k] == hi[k]
  }

  lemma NoStart(p: int, ks: seq<int>)
    ensures StartsAt(p, ks, []) && Sum(ks[..0]) == 0 && forall hi {:trigger HeadsOnly(hi, hi, [])} :: HeadsOnly(hi, hi, [])
  {
  }

  lemma OneHead(hi: map<int, Word>, hi1: map<int, Word>, hi2: map<int, Word>, p: int, ks: seq<int>, ptrs: seq<int>, q: int)
    requires |ptrs| < |ks| && StartsAt(p, ks, ptrs) && HeadsOnly(hi, hi1, ptrs) && q == p + Sum(ks[..|ptrs|])
    requires forall k {:trigger hi2[k]} {:trigger k in hi2} :: k in hi1 && k != q ==> k in hi2 && hi2[k] == hi1[k]
    ensures StartsAt(p, ks, ptrs + [q]) && HeadsOnly(hi, hi2, ptrs + [q])
  {
  }

  // split out elements
  method SplitElements(a: Arena, ghost x: St, ghost mid0: St, ghost base: map<int, int>, p: int, ks: seq<int>, size0: int)
      returns (ptrs: seq<int>, ghost last: int)
    requires a.Counters() && a.regions != [] && Good(x, a.g, a.nonMain) && |ks| > 0 && forall j :: 0 <= j < |ks| ==> ks[j] >= 2
    requires Carving(x, a.Now(), mid0, a.g, a.nonMain, base, p, ks, 0, p, size0) && a.chunks == mid0.c
    modifies a`hi, a`chunks
    ensures a.Valid() && last >= ks[|ks| - 1] && Sum(ks[..|ks| - 1]) + last == size0
    ensures Gained(x, a.Now(), base + Spread(p, ks[..|ks| - 1] + [last]))
    ensures |ptrs| == |ks| && StartsAt(p, ks, ptrs) && HeadsOnly(old(a.hi), a.hi, ptrs)
  {
    hide Good, Gained, MapOk, HeapsOk, PageEnds, SystemSize, FastbinIndex, NFastbins, Bytes, WithinLimit, UnitsOk,
      Carving, KnownTo, StartsAt, HeadsOnly, Sum;
    ghost var heads := a.hi;
    NoStart(p, ks);
    var q, size, i := p, size0, 0;
    ghost var mid := mid0;
    ptrs := [];
    while i < |ks| - 1
      invariant 0 <= i < |ks| && a.Counters() && a.regions != [] && a.chunks == mid.c
      invariant Carving(x, a.Now(), mid, a.g, a.nonMain, base, p, ks, i, q, size)
      invariant |ptrs| == i && StartsAt(p, ks, ptrs) && q == p + Sum(ks[..i]) && size == size0 - Sum(ks[..i])
      invariant HeadsOnly(old(a.hi), a.hi, ptrs)
    {
      ghost var now := a.Now();
      SumMore(ks, i);
      CarvingHas(x, now, mid, a.g, a.nonMain, base, p, ks, i, q, size);
      ptrs := ptrs + [q];
      a.hi := a.hi[q := Size(ks[i], true, a.nonMain)];
      a.chunks := Split(mid.c, q, ks[i], Live, Live);
      CarveStep(x, now, mid, a.Now(), a.g, a.nonMain, base, p, ks, i, q, size);
      mid := CutState(mid, a.nonMain, q, ks[i], size);
      OneHead(heads, now.hi, a.hi, p, ks, ptrs[..i], q);
      q, size, i := q + ks[i], size - ks[i], i + 1;
    }
    // What is left is the last element.
    ghost var now := a.Now();
    ptrs := ptrs + [q];
    a.hi := a.hi[q := Size(size, true, a.nonMain)];
    last := size;
    OneHead(heads, now.hi, a.hi, p, ks, ptrs[..i], q);
    CarveEnd(x, now, mid, a.g, a.nonMain, base, p, ks, i, q, size);
    assert a.Now() == mid by { CarvingHas(x, now, mid, a.g, a.nonMain, base, p, ks, i, q, size); }
  }

  lemma CarvingHas(x: St, a: St, mid: St, g: int, nm: bool, base: map<int, int>, p: int, ks: seq<int>, i: int, q: int, size: int)
    requires Carving(x, a, mid, g, nm, base, p, ks, i, q, size)
    ensures q in mid.c && Good(mid, g, nm) && mid == a.(hi := a.hi[q := Size(size, true, nm)])
  {
    hide Good;
  }

  lemma CarveEnd(x: St, a: St, mid: St, g: int, nm: bool, base: map<int, int>, p: int, ks: seq<int>, i: int, q: int, size: int)
    requires Carving(x, a, mid, g, nm, base, p, ks, i, q, size) && i == |ks| - 1
    ensures Gained(x, mid, base + Spread(p, ks[..i] + [size])) && size >= ks[i]
    ensures Good(mid, g, nm)
  {
    hide Good, Gained;
    SumMore(ks, i);
    assert ks[..i + 1] == ks;
    var ls := ks[..i] + [size];
    assert ls[..i] == ks[..i];
    assert base + Spread(p, ls) == (base + Spread(p, ks[..i]))[q := size];
  }

  lemma HandedGained(x: St, y: St, p: int, n: int)
    requires HandedOut(x, y, p, n)
    ensures Gained(x, y, map[][p := n])
  {
  }

  lemma StartCarving(x: St, y: St, g: int, nm: bool, p: int, ks: seq<int>, given: int)
    requires Good(x, g, nm) && Good(y, g, nm) && HandedOut(x, y, p, given) && PrevUsed(y.hi, p) && |ks| > 0 && Sum(ks) <= given
    ensures Carving(x, y, y, g, nm, map[], p, ks, 0, p, given)
  {
    hide Good, HandedOut, Gained;
    HandedGained(x, y, p, given);
    HandedNonZero(y, g, nm, x, p, given);
    LiveIs(y, g, nm, p);
    assert map[] + Spread(p, ks[..0]) == map[];
  }

  // The piece for the array of pointers is cut off behind the elements.
  lemma StartWithArray(x: St, y: St, w: St, g: int, nm: bool, p: int, ks: seq<int>, given: int)
    requires Good(x, g, nm) && Good(y, g, nm) && HandedOut(x, y, p, given) && PrevUsed(y.hi, p) && |ks| > 0
    requires 2 <= Sum(ks) && Sum(ks) + 2 <= given
    requires var k := Sum(ks); p in y.c && w == y.(hi := y.hi[p + k := Size(given - k, true, nm)], c := Split(y.c, p, k, Live, Live))
    ensures p in y.c && Carving(x, w, CutState(y, nm, p, Sum(ks), given), g, nm, map[p + Sum(ks) := given - Sum(ks)], p, ks, 0, p, Sum(ks))
  {
    hide Good, HandedOut, Gained;
    var k := Sum(ks);
    HandedGained(x, y, p, given);
    HandedNonZero(y, g, nm, x, p, given);
    LiveIs(y, g, nm, p);
    var mid := CutState(y, nm, p, k, given);
    GainedCut(x, y, mid, g, nm, map[], p, k);
    assert map[p + k := given - k] + Spread(p, ks[..0]) == map[p + k := given - k];
    assert map[p + k := given - k][p := k] == map[][p := k][p + k := given - k];
    LiveMid(y.c, mid.c, p, k);
  }

  lemma LiveMid(c: map<int, Chunk>, d: map<int, Chunk>, p: int, k: int)
    requires p in c && k != 0 && d == Split(c, p, k, Live, Live)
    ensures p in d && d[p].tag == Live && d[p].size == k
  {
  }

  // What the elements need, and the pointer array when the caller gives none.
  function ArraySize(g: int, n: int, provided: bool): int
    requires IsGrain(g)
  { if provided then 0 else Request(g, n * (g / 2)) }

  // ... as the code computes it, a size_t
  function AskedArray(g: int, limit: int, n: int, provided: bool): int
    requires IsGrain(g) && limit > 0
  { if provided then 0 else SizeOf(g, limit, (n * (g / 2)) % Bytes(g, limit)) }

  lemma AskedArrayIs(g: int, limit: int, n: int, provided: bool)
    requires IsGrain(g) && limit > 0 && n > 0
    ensures AskedArray(g, limit, n, provided) >= 0
    ensures ArraySize(g, n, provided) < limit ==> AskedArray(g, limit, n, provided) == ArraySize(g, n, provided)
  {
    hide SizeOf, Request;
    if !provided {
      var bytes := n * (g / 2);
      ModRange(bytes, Bytes(g, limit));
      SizeOfIs(g, limit, bytes % Bytes(g, limit));
      if Request(g, bytes) < limit {
        RequestIs(g, bytes);
        ModSmall(bytes, Bytes(g, limit));
      }
    }
  }

  function Wanted(g: int, sizes: seq<int>, n: int, same: bool, provided: bool): int
    requires IsGrain(g) && n > 0 && (if same then |sizes| >= 1 else |sizes| >= n)
  { Sum(Elements(g, sizes, n, same)) + ArraySize(g, n, provided) }

  // n adjacent chunks from p, each with room for its element; the last one takes the slop. The
  // pointer array, if it is not the caller's, is the chunk after them.
  ghost predicate Carved(x: St, z: St, g: int, p: int, ks: seq<int>, last: int, ptrs: seq<int>, table: int, arraySize: int) {
    && |ks| > 0 && |ptrs| == |ks| && StartsAt(p, ks, ptrs) && last >= ks[|ks| - 1]
    && (table != 0 ==> table == p + Sum(ks[..|ks| - 1]) + last && last == ks[|ks| - 1])
    && Gained(x, z, (if table == 0 then map[] else map[table := arraySize]) + Spread(p, ks[..|ks| - 1] + [last]))
  }

  // What is asked of malloc for chunks of so many granules together
  function AskedBytes(g: int, limit: int, granules: int): int
    requires g > 0 && limit > 0
  { (Bytes(g, granules) - (g - 1)) % Bytes(g, limit) }

  lemma AskedIs(g: int, limit: int, granules: int)
    requires IsGrain(g) && limit > 0
    ensures 0 <= AskedBytes(g, limit, granules) < Bytes(g, limit)
    ensures 2 <= granules < limit ==> AskedBytes(g, limit, granules) == Bytes(g, granules) - (g - 1)
  {
    ModRange(Bytes(g, granules) - (g - 1), Bytes(g, limit));
    if 2 <= granules < limit { ModSmall(Bytes(g, granules) - (g - 1), Bytes(g, limit)); }
  }

  function Asked(g: int, limit: int, sizes: seq<int>, n: int, same: bool, provided: bool): int
    requires IsGrain(g) && limit > 0 && n > 0 && (if same then |sizes| >= 1 else |sizes| >= n)
  { AskedBytes(g, limit, Contents(g, limit, sizes, n, same) + AskedArray(g, limit, n, provided)) }

  // All that is wanted is asked for when it fits in the address space.
  lemma AskedAll(g: int, limit: int, sizes: seq<int>, n: int, same: bool, provided: bool)
    requires IsGrain(g) && limit > 0 && n > 0 && (if same then |sizes| >= 1 else |sizes| >= n)
    requires forall i :: 0 <= i < |sizes| ==> sizes[i] >= 0
    ensures 0 <= Asked(g, limit, sizes, n, same, provided) < Bytes(g, limit)
    ensures var w := Wanted(g, sizes, n, same, provided); w >= 2 && (w < limit ==>
        && Asked(g, limit, sizes, n, same, provided) == Bytes(g, w) - (g - 1) && Request(g, Asked(g, limit, sizes, n, same, provided)) == w
        && Contents(g, limit, sizes, n, same) == Sum(Elements(g, sizes, n, same)) && AskedArray(g, limit, n, provided) == ArraySize(g, n, provided))
  {
    hide Contents, AskedArray, Request, Sum, AskedBytes, ArraySize, Elements;
    var ks := Elements(g, sizes, n, same);
    ElementsAre(g, sizes, n, same);
    ContentsIs(g, limit, sizes, n, same);
    AskedArrayIs(g, limit, n, provided);
    ArrayIs(g, n, provided);
    SumAtLeast(ks, 0);
    assert ks[..0] == [] && Sum([]) == 0 by { NoSum(); }
    AskedIs(g, limit, Contents(g, limit, sizes, n, same) + AskedArray(g, limit, n, provided));
    RequestAgain(g, Wanted(g, sizes, n, same, provided));
  }

  // The first part of iALLOc, for all sizes: no sum is checked, and the block that is taken has room
  // for the elements and the array exactly when what they want is less than the address space.
  method Aggregate(a: Arena, sizes: seq<int>, n: int, same: bool, provided: bool, sys: Answers)
      returns (p: int, given: int, contents: int, asz: int, ghost seen: map<int, Chunk>, ok: bool)
    requires a.Valid() && IsGrain(a.g) && n > 0 && (if same then |sizes| >= 1 else |sizes| >= n)
    requires forall i :: 0 <= i < |sizes| ==> sizes[i] >= 0
    requires Safe(a, Asked(a.g, a.limit, sizes, n, same, provided))
    modifies a
    ensures ok && a.Valid() && contents == Contents(a.g, a.limit, sizes, n, same) && asz == AskedArray(a.g, a.limit, n, provided)
    ensures p == 0 ==> Unnoticed(old(a.Now()), a.Now())
    ensures p != 0 ==> HandedOut(old(a.Now()), a.Now(), p, given) && PrevUsed(a.hi, p)
    ensures p != 0 ==> (given >= Wanted(a.g, sizes, n, same, provided) <==> Wanted(a.g, sizes, n, same, provided) < a.limit)
    ensures p == 0 ==> var asked := Asked(a.g, a.limit, sizes, n, same, provided);
      OutOfRange(a.g, a.limit, asked)
      || (Exhausted(old(a.chunks), seen, Request(a.g, asked)) && NoMore(a, old(a.regions), seen, Request(a.g, asked), sys))
    ensures !old(a.haveFast) ==> seen == old(a.chunks)
  {
    hide Exhausted, NoMore, Good, HandedOut, MapOk, HeapsOk, PageEnds, SystemSize, FastbinIndex, NFastbins, Bytes,
      WithinLimit, UnitsOk, Unnoticed, FreshPast, OutOfRange, BestFit, TookFree, NoFit, LiveOf, TopKnown,
      Request, Elements, Sum, Contents, AskedArray, AskedBytes, Wanted, KnownTo;
    ghost var x := a.Now();
    SelfKept(x);
    ok := true;
    if a.haveFast { ok := Consolidate(a); }
    ghost var x1 := a.Now();
    LimitPositive(a);
    asz := AskedArray(a.g, a.limit, n, provided);
    contents := ContentsSize(a.g, a.limit, sizes, n, same);
    AskedAll(a.g, a.limit, sizes, n, same, provided);
    var size := AskedBytes(a.g, a.limit, contents + asz);
    var from, passes, ok1;
    p, given, from, seen, passes, ok1 := Malloc(a, size, sys);
    ok := ok && ok1;
    if p == 0 {
      UnnoticedTrans(x, x1, a.Now());
      if !OutOfRange(a.g, a.limit, size) { ExhaustedSame(x.c, x1.c, seen, Request(a.g, size)) by { SameClient(x, x1); } }
    } else {
      assert HandedOut(x1, a.Now(), p, given) && PrevUsed(a.hi, p);
      UnnoticedThenOut(x, x1, a.Now(), p, given);
      BelowLimit(a, x, p, given);
    }
  }

  lemma LimitPositive(a: Arena)
    requires a.Counters()
    ensures a.limit > 0
  {
  }

  lemma BelowLimit(a: Arena, x: St, p: int, given: int)
    requires a.Valid() && HandedOut(x, a.Now(), p, given)
    ensures given < a.limit
  {
    hide Good, HandedOut, MapOk, HeapsOk, PageEnds, SystemSize, FastbinIndex, NFastbins, UnitsOk, TopKnown;
    HandedNonZero(a.Now(), a.g, a.nonMain, x, p, given);
    LiveEndsInside(a.Now(), a.g, a.nonMain, p);
  }

  // iALLOc for at least one element
  method IAlloc(a: Arena, sizes: seq<int>, n: int, same: bool, clear: bool, provided: bool, sys: Answers)
      returns (p: int, ptrs: seq<int>, table: int, ghost last: int, ghost arraySize: int, ok: bool)
    requires a.Valid() && IsGrain(a.g) && n > 0 && (if same then |sizes| >= 1 else |sizes| >= n)
    requires forall i :: 0 <= i < |sizes| ==> sizes[i] >= 0
    requires Wanted(a.g, sizes, n, same, provided) < a.limit
    requires Safe(a, Bytes(a.g, Wanted(a.g, sizes, n, same, provided)) - (a.g - 1))
    modifies a
    ensures ok && a.Valid()
    ensures p == 0 ==> Unnoticed(old(a.Now()), a.Now())
    ensures p != 0 ==> Carved(old(a.Now()), a.Now(), a.g, p, Elements(a.g, sizes, n, same), last, ptrs, table, arraySize)
    ensures p != 0 ==> (table == 0 <==> provided) && arraySize >= ArraySize(a.g, n, provided)
    ensures p != 0 && clear ==> ZeroButHeads(a.lo, a.hi, p, Sum(Elements(a.g, sizes, n, same)), ptrs)
    ensures p == 0 ==> var w := Wanted(a.g, sizes, n, same, provided);
      OutOfRange(a.g, a.limit, Bytes(a.g, w) - (a.g - 1)) || Starved(a, old(a.regions), old(a.chunks), w, sys)
  {
    hide Exhausted, NoMore, Good, HandedOut, Gained, MapOk, HeapsOk, PageEnds, SystemSize, FastbinIndex, NFastbins, Bytes,
      WithinLimit, UnitsOk, Carving, Unnoticed, FreshPast, OutOfRange, BestFit, TookFree, NoFit, LiveOf, TopKnown,
      Request, Elements, Sum, KnownTo;
    ghost var x := a.Now();
    LimitPositive(a);
    AskedAll(a.g, a.limit, sizes, n, same, provided);
    ArrayIs(a.g, n, provided);
    ptrs, table, last, arraySize := [], 0, 0, 0;
    var given, contents, asz;
    ghost var seen;
    p, given, contents, asz, seen, ok := Aggregate(a, sizes, n, same, provided, sys);
    if p != 0 { ptrs, table, last, arraySize := Divide(a, x, p, given, sizes, n, same, clear, provided, contents, asz); }
  }

  lemma SameClient(x: St, y: St)
    requires Unnoticed(x, y)
    ensures LiveOf(y.c) == LiveOf(x.c)
  {
  }

  // iALLOc for no elements: nothing to do, or a chunk that represents the empty array
  method IAllocNone(a: Arena, provided: bool, sys: Answers) returns (p: int, k: int, ok: bool)
    requires a.Valid() && IsGrain(a.g) && 0 < Bytes(a.g, a.limit)
    modifies a
    ensures ok && a.Valid() && (provided ==> p == 0 && !a.haveFast)
    ensures if p == 0 then Unnoticed(old(a.Now()), a.Now()) else HandedOut(old(a.Now()), a.Now(), p, k) && k >= 2
    ensures p == 0 ==> provided || OutOfRange(a.g, a.limit, 0) || Starved(a, old(a.regions), old(a.chunks), 2, sys)
  {
    hide Exhausted, NoMore, Good, HandedOut, MapOk, HeapsOk, PageEnds, SystemSize, FastbinIndex, NFastbins, Bytes,
      WithinLimit, UnitsOk, Unnoticed, FreshPast, OutOfRange, BestFit, TookFree, NoFit, LiveOf, TopKnown, KnownTo;
    ghost var x := a.Now();
    SelfKept(x);
    ok := true;
    if a.haveFast { ok := Consolidate(a); }
    ghost var x1 := a.Now();
    if provided { return 0, 0, ok; }
    var from, passes, ok1;
    ghost var seen;
    assert Request(a.g, 0) == 2;
    NothingSafe(a);
    p, k, from, seen, passes, ok1 := Malloc(a, 0, sys);
    ok := ok && ok1;
    if p == 0 {
      UnnoticedTrans(x, x1, a.Now());
      if !OutOfRange(a.g, a.limit, 0) { ExhaustedSame(x.c, x1.c, seen, 2) by { SameClient(x, x1); } }
    } else {
      assert HandedOut(x1, a.Now(), p, k);
      UnnoticedThenOut(x, x1, a.Now(), p, k);
    }
  }

  lemma ElementsAre(g: int, sizes: seq<int>, n: int, same: bool)
    requires IsGrain(g) && n > 0 && (if same then |sizes| >= 1 else |sizes| >= n) && forall i :: 0 <= i < |sizes| ==> sizes[i] >= 0
    ensures forall i :: 0 <= i < n ==> Elements(g, sizes, n, same)[i] == Request(g, if same then sizes[0] else sizes[i]) >= 2
  {
  }

  lemma ArrayIs(g: int, n: int, provided: bool)
    requires IsGrain(g) && n > 0
    ensures if provided then ArraySize(g, n, provided) == 0 else ArraySize(g, n, provided) >= 2
  {
  }

  ghost predicate ZeroButHeads(lo: map<int, int>, hi: map<int, Word>, p: int, m: int, ptrs: seq<int>) {
    && (forall k {:trigger ZeroLoAt(lo, k)} :: p < k <= p + m ==> ZeroLoAt(lo, k))
    && (forall k {:trigger ZeroHiAt(hi, k)} :: p < k < p + m && k !in ptrs ==> ZeroHiAt(hi, k))
  }

  method Divide(a: Arena, ghost x: St, p: int, given: int, sizes: seq<int>, n: int, same: bool, clear: bool, provided: bool, contents: int, asz: int)
      returns (ptrs: seq<int>, table: int, ghost last: int, ghost arraySize: int)
    requires a.Valid() && IsGrain(a.g) && n > 0 && (if same then |sizes| >= 1 else |sizes| >= n)
    requires forall i :: 0 <= i < |sizes| ==> sizes[i] >= 0
    requires Good(x, a.g, a.nonMain) && HandedOut(x, a.Now(), p, given) && PrevUsed(a.hi, p)
    requires Wanted(a.g, sizes, n, same, provided) <= given
    requires contents == Sum(Elements(a.g, sizes, n, same)) && asz == ArraySize(a.g, n, provided)
    modifies a`lo, a`hi, a`chunks
    ensures a.Valid()
    ensures Carved(x, a.Now(), a.g, p, Elements(a.g, sizes, n, same), last, ptrs, table, arraySize)
    ensures (table == 0 <==> provided) && arraySize >= ArraySize(a.g, n, provided)
    ensures clear ==> ZeroButHeads(a.lo, a.hi, p, Sum(Elements(a.g, sizes, n, same)), ptrs)
    ensures !clear ==> a.lo == old(a.lo)
  {
    hide Good, HandedOut, Gained, MapOk, HeapsOk, PageEnds, SystemSize, FastbinIndex, NFastbins, Bytes, WithinLimit,
      UnitsOk, Carving, LiveOf, Request, Elements, Sum, ZeroBody, ArraySize, KnownTo;
    var ks := Elements(a.g, sizes, n, same);
    ElementsAre(a.g, sizes, n, same);
    SumAtLeast(ks, 0);
    ArrayIs(a.g, n, provided);
    if clear { ClearElements(a, x, p, given, given - asz); }
    ghost var y := a.Now();
    var remaining;
    ghost var mid0, base;
    table, remaining, arraySize, mid0, base := PlaceTable(a, x, p, given, ks, contents, provided);
    ghost var w := a.Now();
    ptrs, last := SplitElements(a, x, mid0, base, p, ks, remaining);
    LastIsRest(ks, last, remaining);
    if clear { StillZero(y, w, a.Now(), p, given - asz, Sum(ks), ptrs); }
  }

  lemma LastIsRest(ks: seq<int>, last: int, size: int)
    requires |ks| > 0 && Sum(ks[..|ks| - 1]) + last == size
    ensures size == Sum(ks) ==> last == ks[|ks| - 1]
  {
  }

  // Without an array from the caller the last part of the chunk becomes one.
  method PlaceTable(a: Arena, ghost x: St, p: int, given: int, ghost ks: seq<int>, contents: int, provided: bool)
      returns (table: int, remaining: int, ghost arraySize: int, ghost mid0: St, ghost base: map<int, int>)
    requires a.Valid() && Good(x, a.g, a.nonMain) && HandedOut(x, a.Now(), p, given) && PrevUsed(a.hi, p)
    requires contents == Sum(ks) && |ks| > 0 && 2 <= Sum(ks) && (if provided then Sum(ks) <= given else Sum(ks) + 2 <= given)
    modifies a`hi, a`chunks
    ensures a.Counters() && a.regions != [] && a.chunks == mid0.c
    ensures Carving(x, a.Now(), mid0, a.g, a.nonMain, base, p, ks, 0, p, remaining)
    ensures if provided then table == 0 && arraySize == 0 && base == map[] && remaining == given
            else table == p + Sum(ks) && table > 0 && base == map[table := arraySize] && arraySize == given - Sum(ks) && remaining == Sum(ks)
    ensures forall k {:trigger k in a.hi} :: k in old(a.hi) && k != p + Sum(ks) ==> k in a.hi && a.hi[k] == old(a.hi)[k]
    ensures a.lo == old(a.lo)
  {
    hide Good, HandedOut, Gained, MapOk, HeapsOk, PageEnds, SystemSize, FastbinIndex, NFastbins, Bytes, WithinLimit,
      UnitsOk, Carving, LiveOf, Sum, KnownTo;
    ghost var y := a.Now();
    HandedNonZero(y, a.g, a.nonMain, x, p, given);
    ChunksInRegions(y, a.g, a.nonMain, p);
    table, remaining, arraySize, mid0, base := 0, given, 0, y, map[];
    if !provided {
      table := p + contents;
      arraySize := given - contents;
      a.hi := a.hi[table := Size(given - contents, true, a.nonMain)];
      a.chunks := Split(a.chunks, p, Sum(ks), Live, Live);
      StartWithArray(x, y, a.Now(), a.g, a.nonMain, p, ks, given);
      mid0 := CutState(y, a.nonMain, p, Sum(ks), given);
      base := map[table := arraySize];
      remaining := contents;
    } else {
      StartCarving(x, y, a.g, a.nonMain, p, ks, given);
    }
  }

  lemma StillZero(y: St, w: St, z: St, p: int, m: int, n: int, ptrs: seq<int>)
    requires ZeroBody(y.lo, y.hi, p, m) && n <= m && w.lo == y.lo && z.lo == w.lo && HeadsOnly(w.hi, z.hi, ptrs)
    requires forall k {:trigger k in w.hi} :: k in y.hi && k != p + n ==> k in w.hi && w.hi[k] == y.hi[k]
    ensures ZeroButHeads(z.lo, z.hi, p, n, ptrs)
  {
    forall k | p < k <= p + n
      ensures ZeroLoAt(z.lo, k)
    {
      assert ZeroLoAt(y.lo, k);
    }
    forall k | p < k < p + n && k !in ptrs
      ensures ZeroHiAt(z.hi, k)
    {
      assert ZeroHiAt(y.hi, k);
    }
  }

  // optionally clear the elements
  method ClearElements(a: Arena, ghost x: St, p: int, ghost given: int, m: int)
    requires a.Valid() && Good(x, a.g, a.nonMain) && HandedOut(x, a.Now(), p, given) && PrevUsed(a.hi, p) && 1 <= m <= given
    modifies a`lo, a`hi
    ensures a.Valid() && HandedOut(x, a.Now(), p, given) && PrevUsed(a.hi, p) && ZeroBody(a.lo, a.hi, p, m)
  {
    hide Good, HandedOut, MapOk, HeapsOk, PageEnds, SystemSize, FastbinIndex, NFastbins, Bytes, WithinLimit, UnitsOk,
      LiveOf, ZeroBody, WroteBody, Backed, KnownTo;
    ghost var y := a.Now();
    HandedNonZero(y, a.g, a.nonMain, x, p, given);
    ChunksInRegions(y, a.g, a.nonMain, p);
    BodyMapped(y, a.g, a.nonMain, p);
    BackedLess(a.lo, a.hi, p, given, m);
    ZeroWords(a, p, m);
    CopyIsWrite(y, a.Now(), p, m);
    WriteGood(y, a.Now(), a.g, a.nonMain, p);
    ClearedOut(x, y, a.Now(), a.g, a.nonMain, p, given);
  }
}
