/** memalign: an aligned spot, and what lies before and after it is given back. */
module Aligning {
  import opened Sizes
  import opened Chunks
  import opened Frames
  import opened State
  import opened Arenas
  import opened LiveView
  import opened Consolidating
  import opened FreeAll
  import opened Pages
  import opened Taking
  import opened Searching
  import opened SystemAllocation
  import opened IntMalloc
  import opened SystemCalls
  import opened LiveCuts
  import opened Reallocating

  predicate IsPow2(x: int) { x == 1 || (x > 1 && x % 2 == 0 && IsPow2(x / 2)) }

  // The alignment memalign works with: at least MINSIZE, and a power of two.
  function Doubled(a: int, alignment: int): int
    requires a > 0
    decreases alignment - a
  { if a < alignment then Doubled(2 * a, alignment) else a }

  function Alignment(g: int, alignment: int): int
    requires g > 0
  {
    var al := if alignment < 2 * g then 2 * g else alignment;
    if IsPow2(al) then al else Doubled(2 * g, al)
  }

  lemma {:induction false} DoubledIs(a: int, alignment: int)
    requires IsPow2(a)
    ensures IsPow2(Doubled(a, alignment)) && Doubled(a, alignment) >= alignment && Doubled(a, alignment) >= a
    ensures a < alignment ==> Doubled(a, alignment) < 2 * alignment
    decreases alignment - a
  {
    if a < alignment {
      assert 2 * a / 2 == a;
      DoubledIs(2 * a, alignment);
    }
  }

  lemma {:induction false} Pow2Divides(x: int, a: int)
    requires IsPow2(x) && IsPow2(a) && a <= x
    ensures a > 0 && x % a == 0
    decreases x
  {
    Pow2Positive(a);
    if a > 1 {
      Pow2Divides(x / 2, a / 2);
      DivMod(x / 2, a / 2);
      var k := (x / 2) / (a / 2);
      assert x == k * a by { assert x == 2 * (k * (a / 2)); assert 2 * (k * (a / 2)) == k * (2 * (a / 2)); }
      MulMod(k, a);
    }
  }

  lemma {:induction false} Pow2Positive(a: int)
    requires IsPow2(a)
    ensures a > 0
  {
  }

  lemma GrainPow2(g: int)
    requires IsGrain(g)
    ensures IsPow2(g) && IsPow2(2 * g)
  {
    assert IsPow2(2) && IsPow2(4) && IsPow2(8) && IsPow2(16) && IsPow2(32);
  }

  // The working alignment is a power of two, a whole number of granules and at least two,
  // and no more than twice the one asked for.
  lemma AlignmentIs(g: int, alignment: int)
    requires IsGrain(g) && alignment > g
    ensures var al := Alignment(g, alignment); IsPow2(al) && al % g == 0 && 2 * g <= al && alignment <= al
    ensures IsPow2(alignment) && 2 * g <= alignment ==> Alignment(g, alignment) == alignment
    ensures Alignment(g, alignment) <= 2 * g || Alignment(g, alignment) < 2 * alignment
  {
    GrainPow2(g);
    var al := if alignment < 2 * g then 2 * g else alignment;
    DoubledIs(2 * g, al);
    Pow2Divides(Alignment(g, alignment), g);
  }

  // The loop that finds the power of two.
  method RoundAlignment(g: int, alignment0: int) returns (alignment: int)
    requires IsGrain(g)
    ensures alignment == Alignment(g, alignment0)
  {
    alignment := alignment0;
    if alignment < 2 * g { alignment := 2 * g; }
    if !IsPow2(alignment) {
      var a := 2 * g;
      while a < alignment
        invariant a > 0 && Doubled(a, alignment) == Doubled(2 * g, alignment)
      {
        a := 2 * a;
      }
      alignment := a;
    }
  }

  // ---- giving back the leader and the tail

  lemma LeaderBack(x: St, y: St, w: St, z: St, g: int, nm: bool, p: int, n: int, lead: int)
    requires Good(x, g, nm) && Good(y, g, nm) && HandedOut(x, y, p, n) && CutInTwo(y, w, nm, p, lead) && GivenBack(w, z, p)
    ensures HandedOut(x, z, p + lead, n - lead)
  {
    hide Good, SameBody;
    HandedNonZero(y, g, nm, x, p, n);
    CutLive(y, w, g, nm, p, lead);
    LiveIs(y, g, nm, p);
    var q := p + lead;
    assert q !in y.c;
    assert q !in LiveOf(x.c) by { assert q in LiveOf(x.c) ==> q in LiveOf(y.c); }
    assert LiveOf(z.c) == LiveOf(x.c)[q := n - lead];
    forall r | r in x.c && x.c[r].tag == Live
      ensures SameBody(x.lo, x.hi, z.lo, z.hi, r, x.c[r].size)
    {
      LeaderOther(x, y, w, z, g, nm, p, n, lead, r);
    }
  }

  lemma LeaderOther(x: St, y: St, w: St, z: St, g: int, nm: bool, p: int, n: int, lead: int, r: int)
    requires Good(x, g, nm) && HandedOut(x, y, p, n) && GivenBack(w, z, p)
    requires p + lead !in y.c && LiveOf(w.c) == LiveOf(y.c)[p := lead][p + lead := n - lead] && DataKept(y.c, y.lo, y.hi, w.lo, w.hi, p)
    requires r in x.c && x.c[r].tag == Live
    ensures SameBody(x.lo, x.hi, z.lo, z.hi, r, x.c[r].size)
  {
    hide Good, SameBody;
    LiveIs(x, g, nm, r);
    assert r in LiveOf(x.c) && r != p;
    assert r in LiveOf(y.c) && LiveOf(y.c)[r] == x.c[r].size;
    assert r in y.c && y.c[r].tag == Live && y.c[r].size == x.c[r].size && r != p + lead;
    assert r in LiveOf(w.c) && LiveOf(w.c)[r] == x.c[r].size;
    assert r in w.c && w.c[r].tag == Live && w.c[r].size == x.c[r].size;
    BodyTrans(x.lo, x.hi, y.lo, y.hi, w.lo, w.hi, r, x.c[r].size);
    BodyTrans(x.lo, x.hi, w.lo, w.hi, z.lo, z.hi, r, x.c[r].size);
  }

  lemma TailBack(x: St, y: St, z: St, g: int, nm: bool, p: int, n: int, k: int)
    requires Good(x, g, nm) && Good(y, g, nm) && HandedOut(x, y, p, n) && p in y.c && Kept(y, z, p, k, k)
    ensures HandedOut(x, z, p, k)
  {
    hide Good, SameBody;
    assert LiveOf(z.c) == LiveOf(x.c)[p := k];
    forall r | r in x.c && x.c[r].tag == Live
      ensures SameBody(x.lo, x.hi, z.lo, z.hi, r, x.c[r].size)
    {
      TailOther(x, y, z, g, nm, p, n, k, r);
    }
  }

  lemma TailOther(x: St, y: St, z: St, g: int, nm: bool, p: int, n: int, k: int, r: int)
    requires Good(x, g, nm) && HandedOut(x, y, p, n) && p in y.c && Kept(y, z, p, k, k) && r in x.c && x.c[r].tag == Live
    ensures SameBody(x.lo, x.hi, z.lo, z.hi, r, x.c[r].size)
  {
    hide Good, SameBody;
    LiveIs(x, g, nm, r);
    assert r in LiveOf(x.c) && r != p;
    assert r in LiveOf(y.c) && LiveOf(y.c)[r] == x.c[r].size;
    assert r in y.c && y.c[r].tag == Live && y.c[r].size == x.c[r].size;
    BodyTrans(x.lo, x.hi, y.lo, y.hi, z.lo, z.hi, r, x.c[r].size);
  }

  // What lies before the spot becomes a chunk and is freed.
  method GiveLeader(a: Arena, ghost x: St, p: int, given: int, newp: int, remapped: bool) returns (ok: bool)
    requires a.Valid() && Good(x, a.g, a.nonMain) && HandedOut(x, a.Now(), p, given)
    requires 2 <= newp - p && newp - p + 2 <= given
    modifies a
    ensures ok && a.Valid() && HandedOut(x, a.Now(), newp, given - (newp - p))
  {
    hide Good, HandedOut, MapOk, HeapsOk, PageEnds, SystemSize, FastbinIndex, NFastbins, Bytes, WithinLimit, UnitsOk,
      GivenBack, CutInTwo, LiveOf, KnownTo;
    ghost var y := a.Now();
    HandedNonZero(y, a.g, a.nonMain, x, p, given);
    LiveIs(y, a.g, a.nonMain, p);
    var lead := newp - p;
    var newsize := a.hi[p].n - lead;
    CutChunk(a, p, lead, lead + newsize);
    ghost var w := a.Now();
    ok := Free(a, p, remapped);
    LeaderBack(x, y, w, a.Now(), a.g, a.nonMain, p, given, lead);
  }

  // A rest of more than MINSIZE after the request is freed.
  method GiveTail(a: Arena, ghost x: St, p: int, given: int, n: int, remapped: bool) returns (k: int, ok: bool)
    requires a.Valid() && Good(x, a.g, a.nonMain) && HandedOut(x, a.Now(), p, given) && 2 <= n <= given
    modifies a
    ensures ok && a.Valid() && HandedOut(x, a.Now(), p, k) && k == (if given > n + 2 then n else given) <= n + 2
  {
    hide Good, HandedOut, MapOk, HeapsOk, PageEnds, SystemSize, FastbinIndex, NFastbins, Bytes, WithinLimit, UnitsOk,
      GivenBack, Kept, CutInTwo, LiveOf, KnownTo;
    ghost var y := a.Now();
    HandedNonZero(y, a.g, a.nonMain, x, p, given);
    LiveIs(y, a.g, a.nonMain, p);
    var size := a.hi[p].n;
    ok := true;
    k := size;
    if size > n + 2 {
      CutChunk(a, p, n, size);
      ghost var w := a.Now();
      ok := Free(a, p + n, remapped);
      CutThenFree(y, w, a.Now(), a.g, a.nonMain, p, n);
      TailBack(x, y, a.Now(), a.g, a.nonMain, p, given, n);
      k := n;
    }
  }

  // What memalign asks malloc for: worst case padding to hit alignment.
  function Padded(g: int, alignment: int, bytes: int): int
    requires g > 0
  { Bytes(g, Request(g, bytes)) + Alignment(g, alignment) + 2 * g }

  lemma PaddedIs(g: int, alignment: int, bytes: int)
    requires IsGrain(g) && alignment > g && bytes >= 0
    ensures Padded(g, alignment, bytes) >= 0
    ensures Request(g, Padded(g, alignment, bytes)) == Request(g, bytes) + Alignment(g, alignment) / g + 3
    ensures Alignment(g, alignment) / g >= 2
  {
    AlignmentIs(g, alignment);
    RequestIs(g, bytes);
  }

  lemma MultipleOf(g: int, alignment: int, q: int)
    requires IsGrain(g) && alignment > 0 && alignment % g == 0 && q % (alignment / g) == 0
    ensures alignment / g > 0 ==> Bytes(g, q) % alignment == 0
  {
    var al := alignment / g;
    if al > 0 {
      DivMod(q, al);
      var k := q / al;
      assert Bytes(g, q) == g * (k * al);
      assert g * (k * al) == k * (g * al);
      MulMod(k, g * al);
    }
  }

  predicate AlignedTo(g: int, q: int, alignment: int) { alignment > 0 && Bytes(g, q) % alignment == 0 }

  // What malloc is asked for is a size_t: when the padded size does not fit, it is asked for less than
  // the request itself.
  lemma PaddingWraps(g: int, alignment: int, bytes: int, limit: int)
    requires IsGrain(g) && alignment > g && bytes >= 0 && !OutOfRange(g, limit, bytes) && limit >= 16
    requires 2 * Alignment(g, alignment) <= Bytes(g, limit) && Padded(g, alignment, bytes) >= Bytes(g, limit)
    ensures var asked := Padded(g, alignment, bytes) % Bytes(g, limit); 0 <= asked && Request(g, asked) + 2 < Request(g, bytes)
  {
    AlignmentIs(g, alignment);
    RequestIs(g, bytes);
    InRangeFits(g, limit, bytes);
    var w, s := Bytes(g, limit), Padded(g, alignment, bytes);
    DivMod(s, w);
    MulAtLeast(s / w - 1, w);
    Rewrapped(g, Request(g, bytes), Alignment(g, alignment) / g, limit);
  }

  lemma Rewrapped(g: int, n: int, al: int, limit: int)
    requires IsGrain(g) && n + 2 < limit && al >= 2 && 2 * al <= limit && limit >= 16 && n + al + 2 >= limit
    ensures Bytes(g, n + al + 2) % Bytes(g, limit) == Bytes(g, n + al + 2 - limit)
    ensures Request(g, Bytes(g, n + al + 2 - limit)) + 2 < n
  {
    var k := n + al + 2 - limit;
    ModSmall(Bytes(g, k), Bytes(g, limit));
    ModShift(Bytes(g, k), Bytes(g, limit));
  }

  lemma ModShift(x: int, m: int)
    requires m > 0 && 0 <= x < m
    ensures (x + m) % m == x
  {
    DivMod(x + m, m);
    var d := (x + m) / m - 1;
    assert d * m == x - (x + m) % m;
    MulAtLeast(d, m);
  }

  // The first part of memalign, for all requests: the block that is taken has room for the request
  // exactly when the padded size fits in a size_t.
  method TakePadded(a: Arena, alignment: int, bytes: int, sys: Answers) returns (p: int, given: int, ghost seen: map<int, Chunk>, ok: bool)
    requires a.Valid() && IsGrain(a.g) && alignment > a.g && 0 <= bytes && !OutOfRange(a.g, a.limit, bytes) && a.limit > 0
    requires Safe(a, Padded(a.g, alignment, bytes) % Bytes(a.g, a.limit))
    modifies a
    ensures ok && a.Valid()
    ensures p == 0 ==> Unnoticed(old(a.Now()), a.Now())
    ensures p == 0 ==> var m := Padded(a.g, alignment, bytes) % Bytes(a.g, a.limit);
      OutOfRange(a.g, a.limit, m) || (Exhausted(old(a.chunks), seen, Request(a.g, m)) && NoMore(a, old(a.regions), seen, Request(a.g, m), sys))
    ensures !old(a.haveFast) ==> seen == old(a.chunks)
    ensures p != 0 ==> HandedOut(old(a.Now()), a.Now(), p, given) && FreshPast(old(a.regions), a.lo, a.hi, p, given)
    ensures p != 0 && Padded(a.g, alignment, bytes) < Bytes(a.g, a.limit) ==> given >= Request(a.g, bytes) + Alignment(a.g, alignment) / a.g + 3
    ensures p != 0 && a.limit >= 16 && 2 * Alignment(a.g, alignment) <= Bytes(a.g, a.limit) ==>
      (given >= Request(a.g, bytes) <==> Padded(a.g, alignment, bytes) < Bytes(a.g, a.limit))
  {
    hide Exhausted, NoMore, Good, HandedOut, MapOk, HeapsOk, PageEnds, SystemSize, FastbinIndex, NFastbins, Bytes,
      WithinLimit, UnitsOk, Unnoticed, FreshPast, OutOfRange, BestFit, TookFree, NoFit, LiveOf, Alignment, TopKnown, Padded, Request, KnownTo;
    AskedRoom(a.g, alignment, bytes, a.limit);
    var m := Padded(a.g, alignment, bytes) % Bytes(a.g, a.limit);
    var from, passes;
    p, given, from, seen, passes, ok := Malloc(a, m, sys);
    if p != 0 { RequestIs(a.g, bytes); }
  }

  lemma AskedRoom(g: int, alignment: int, bytes: int, limit: int)
    requires IsGrain(g) && alignment > g && bytes >= 0 && !OutOfRange(g, limit, bytes) && limit > 0
    ensures Bytes(g, limit) > 0
    ensures var m := Padded(g, alignment, bytes) % Bytes(g, limit);
      && 0 <= m < Bytes(g, limit)
      && (Padded(g, alignment, bytes) < Bytes(g, limit) ==> Request(g, m) == Request(g, bytes) + Alignment(g, alignment) / g + 3)
      && (limit >= 16 && 2 * Alignment(g, alignment) <= Bytes(g, limit) && Padded(g, alignment, bytes) >= Bytes(g, limit) ==>
            Request(g, m) + 2 < Request(g, bytes))
    ensures Alignment(g, alignment) / g >= 2
  {
    PaddedIs(g, alignment, bytes);
    hide Padded, Request, Alignment, OutOfRange;
    ModRange(Padded(g, alignment, bytes), Bytes(g, limit));
    if Padded(g, alignment, bytes) < Bytes(g, limit) {
      ModSmall(Padded(g, alignment, bytes), Bytes(g, limit));
    } else if limit >= 16 && 2 * Alignment(g, alignment) <= Bytes(g, limit) {
      PaddingWraps(g, alignment, bytes, limit);
    }
  }

  // aproxy_int_memalign
  method Memalign(a: Arena, alignment: int, bytes: int, sys: Answers) returns (p: int, k: int, ok: bool)
    requires a.Valid() && 0 <= bytes < Bytes(a.g, a.limit)
    requires IsGrain(a.g) && (alignment > a.g && !OutOfRange(a.g, a.limit, bytes) ==> Padded(a.g, alignment, bytes) < Bytes(a.g, a.limit))
    requires !OutOfRange(a.g, a.limit, bytes) ==> Safe(a, if alignment > a.g then Padded(a.g, alignment, bytes) else bytes)
    modifies a
    ensures ok && a.Valid()
    ensures p == 0 ==> Unnoticed(old(a.Now()), a.Now())
    ensures p != 0 ==> HandedOut(old(a.Now()), a.Now(), p, k) && Request(a.g, bytes) <= k <= Request(a.g, bytes) + 2
    ensures p != 0 && alignment > a.g ==> AlignedTo(a.g, p + 1, Alignment(a.g, alignment))
    ensures p == 0 ==> var m := if alignment > a.g then Padded(a.g, alignment, bytes) else bytes;
      OutOfRange(a.g, a.limit, bytes) || OutOfRange(a.g, a.limit, m) || Starved(a, old(a.regions), old(a.chunks), Request(a.g, m), sys)
  {
    hide Exhausted, NoMore, Good, HandedOut, MapOk, HeapsOk, PageEnds, SystemSize, FastbinIndex, NFastbins, Bytes,
      WithinLimit, UnitsOk, Unnoticed, FreshPast, OutOfRange, BestFit, TookFree, NoFit, LiveOf, Alignment, TopKnown, KnownTo;
    ghost var x := a.Now();
    var given, from, passes;
    ghost var seen;
    if alignment <= a.g {
      p, k, from, seen, passes, ok := Malloc(a, bytes, sys);
      return;
    }
    AlignmentIs(a.g, alignment);
    var al := RoundAlignment(a.g, alignment);
    if OutOfRange(a.g, a.limit, bytes) {
      SelfKept(x);
      return 0, 0, true;
    }
    PaddedIs(a.g, alignment, bytes);
    RequestIs(a.g, bytes);
    var n := Request(a.g, bytes);
    SmallPadding(a, alignment, bytes);
    p, given, seen, ok := TakePadded(a, alignment, bytes, sys);
    if p == 0 { return 0, 0, ok; }
    var ok1;
    assert HandedOut(x, a.Now(), p, given);
    p, given, ok1 := AlignStart(a, x, p, given, al / a.g, n, sys.first);
    ok := ok && ok1;
    k, ok1 := GiveTail(a, x, p, given, n, sys.second);
    ok := ok && ok1;
    MultipleOf(a.g, al, p + 1);
    HandedNonZero(a.Now(), a.g, a.nonMain, x, p, k);
  }

  lemma SmallPadding(a: Arena, alignment: int, bytes: int)
    requires a.Valid() && IsGrain(a.g) && alignment > a.g && bytes >= 0 && Padded(a.g, alignment, bytes) < Bytes(a.g, a.limit)
    ensures a.limit > 0 && Padded(a.g, alignment, bytes) % Bytes(a.g, a.limit) == Padded(a.g, alignment, bytes)
  {
    hide Good, MapOk, HeapsOk, PageEnds, SystemSize, FastbinIndex, NFastbins, WithinLimit, TopKnown, Padded;
    PaddedIs(a.g, alignment, bytes);
    ModSmall(Padded(a.g, alignment, bytes), Bytes(a.g, a.limit));
  }

  method AlignStart(a: Arena, ghost x: St, p: int, given: int, al: int, n: int, remapped: bool) returns (newp: int, newsize: int, ok: bool)
    requires a.Valid() && Good(x, a.g, a.nonMain) && HandedOut(x, a.Now(), p, given) && al >= 2 && n + al + 3 <= given && n >= 2
    modifies a
    ensures ok && a.Valid() && HandedOut(x, a.Now(), newp, newsize) && n <= newsize && (newp + 1) % al == 0
  {
    hide Good, HandedOut, MapOk, HeapsOk, PageEnds, SystemSize, FastbinIndex, NFastbins, Bytes, WithinLimit, UnitsOk,
      TopKnown, KnownTo;
    newp, newsize, ok := p, given, true;
    if (p + 1) % al != 0 {
      var brk := RoundUp(p + 1, al) - 1;
      if brk - p < 2 { brk := brk + al; }
      newp := brk;
      SpotIs(p, 1, al);
      newsize := given - (newp - p);
      ok := GiveLeader(a, x, p, given, newp, remapped);
      assert newsize >= n && (newp + 1) % al == 0;
    }
  }
}
