/** Whole runs: what a client that frees and resizes only its own blocks, once, gets from the allocator. */
module Sessions {
  import opened Memory
  import opened Sizes
  import opened Chunks
  import opened Frames
  import opened Layout
  import opened State
  import opened Arenas
  import opened LiveView
  import opened Consolidating
  import opened FreeAll
  import opened PublicCalls
  import opened Resizing
  import opened Taking
  import opened Searching
  import opened SystemAllocation
  import opened IntMalloc
  import opened SystemCalls
  import opened LiveCuts
  import opened Reallocating
  import opened ClientWrites
  import opened ReallocAll
  import opened Aligning
  import opened Clearing

  // The words of a block, from the one after its size word on.
  datatype Block = Block(even: seq<int>, odd: seq<Word>)

  // What the client sees: its blocks by the address of their chunks.
  type Book = map<int, Block>

  ghost function EvenAt(lo: map<int, int>, k: int): int { if k in lo then lo[k] else 0 }
  ghost function OddAt(hi: map<int, Word>, k: int): Word { if k in hi then hi[k] else Ptr(0) }

  ghost function BlockAt(lo: map<int, int>, hi: map<int, Word>, p: int, n: int): Block {
    if n < 1 then Block([], [])
    else Block(seq(n, j requires 0 <= j < n => EvenAt(lo, p + 1 + j)), seq(n - 1, j requires 0 <= j < n - 1 => OddAt(hi, p + 1 + j)))
  }

  ghost function BookOf(x: St): Book {
    map p | p in x.c && x.c[p].tag == Live :: BlockAt(x.lo, x.hi, p, x.c[p].size)
  }

  datatype Op =
    | Get(bytes: int)
    | GetZeroed(n: int, elem: int)
    | GetAligned(alignment: int, bytes: int)
    | GiveBack(p: int)
    | Resize(p: int, bytes: int)
    | PutEven(p: int, j: int, v: int)
    | PutOdd(p: int, j: int, w: Word)

  // Sizes are size_t values; in an arena of heaps requests pass the guard against grow_heap for a
  // negative amount, and the padding that memalign adds does not wrap around.
  ghost predicate InDomain(a: Arena, half: int, op: Op) {
    && IsGrain(a.g) && half > 0 && half * half == Bytes(a.g, a.limit)
    && match op
      case Get(bytes) => 0 <= bytes < Bytes(a.g, a.limit) && Safe(a, bytes)
      case GetZeroed(n, elem) => 0 <= n < half * half && 0 <= elem < half * half && (n * elem < half * half ==> Safe(a, n * elem))
      case GetAligned(al, bytes) =>
        && 0 <= bytes < Bytes(a.g, a.limit) && (al > a.g && !OutOfRange(a.g, a.limit, bytes) ==> Padded(a.g, al, bytes) < Bytes(a.g, a.limit))
        && (!OutOfRange(a.g, a.limit, bytes) ==> Safe(a, if al > a.g then Padded(a.g, al, bytes) else bytes))
      case Resize(p, bytes) => 0 <= bytes < Bytes(a.g, a.limit) && (p == 0 || bytes != 0 ==> Safe(a, bytes))
      case _ => true
  }

  // A new block at r, of room for bytes; the other blocks are untouched.
  ghost predicate NewBlock(b: Book, r: int, b': Book, g: int, bytes: int) {
    r > 0 && r !in b && r in b' && b' - {r} == b && bytes + g / 2 <= Bytes(g, |b'[r].even|)
  }

  ghost predicate Zeroed(b: Block) {
    (forall v {:trigger v in b.even} :: v in b.even ==> v == 0) && forall w {:trigger w in b.odd} :: w in b.odd ==> w == Size(0, false, false)
  }

  ghost predicate SamePrefix(b: Block, b': Block) {
    && (forall j {:trigger b'.even[j]} :: 0 <= j < |b.even| && j < |b'.even| ==> b'.even[j] == b.even[j])
    && (forall j {:trigger b'.odd[j]} :: 0 <= j < |b.odd| && j < |b'.odd| ==> b'.odd[j] == b.odd[j])
  }

  // What one call with result r does to the client's blocks; a call with a pointer the client does not own is not made.
  ghost predicate Stepped(g: int, b: Book, op: Op, r: int, b': Book) {
    match op
    case Get(bytes) => if r == 0 then b' == b else NewBlock(b, r, b', g, bytes)
    case GetZeroed(n, elem) => if r == 0 then b' == b else NewBlock(b, r, b', g, n * elem) && Zeroed(b'[r])
    case GetAligned(al, bytes) =>
      if r == 0 then b' == b else NewBlock(b, r, b', g, bytes) && (al > g > 0 ==> AlignedTo(g, r + 1, Alignment(g, al)))
    case GiveBack(p) => b' == b - {p}
    case Resize(p, bytes) =>
      if p == 0 then (if r == 0 then b' == b else NewBlock(b, r, b', g, bytes))
      else if p in b && bytes == 0 then r == 0 && b' == b - {p}
      else if p !in b || r == 0 then b' == b
      else
        && r in b' && (r == p || r !in b) && b' - {r} == b - {p}
        && SamePrefix(b[p], b'[r]) && bytes + g / 2 <= Bytes(g, |b'[r].even|)
    case PutEven(p, j, v) =>
      if p in b && 0 <= j < |b[p].even| then b' == b[p := b[p].(even := b[p].even[j := v])] else b' == b
    case PutOdd(p, j, w) =>
      if p in b && 0 <= j < |b[p].odd| then b' == b[p := b[p].(odd := b[p].odd[j := w])] else b' == b
  }

  // ---- the contracts of the operations, read as steps of the client's view

  lemma BookAt(x: St, p: int)
    requires p in x.c && x.c[p].tag == Live
    ensures p in BookOf(x) && BookOf(x)[p] == BlockAt(x.lo, x.hi, p, x.c[p].size)
  {
  }

  lemma BlockKept(x: St, y: St, g: int, nm: bool, p: int)
    requires Good(x, g, nm) && p in x.c && x.c[p].tag == Live && SameBody(x.lo, x.hi, y.lo, y.hi, p, x.c[p].size)
    ensures BlockAt(y.lo, y.hi, p, x.c[p].size) == BlockAt(x.lo, x.hi, p, x.c[p].size)
  {
    hide Good;
    var n := x.c[p].size;
    BodyMapped(x, g, nm, p);
    SameBlock(x.lo, x.hi, y.lo, y.hi, p, n);
  }

  lemma SameBlock(lo: map<int, int>, hi: map<int, Word>, lo': map<int, int>, hi': map<int, Word>, p: int, n: int)
    requires Backed(lo, hi, p, n) && SameBody(lo, hi, lo', hi', p, n)
    ensures BlockAt(lo', hi', p, n) == BlockAt(lo, hi, p, n)
  {
    if n >= 1 {
      var b, b' := BlockAt(lo, hi, p, n), BlockAt(lo', hi', p, n);
      forall j {:trigger b.even[j]} | 0 <= j < n
        ensures b'.even[j] == b.even[j]
      {
        var k := p + 1 + j;
        assert k in lo && b.even[j] == EvenAt(lo, k) && b'.even[j] == EvenAt(lo', k);
      }
      forall j {:trigger b.odd[j]} | 0 <= j < n - 1
        ensures b'.odd[j] == b.odd[j]
      {
        var k := p + 1 + j;
        assert k in hi && b.odd[j] == OddAt(hi, k) && b'.odd[j] == OddAt(hi', k);
      }
      assert b.even == b'.even && b.odd == b'.odd;
    }
  }

  // The blocks but the one at p are as before.
  lemma OthersKept(x: St, y: St, g: int, nm: bool, p: int, q: int)
    requires Good(x, g, nm) && DataKept(x.c, x.lo, x.hi, y.lo, y.hi, p)
    requires LiveOf(y.c) - {q} == LiveOf(x.c) - {p}
    ensures BookOf(y) - {q} == BookOf(x) - {p}
  {
    hide Good, BlockAt, SameBody;
    forall r | r in BookOf(x) && r != p
      ensures r in BookOf(y) && r != q && BookOf(y)[r] == BookOf(x)[r]
    {
      assert r in LiveOf(x.c) - {p} && (LiveOf(x.c) - {p})[r] == x.c[r].size;
      assert r in LiveOf(y.c) - {q} && (LiveOf(y.c) - {q})[r] == x.c[r].size;
      BlockKept(x, y, g, nm, r);
    }
    forall r | r in BookOf(y) && r != q
      ensures r in BookOf(x) && r != p
    {
      assert r in LiveOf(y.c) - {q};
      assert r in LiveOf(x.c) - {p};
    }
  }

  lemma UnnoticedBook(x: St, y: St, g: int, nm: bool)
    requires Good(x, g, nm) && Good(y, g, nm) && Unnoticed(x, y)
    ensures BookOf(y) == BookOf(x)
  {
    NoneAtZero(x, g, nm);
    NoneAtZero(y, g, nm);
    hide Good, BookOf;
    assert LiveOf(y.c) - {0} == LiveOf(x.c) - {0};
    OthersKept(x, y, g, nm, 0, 0);
    assert BookOf(x) - {0} == BookOf(x) && BookOf(y) - {0} == BookOf(y);
  }

  lemma NoneAtZero(x: St, g: int, nm: bool)
    requires Good(x, g, nm)
    ensures 0 !in LiveOf(x.c) && 0 !in BookOf(x)
  {
    if 0 in x.c { TiledAt(x.c, 0); }
  }

  lemma NewBlockBook(x: St, y: St, g: int, nm: bool, p: int, n: int, bytes: int)
    requires Good(x, g, nm) && Good(y, g, nm) && HandedOut(x, y, p, n) && bytes + g / 2 <= Bytes(g, n)
    ensures NewBlock(BookOf(x), p, BookOf(y), g, bytes) && p in y.c && y.c[p].tag == Live && y.c[p].size == n
  {
    HandedNonZero(y, g, nm, x, p, n);
    NoneAtZero(x, g, nm);
    hide Good;
    assert LiveOf(y.c) - {p} == LiveOf(x.c) - {0};
    OthersKept(x, y, g, nm, 0, p);
    assert BookOf(x) - {0} == BookOf(x);
    BookAt(y, p);
    BlockLength(y, g, nm, p);
  }

  lemma BlockLength(x: St, g: int, nm: bool, p: int)
    requires Good(x, g, nm) && p in x.c && x.c[p].tag == Live
    ensures p in BookOf(x) && |BookOf(x)[p].even| == x.c[p].size && |BookOf(x)[p].odd| == x.c[p].size - 1
  {
    LiveIs(x, g, nm, p);
    hide Good;
  }

  lemma ZeroedBook(y: St, p: int, n: int)
    requires ZeroBody(y.lo, y.hi, p, n) && n >= 1
    ensures Zeroed(BlockAt(y.lo, y.hi, p, n))
  {
    var b := BlockAt(y.lo, y.hi, p, n);
    forall j | 0 <= j < n
      ensures b.even[j] == 0
    {
      assert ZeroLoAt(y.lo, p + 1 + j) && b.even[j] == EvenAt(y.lo, p + 1 + j);
    }
    forall j | 0 <= j < n - 1
      ensures b.odd[j] == Size(0, false, false)
    {
      assert ZeroHiAt(y.hi, p + 1 + j) && b.odd[j] == OddAt(y.hi, p + 1 + j);
    }
  }

  lemma GivenBook(x: St, y: St, g: int, nm: bool, p: int)
    requires Good(x, g, nm) && p in x.c && x.c[p].tag == Live && GivenBack(x, y, p)
    ensures BookOf(y) == BookOf(x) - {p}
  {
    assert p !in LiveOf(y.c);
    assert LiveOf(y.c) - {p} == LiveOf(x.c) - {p};
    hide Good;
    OthersKept(x, y, g, nm, p, p);
    assert p !in BookOf(y);
  }

  lemma ResizedBook(x: St, y: St, g: int, nm: bool, p: int, q: int, k: int)
    requires Good(x, g, nm) && Good(y, g, nm) && Reallocated(x, y, p, q, k)
    ensures q in BookOf(y) && (q == p || q !in BookOf(x)) && BookOf(y) - {q} == BookOf(x) - {p}
    ensures p in BookOf(x) && SamePrefix(BookOf(x)[p], BookOf(y)[q]) && |BookOf(y)[q].even| == k
  {
    hide Good, SameBody, Carried;
    assert q in LiveOf(y.c) && LiveOf(y.c)[q] == k;
    assert LiveOf(y.c) - {q} == LiveOf(x.c) - {p};
    OthersKept(x, y, g, nm, p, q);
    BookAt(x, p);
    BookAt(y, q);
    BlockLength(x, g, nm, p);
    BlockLength(y, g, nm, q);
    CarriedPrefix(x, y, p, q, x.c[p].size, k);
  }

  lemma CarriedPrefix(x: St, y: St, p: int, q: int, n: int, k: int)
    requires n >= 1 && k >= 1 && Carried(x.lo, x.hi, p, y.lo, y.hi, q, MinOf(n, k))
    ensures SamePrefix(BlockAt(x.lo, x.hi, p, n), BlockAt(y.lo, y.hi, q, k))
  {
    var b, b' := BlockAt(x.lo, x.hi, p, n), BlockAt(y.lo, y.hi, q, k);
    forall j {:trigger b'.even[j]} | 0 <= j < n && j < k
      ensures b'.even[j] == b.even[j]
    {
      assert LoMoved(x.lo, p, y.lo, q, j + 1) && p + 1 + j == p + (j + 1) && q + 1 + j == q + (j + 1);
      assert b.even[j] == EvenAt(x.lo, p + 1 + j) && b'.even[j] == EvenAt(y.lo, q + 1 + j);
    }
    forall j {:trigger b'.odd[j]} | 0 <= j < n - 1 && j < k - 1
      ensures b'.odd[j] == b.odd[j]
    {
      assert HiMoved(x.hi, p, y.hi, q, j + 1) && p + 1 + j == p + (j + 1) && q + 1 + j == q + (j + 1);
      assert b.odd[j] == OddAt(x.hi, p + 1 + j) && b'.odd[j] == OddAt(y.hi, q + 1 + j);
    }
  }

  lemma PutBook(x: St, y: St, g: int, nm: bool, p: int, b: Block)
    requires Good(x, g, nm) && p in x.c && x.c[p].tag == Live && y.c == x.c && DataKept(x.c, x.lo, x.hi, y.lo, y.hi, p)
    requires b == BlockAt(y.lo, y.hi, p, x.c[p].size)
    ensures BookOf(y) == BookOf(x)[p := b]
  {
    hide Good;
    OthersKept(x, y, g, nm, p, p);
    BookAt(y, p);
    assert BookOf(y) == (BookOf(y) - {p})[p := b];
  }

  lemma PutEvenBook(x: St, y: St, g: int, nm: bool, p: int, j: int, v: int)
    requires Good(x, g, nm) && p in x.c && x.c[p].tag == Live && 0 < j <= x.c[p].size
    requires y == x.(lo := x.lo[p + j := v]) && p + j in x.lo && DataKept(x.c, x.lo, x.hi, y.lo, y.hi, p)
    ensures Stepped(g, BookOf(x), PutEven(p, j - 1, v), 0, BookOf(y))
  {
    BlockLength(x, g, nm, p);
    hide Good;
    var b, b' := BookOf(x)[p], BlockAt(y.lo, y.hi, p, x.c[p].size);
    forall i {:trigger b'.even[i]} | 0 <= i < |b'.even|
      ensures i < |b.even| && b'.even[i] == b.even[j - 1 := v][i]
    {
      assert b.even[i] == EvenAt(x.lo, p + 1 + i) && b'.even[i] == EvenAt(y.lo, p + 1 + i);
    }
    assert |b'.even| == |b.even| && b'.odd == b.odd;
    assert b'.even == b.even[j - 1 := v];
    PutBook(x, y, g, nm, p, b');
  }

  lemma PutOddBook(x: St, y: St, g: int, nm: bool, p: int, j: int, w: Word)
    requires Good(x, g, nm) && p in x.c && x.c[p].tag == Live && 0 < j < x.c[p].size
    requires y == x.(hi := x.hi[p + j := w]) && p + j in x.hi && DataKept(x.c, x.lo, x.hi, y.lo, y.hi, p)
    ensures Stepped(g, BookOf(x), PutOdd(p, j - 1, w), 0, BookOf(y))
  {
    BlockLength(x, g, nm, p);
    hide Good;
    var b, b' := BookOf(x)[p], BlockAt(y.lo, y.hi, p, x.c[p].size);
    forall i {:trigger b'.odd[i]} | 0 <= i < |b'.odd|
      ensures i < |b.odd| && b'.odd[i] == b.odd[j - 1 := w][i]
    {
      assert b.odd[i] == OddAt(x.hi, p + 1 + i) && b'.odd[i] == OddAt(y.hi, p + 1 + i);
    }
    assert b'.odd == b.odd[j - 1 := w] && b'.even == b.even;
    PutBook(x, y, g, nm, p, b');
  }

  // Two blocks share no word.
  ghost predicate Disjoint(b: Book) {
    forall p, q {:trigger p in b, q in b} :: p in b && q in b && p < q ==> p + |b[p].even| <= q
  }

  lemma BlocksDisjoint(x: St, g: int, nm: bool)
    requires Good(x, g, nm)
    ensures Disjoint(BookOf(x))
  {
    var b := BookOf(x);
    forall p, q {:trigger p in b, q in b} | p in b && q in b && p < q
      ensures p + |b[p].even| <= q
    {
      BlockLength(x, g, nm, p);
      TiledApart(x.c, p, q);
    }
  }

  // ---- one call

  // Neither the heap with the regions rs and the chunks c nor the system has a block for the call,
  // or it asks for more than there can be.
  ghost predicate Refusable(a: Arena, half: int, rs: seq<Region>, c: map<int, Chunk>, op: Op, sys: Answers)
    requires a.g > 0
  {
    match op
    case Get(bytes) => OutOfRange(a.g, a.limit, bytes) || Starved(a, rs, c, Request(a.g, bytes), sys)
    case GetZeroed(n, elem) =>
      n * elem >= half * half || OutOfRange(a.g, a.limit, n * elem) || Starved(a, rs, c, Request(a.g, n * elem), sys)
    case GetAligned(al, bytes) =>
      var m := if al > a.g then Padded(a.g, al, bytes) else bytes;
      OutOfRange(a.g, a.limit, bytes) || OutOfRange(a.g, a.limit, m) || Starved(a, rs, c, Request(a.g, m), sys)
    case Resize(p, bytes) =>
      var n := Request(a.g, bytes);
      if p == 0 then OutOfRange(a.g, a.limit, bytes) || Starved(a, rs, c, n, sys)
      else
        || p !in c || c[p].tag != Live || bytes == 0 || OutOfRange(a.g, a.limit, bytes)
        || OutOfRange(a.g, a.limit, Bytes(a.g, n) - (a.g - 1)) || Starved(a, rs, c, n, sys)
    case _ => true
  }

  method Allocate(a: Arena, half: int, op: Op, sys: Answers, used: int) returns (r: int, k: int, ok: bool)
    requires a.Valid() && InDomain(a, half, op) && (op.Get? || op.GetZeroed? || op.GetAligned?)
    modifies a
    ensures ok && a.Valid() && Stepped(a.g, BookOf(old(a.Now())), op, r, BookOf(a.Now()))
    ensures if r == 0 then LiveOf(a.chunks) == LiveOf(old(a.chunks)) else LiveOf(a.chunks) == LiveOf(old(a.chunks))[r := k]
    ensures r == 0 ==> a.g > 0 && Refusable(a, half, old(a.regions), old(a.chunks), op, sys)
  {
    hide Exhausted, NoMore, Good, HandedOut, MapOk, HeapsOk, PageEnds, SystemSize, FastbinIndex, NFastbins, Bytes, WithinLimit, UnitsOk,
      FreshPast, OutOfRange, BestFit, TookFree, NoFit, LiveOf, TopKnown, Request, Zeroed, ZeroBody, BookOf, NewBlock,
      Unnoticed, Alignment, KnownTo;
    ghost var x := a.Now();
    match op {
      case Get(bytes) =>
        var from, passes;
        ghost var seen;
        r, k, from, seen, passes, ok := Malloc(a, bytes, sys);
        if r != 0 { Room(a.g, bytes, k); }
      case GetZeroed(n, elem) =>
        r, k, ok := Calloc(a, n, elem, half, sys, used);
        if r != 0 { Cleared(x, a.Now(), a.g, a.nonMain, r, k, n * elem); }
      case GetAligned(al, bytes) =>
        r, k, ok := Memalign(a, al, bytes, sys);
        if r != 0 { Room(a.g, bytes, k); }
    }
    if r == 0 {
      UnnoticedBook(x, a.Now(), a.g, a.nonMain);
      assert Unnoticed(x, a.Now());
      SameLive(x, a.Now());
    } else {
      assert HandedOut(x, a.Now(), r, k);
      OneMoreLive(x, a.Now(), r, k);
      if !op.GetZeroed? { NewBlockBook(x, a.Now(), a.g, a.nonMain, r, k, op.bytes); }
    }
  }

  lemma SameLive(x: St, y: St)
    requires Unnoticed(x, y)
    ensures LiveOf(y.c) == LiveOf(x.c)
  {
  }

  lemma OneMoreLive(x: St, y: St, r: int, k: int)
    requires HandedOut(x, y, r, k)
    ensures LiveOf(y.c) == LiveOf(x.c)[r := k]
  {
  }

  lemma Room(g: int, bytes: int, k: int)
    requires IsGrain(g) && bytes >= 0 && k >= Request(g, bytes)
    ensures bytes + g / 2 <= Bytes(g, k)
  {
    RequestIs(g, bytes);
  }

  lemma Cleared(x: St, y: St, g: int, nm: bool, p: int, n: int, bytes: int)
    requires Good(x, g, nm) && Good(y, g, nm) && HandedOut(x, y, p, n) && ZeroBody(y.lo, y.hi, p, n) && bytes + g / 2 <= Bytes(g, n)
    ensures NewBlock(BookOf(x), p, BookOf(y), g, bytes) && Zeroed(BookOf(y)[p])
  {
    NewBlockBook(x, y, g, nm, p, n, bytes);
    LiveIs(y, g, nm, p);
    hide Good, ZeroBody, Zeroed;
    BookAt(y, p);
    ZeroedBook(y, p, n);
  }

  // What the client knows of its blocks: where they are, and how many granules it can use.
  method Perform(a: Arena, half: int, op: Op, owned0: map<int, int>, sys: Answers, used: int) returns (r: int, owned: map<int, int>, ok: bool)
    requires a.Valid() && InDomain(a, half, op) && owned0 == LiveOf(a.chunks)
    modifies a
    ensures ok && a.Valid() && owned == LiveOf(a.chunks)
    ensures Stepped(a.g, BookOf(old(a.Now())), op, r, BookOf(a.Now()))
    ensures r == 0 ==> a.g > 0 && Refusable(a, half, old(a.regions), old(a.chunks), op, sys)
  {
    hide Starved, Good, MapOk, HeapsOk, PageEnds, SystemSize, FastbinIndex, NFastbins, Bytes, WithinLimit, UnitsOk, OutOfRange,
      TopKnown, Request, BookOf, Unnoticed, Reallocated, GivenBack, DataKept, KnownTo;
    ghost var x := a.Now();
    BookKeys(x);
    NoneAtZero(x, a.g, a.nonMain);
    r, owned, ok := 0, owned0, true;
    match op {
      case GiveBack(p) =>
        if p == 0 || p in owned0 {
          ok := PublicFree(a, p, sys.first);
          owned := owned0 - {p};
          if p != 0 {
            GivenBook(x, a.Now(), a.g, a.nonMain, p);
            GivenLive(x, a.Now(), p);
          } else {
            assert owned0 - {0} == owned0 && BookOf(x) - {0} == BookOf(x);
          }
        } else {
          assert BookOf(x) - {p} == BookOf(x);
        }
      case Resize(p, bytes) =>
        if p == 0 || p in owned0 {
          var k;
          r, k, ok := PublicRealloc(a, p, bytes, sys);
          if p != 0 && bytes == 0 {
            owned := owned0 - {p};
            GivenBook(x, a.Now(), a.g, a.nonMain, p);
            GivenLive(x, a.Now(), p);
          } else if p == 0 && r != 0 {
            owned := owned0[r := k];
            Room(a.g, bytes, k);
            NewBlockBook(x, a.Now(), a.g, a.nonMain, r, k, bytes);
            OneMoreLive(x, a.Now(), r, k);
          } else if r != 0 {
            owned := (owned0 - {p})[r := k];
            ResizedBook(x, a.Now(), a.g, a.nonMain, p, r, k);
            ResizedLive(x, a.Now(), p, r, k);
            Room(a.g, bytes, k);
          } else {
            UnnoticedBook(x, a.Now(), a.g, a.nonMain);
            SameLive(x, a.Now());
          }
        }
      case PutEven(p, j, v) =>
        if p in owned0 && 0 <= j < owned0[p] {
          StoreEven(a, p, j + 1, v);
          PutEvenBook(x, a.Now(), a.g, a.nonMain, p, j + 1, v);
        } else if p in owned0 {
          BlockLength(x, a.g, a.nonMain, p);
        }
      case PutOdd(p, j, w) =>
        if p in owned0 && 0 <= j < owned0[p] - 1 {
          StoreOdd(a, p, j + 1, w);
          PutOddBook(x, a.Now(), a.g, a.nonMain, p, j + 1, w);
        } else if p in owned0 {
          BlockLength(x, a.g, a.nonMain, p);
        }
      case _ =>
        var k;
        r, k, ok := Allocate(a, half, op, sys, used);
        if r != 0 { owned := owned0[r := k]; }
    }
  }

  lemma BookKeys(x: St)
    ensures BookOf(x).Keys == LiveOf(x.c).Keys
    ensures forall p :: p in LiveOf(x.c) <==> p in x.c && x.c[p].tag == Live
    ensures forall p :: p in LiveOf(x.c) ==> LiveOf(x.c)[p] == x.c[p].size
  {
  }

  lemma GivenLive(x: St, y: St, p: int)
    requires GivenBack(x, y, p)
    ensures LiveOf(y.c) == LiveOf(x.c) - {p}
  {
  }

  lemma ResizedLive(x: St, y: St, p: int, q: int, k: int)
    requires Reallocated(x, y, p, q, k)
    ensures LiveOf(y.c) == (LiveOf(x.c) - {p})[q := k]
  {
  }

  // ---- a run

  ghost predicate Runs(g: int, books: seq<Book>, ops: seq<Op>, rs: seq<int>) {
    && |books| == |ops| + 1 && |rs| == |ops|
    && (forall i {:trigger ops[i]} :: 0 <= i < |ops| ==> Stepped(g, books[i], ops[i], rs[i], books[i + 1]))
    && forall i {:trigger books[i]} :: 0 <= i < |books| ==> Disjoint(books[i])
  }

  // In the heaps the run goes through, a call gives 0 only if neither the heap nor the system has a block for it.
  ghost predicate Justified(a: Arena, half: int, heaps: seq<St>, ops: seq<Op>, syss: seq<Answers>, rs: seq<int>)
    requires a.g > 0
  {
    && |rs| == |ops| <= |syss| && |heaps| == |ops| + 1
    && forall i {:trigger rs[i]} :: 0 <= i < |ops| && rs[i] == 0 ==> Refusable(a, half, heaps[i].rs, heaps[i].c, ops[i], syss[i])
  }

  // Any sequence of calls and stores: no integrity check fires, the heap stays well formed, the blocks never overlap,
  // and each holds what the client left in it. The system answers in each call as it likes.
  method Play(a: Arena, half: int, ops: seq<Op>, syss: seq<Answers>, used: seq<int>)
      returns (rs: seq<int>, ghost books: seq<Book>, ghost heaps: seq<St>, ok: bool)
    requires a.Valid() && LiveOf(a.chunks) == map[] && |syss| == |used| == |ops|
    requires forall i {:trigger ops[i]} :: 0 <= i < |ops| ==> InDomain(a, half, ops[i])
    modifies a
    ensures ok && a.Valid() && Runs(a.g, books, ops, rs) && books[0] == map[] && books[|ops|] == BookOf(a.Now())
    ensures a.g > 0 && Justified(a, half, heaps, ops, syss, rs) && forall i :: 0 <= i <= |ops| ==> books[i] == BookOf(heaps[i])
  {
    hide Refusable, Good, MapOk, HeapsOk, PageEnds, SystemSize, FastbinIndex, NFastbins, Bytes, WithinLimit, UnitsOk, TopKnown,
      BookOf, Disjoint, Stepped, InDomain, KnownTo;
    BookKeys(a.Now());
    BlocksDisjoint(a.Now(), a.g, a.nonMain);
    assert BookOf(a.Now()) == map[] by { assert BookOf(a.Now()).Keys == {}; }
    var owned: map<int, int> := map[];
    rs, books, heaps, ok := [], [BookOf(a.Now())], [a.Now()], true;
    GoodParts(a.Now(), a.g, a.nonMain);
    while |rs| < |ops|
      invariant |rs| <= |ops| && ok && a.Valid() && owned == LiveOf(a.chunks)
      invariant Runs(a.g, books, ops[..|rs|], rs) && books[0] == map[] && books[|rs|] == BookOf(a.Now())
      invariant Justified(a, half, heaps, ops[..|rs|], syss, rs) && heaps[|rs|] == a.Now()
      invariant forall i :: 0 <= i <= |rs| ==> books[i] == BookOf(heaps[i])
    {
      var r, ok1;
      r, owned, ok1 := Perform(a, half, ops[|rs|], owned, syss[|rs|], used[|rs|]);
      BlocksDisjoint(a.Now(), a.g, a.nonMain);
      RunsMore(a.g, books, ops, rs, r, BookOf(a.Now()));
      JustifiedMore(a, half, heaps, ops, syss, rs, r, a.Now());
      rs, books, heaps, ok := rs + [r], books + [BookOf(a.Now())], heaps + [a.Now()], ok && ok1;
    }
    assert ops[..|rs|] == ops;
  }

  lemma JustifiedMore(a: Arena, half: int, heaps: seq<St>, ops: seq<Op>, syss: seq<Answers>, rs: seq<int>, r: int, y: St)
    requires a.g > 0 && |rs| < |ops| == |syss| && Justified(a, half, heaps, ops[..|rs|], syss, rs)
    requires r == 0 ==> Refusable(a, half, heaps[|rs|].rs, heaps[|rs|].c, ops[|rs|], syss[|rs|])
    ensures Justified(a, half, heaps + [y], ops[..|rs| + 1], syss, rs + [r])
  {
    hide Refusable;
    var n := |rs|;
    forall i {:trigger (rs + [r])[i]} | 0 <= i <= n && (rs + [r])[i] == 0
      ensures Refusable(a, half, (heaps + [y])[i].rs, (heaps + [y])[i].c, ops[..n + 1][i], syss[i])
    {
      if i < n { assert rs[i] == 0 && ops[..n][i] == ops[i]; }
    }
  }

  lemma RunsMore(g: int, books: seq<Book>, ops: seq<Op>, rs: seq<int>, r: int, b: Book)
    requires |rs| < |ops| && Runs(g, books, ops[..|rs|], rs) && Stepped(g, books[|rs|], ops[|rs|], r, b) && Disjoint(b)
    ensures Runs(g, books + [b], ops[..|rs| + 1], rs + [r])
  {
    hide Stepped, Disjoint;
    var n := |rs|;
    forall i {:trigger ops[..n + 1][i]} | 0 <= i <= n
      ensures Stepped(g, (books + [b])[i], ops[..n + 1][i], (rs + [r])[i], (books + [b])[i + 1])
    {
      if i < n { assert ops[..n][i] == ops[i]; }
    }
  }

  // A call that is not about p.
  predicate Elsewhere(op: Op, p: int) {
    match op
    case GiveBack(q) => q != p
    case Resize(q, _) => q != p
    case PutEven(q, _, _) => q != p
    case PutOdd(q, _, _) => q != p
    case _ => true
  }

  // What a block holds after any number of calls about other blocks is what it held before.
  lemma {:induction false} BlockStays(g: int, books: seq<Book>, ops: seq<Op>, rs: seq<int>, p: int, i: int, k: int)
    requires Runs(g, books, ops, rs) && 0 <= i <= k <= |ops| && p in books[i]
    requires forall j {:trigger ops[j]} :: i <= j < k ==> Elsewhere(ops[j], p)
    ensures p in books[k] && books[k][p] == books[i][p]
    decreases k - i
  {
    hide Disjoint;
    if i < k {
      BlockStays(g, books, ops, rs, p, i, k - 1);
      StepStays(g, books[k - 1], ops[k - 1], rs[k - 1], books[k], p);
    }
  }

  lemma StepStays(g: int, b: Book, op: Op, r: int, b': Book, p: int)
    requires Stepped(g, b, op, r, b') && p in b && Elsewhere(op, p)
    ensures p in b' && b'[p] == b[p]
  {
    hide Zeroed, SamePrefix, Alignment;
    match op
    case Resize(q, bytes) =>
      if q in b && r != 0 { assert r != p && p in b - {q} && (b - {q})[p] == b[p]; }
      if r != 0 && (q == 0 || q in b) { assert p in b' - {r}; }
    case Get(_) => if r != 0 { assert p in b' - {r}; }
    case GetZeroed(_, _) => if r != 0 { assert p in b' - {r}; }
    case GetAligned(_, _) => if r != 0 { assert p in b' - {r}; }
    case _ =>
  }
}
