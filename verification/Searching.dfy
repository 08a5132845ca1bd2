/** The fastbin and small bin paths, the loop over the unsorted list, and best fit. */
module Searching {
  import opened Memory
  import opened Sizes
  import opened BinLists
  import opened Chunks
  import opened Frames
  import opened FastLists
  import opened Layout
  import opened State
  import opened Arenas
  import opened LiveView
  import opened Consolidating
  import opened HeapTrim
  import opened Taking
  import opened Carving
  import opened UnsortedList

  // v is a smallest free chunk of at least n granules.
  ghost predicate BestFit(c: map<int, Chunk>, v: int, n: int) {
    && v in c && c[v].tag == Binned && n <= c[v].size
    && forall q {:trigger c[q]} :: q in c && c[q].tag == Binned && n <= c[q].size ==> c[v].size <= c[q].size
  }

  ghost predicate NoFit(c: map<int, Chunk>, n: int) {
    forall q {:trigger c[q]} :: q in c && c[q].tag == Binned ==> c[q].size < n
  }

  // v, or the first n granules of it, is in use; a rest of at least MINSIZE is free.
  ghost predicate TookFree(c: map<int, Chunk>, d: map<int, Chunk>, v: int, n: int) {
    && v in c && c[v].tag == Binned && n <= c[v].size
    && d == (if c[v].size - n < 2 then Retag(c, v, Live) else Split(c, v, n, Live, Binned))
  }

  // ---- the fastbin of the request

  method FastPop(a: Arena, n: int) returns (p: int, ok: bool)
    requires a.Valid() && n >= 2 && Bytes(a.g, n) <= a.maxFast
    modifies a`fastbins, a`chunks, a`fast
    ensures ok && a.Valid()
    ensures if p == 0 then a.Now() == old(a.Now()) else HandedOut(old(a.Now()), a.Now(), p, n) && old(a.haveFast)
    ensures 0 <= FastbinIndex(Bytes(a.g, n)) < |old(a.fastbins)| && p == old(a.fastbins)[FastbinIndex(Bytes(a.g, n))]
    ensures p != 0 ==> p in old(a.chunks) && a.chunks == Retag(old(a.chunks), p, Live)
  {
    hide Good, HandedOut;
    ghost var x := a.Now();
    var idx := FastbinIndex(Bytes(a.g, n));
    GrainOf(x, a.g, a.nonMain);
    p := a.fastbins[idx];
    ok := true;
    if p != 0 {
      PopGood(x, a.g, a.nonMain, idx);
      FastHeadSize(x, a.g, a.nonMain, p);
      if FastbinIndex(Bytes(a.g, a.hi[p].n)) != idx { return p, false; }
      ghost var y := Popped(x, idx);
      a.fastbins := a.fastbins[idx := a.lo[p + 1]];
      a.chunks := y.c;
      a.fast := y.f;
      PoppedOut(x, y, p);
    }
  }

  lemma GrainOf(x: St, g: int, nm: bool)
    requires Good(x, g, nm)
    ensures IsGrain(g)
  {
  }

  lemma FastHeadSize(x: St, g: int, nm: bool, p: int)
    requires Good(x, g, nm) && p in x.c && x.c[p].tag == Fast
    ensures p in x.hi && x.hi[p].Size? && x.hi[p].n == x.c[p].size && p != 0
  {
    assert HeadAt(x.c, x.lo, x.hi, nm, p) && ChunkAt(x.c, p);
  }

  lemma PoppedOut(x: St, y: St, p: int)
    requires p in x.c && x.c[p].tag == Fast
    requires y.c == Retag(x.c, p, Live) && y.lo == x.lo && y.hi == x.hi
    ensures HandedOut(x, y, p, x.c[p].size)
  {
  }

  // ---- the small bin of the request

  method SmallHit(a: Arena, n: int) returns (p: int)
    requires a.Valid() && n >= 2 && InSmallbinRange(Bytes(a.g, n))
    modifies a`lo, a`hi, a`slots, a`chunks
    ensures a.Valid()
    ensures if p == 0 then a.Now() == old(a.Now()) && NoExact(a.slots, a.chunks, n) else HandedOut(old(a.Now()), a.Now(), p, n)
    ensures p != 0 ==> TookFree(old(a.chunks), a.chunks, p, n) && PrevUsed(a.hi, p) && LastOfBin(old(a.slots), p)
    ensures p != 0 ==> !NoExact(old(a.slots), old(a.chunks), n)
  {
    hide Good, HandedOut, HeapsOk, PageEnds, MapOk, WroteLo, WroteHi, Linked, NoExact, KnownTo;
    ghost var x := a.Now();
    GoodParts(x, a.g, a.nonMain);
    BinIndexRange(a.g, n);
    var idx := SmallbinIndex(Bytes(a.g, n));
    EmptyBin(a.slots, a.lo, a.hi, idx);
    var victim := a.hi[Hdr(idx) + 1].to;
    if victim == Hdr(idx) {
      EmptyIsNoExact(x, a.g, a.nonMain, idx, n);
      return 0;
    }
    a.RemoveLast(idx, victim);
    SlotIs(x, a.g, a.nonMain, victim);
    SmallBinExact(a.g, n, x.c[victim].size);
    IsExact(x.s, x.c, n, victim);
    assert OffList(x, a.Now(), a.g, a.nonMain, victim);
    MapStaysOk(x.s, a.slots, a.binmap);
    TakeOut(a, x, victim, n);
    return victim;
  }

  lemma IsExact(s: map<int, Slot>, c: map<int, Chunk>, n: int, v: int)
    requires v in s && s[v].bin >= 2 && v in c && c[v].size == n
    ensures !NoExact(s, c, n)
  {
  }

  lemma GoodParts(x: St, g: int, nm: bool)
    requires Good(x, g, nm)
    ensures IsGrain(g) && Linked(x.s, x.lo, x.hi) && Indexed(x.s, x.c, g)
  {
  }

  lemma SlotIs(x: St, g: int, nm: bool, v: int)
    requires Good(x, g, nm) && v in x.s
    ensures v in x.c && x.c[v].tag == Binned && v != 0 && x.c[v].size >= 2 && x.rs != []
    ensures x.s[v].bin >= 2 ==> BinIndex(Bytes(g, x.c[v].size)) == x.s[v].bin
    ensures v in x.hi && x.hi[v] == Size(x.c[v].size, true, false)
  {
    hide Linked, FastLinked, FastIndexed;
    assert SlotFits(x.s, x.c, g, v);
    BinnedIs(x, g, nm, v);
    ChunksInRegions(x, g, nm, v);
  }

  lemma EmptyIsNoExact(x: St, g: int, nm: bool, i: int, n: int)
    requires Good(x, g, nm) && i == BinIndex(Bytes(g, n))
    requires forall q :: q in x.s ==> x.s[q].bin != i
    ensures NoExact(x.s, x.c, n)
  {
    hide Good;
    forall q {:trigger q in x.s} | q in x.s && x.s[q].bin >= 2
      ensures q in x.c && x.c[q].size != n
    {
      SlotIs(x, g, nm, q);
    }
  }

  // ---- sort the unsorted list

  // A chunk of the unsorted list fits exactly.
  ghost predicate HasExact(s: map<int, Slot>, c: map<int, Chunk>, n: int) {
    exists q :: q in s && s[q].bin == 1 && q in c && c[q].size == n
  }

  // The last remainder came onto the list last, so that it is alone when its turn comes, and a small
  // request leaves more than MINSIZE of it.
  ghost predicate SplitsLast(s: map<int, Slot>, c: map<int, Chunk>, n: int, last: int, small: bool) {
    && small && last in s && s[last].bin == 1 && last in c && c[last].size > n + 2
    && forall q {:trigger s[q]} :: q in s && s[q].bin == 1 && q != last ==> s[last].key < s[q].key
  }

  // v fits exactly, and no chunk that has been on the list for longer does.
  ghost predicate FirstExact(s: map<int, Slot>, c: map<int, Chunk>, n: int, v: int) {
    && v in s && s[v].bin == 1 && v in c && c[v].size == n
    && forall q {:trigger s[q]} :: q in s && s[q].bin == 1 && q in c && s[q].key > s[v].key ==> c[q].size != n
  }

  // v is what the unsorted list gives for the request: the first exact fit, or else the last remainder, or else nothing.
  ghost predicate Chosen(s: map<int, Slot>, c: map<int, Chunk>, n: int, last: int, small: bool, v: int) {
    if HasExact(s, c, n) then v != 0 && FirstExact(s, c, n, v)
    else if SplitsLast(s, c, n, last, small) then v == last != 0
    else v == 0
  }

  // What is left of the unsorted list s is t: its end has been looked at, and nothing there fits.
  ghost predicate LookedAt(s: map<int, Slot>, t: map<int, Slot>, c: map<int, Chunk>, n: int) {
    && (forall q {:trigger t[q]} :: q in t && t[q].bin == 1 ==> q in s && s[q] == t[q])
    && (forall q {:trigger s[q]} :: q in s && s[q].bin == 1 && !(q in t && t[q].bin == 1) ==> q in c && c[q].size != n)
    && (forall q, r {:trigger s[q], t[r]} :: q in s && s[q].bin == 1 && !(q in t && t[q].bin == 1) && r in t && t[r].bin == 1 ==> t[r].key < s[q].key)
  }

  lemma LookedOn(s: map<int, Slot>, t: map<int, Slot>, u: map<int, Slot>, c: map<int, Chunk>, n: int, v: int)
    requires LookedAt(s, t, c, n) && v in t && t[v].bin == 1 && LastOfBin(t, v) && v in c && c[v].size != n
    requires v in u && u[v].bin >= 2 && u - {v} == t - {v}
    ensures LookedAt(s, u, c, n)
  {
    forall q {:trigger u[q]} | q in u && u[q].bin == 1
      ensures q in t && t[q] == u[q] && q in s && s[q] == u[q]
    {
      assert q in u - {v} && (u - {v})[q] == u[q];
      assert q in t - {v};
    }
    forall q {:trigger s[q]} | q in s && s[q].bin == 1 && !(q in u && u[q].bin == 1)
      ensures q == v || !(q in t && t[q].bin == 1)
    {
      if q != v && q in t { assert q in t - {v} && (t - {v})[q] == t[q]; }
    }
  }

  // What the loop has found when it takes v, or has come to the end of the list.
  lemma Found(s: map<int, Slot>, t: map<int, Slot>, c: map<int, Chunk>, n: int, v: int, last: int, small: bool)
    requires LookedAt(s, t, c, n) && v in t && t[v].bin == 1 && LastOfBin(t, v) && v in c && Suits(t, c, v, n, last, small)
    ensures if c[v].size == n then FirstExact(s, c, n, v) && HasExact(s, c, n) else v == last && SplitsLast(s, c, n, last, small) && !HasExact(s, c, n)
  {
    assert s[v] == t[v];
    forall q {:trigger s[q]} | q in s && s[q].bin == 1 && q != v
      ensures s[q].key > s[v].key ==> q in c && c[q].size != n
      ensures SoleUnsorted(t, v) ==> s[v].key < s[q].key && q in c && c[q].size != n
    {
      if q in t && t[q].bin == 1 { assert s[q] == t[q]; } else { assert t[v].key < s[q].key; }
    }
  }

  lemma NoneFound(s: map<int, Slot>, t: map<int, Slot>, c: map<int, Chunk>, n: int, last: int, small: bool)
    requires LookedAt(s, t, c, n) && NoneUnsorted(t) && (Gone(s, t, last) ==> !SplitsLast(s, c, n, last, small))
    ensures !HasExact(s, c, n) && !SplitsLast(s, c, n, last, small)
  {
  }

  lemma AloneThen(s: map<int, Slot>, t: map<int, Slot>, c: map<int, Chunk>, n: int, v: int, small: bool)
    requires LookedAt(s, t, c, n) && v in t && t[v].bin == 1 && LastOfBin(t, v) && SplitsLast(s, c, n, v, small)
    ensures SoleUnsorted(t, v)
  {
    assert s[v] == t[v];
    forall q {:trigger t[q]} | q in t && t[q].bin == 1
      ensures q == v
    {
      assert s[q] == t[q];
    }
  }

  // The last remainder is not passed over.
  lemma NotSplit(s: map<int, Slot>, t: map<int, Slot>, c: map<int, Chunk>, n: int, v: int, last: int, small: bool)
    requires LookedAt(s, t, c, n) && v in t && t[v].bin == 1 && LastOfBin(t, v) && v in c && !Suits(t, c, v, n, last, small)
    ensures v == last ==> !SplitsLast(s, c, n, last, small)
  {
    if v == last && SplitsLast(s, c, n, last, small) { AloneThen(s, t, c, n, v, small); }
  }

  lemma NothingLooked(s: map<int, Slot>, c: map<int, Chunk>, n: int)
    ensures LookedAt(s, s, c, n)
  {
  }

  // v was on the unsorted list s and is not on t any more.
  ghost predicate Gone(s: map<int, Slot>, t: map<int, Slot>, v: int) { v in s && s[v].bin == 1 && !(v in t && t[v].bin == 1) }

  lemma PassedOver(s: map<int, Slot>, t: map<int, Slot>, u: map<int, Slot>, c: map<int, Chunk>, n: int, v: int, last: int, small: bool)
    requires LookedAt(s, t, c, n) && v in t && t[v].bin == 1 && LastOfBin(t, v) && v in c && !Suits(t, c, v, n, last, small)
    requires v in u && u[v].bin >= 2 && u - {v} == t - {v} && (Gone(s, t, last) ==> !SplitsLast(s, c, n, last, small))
    ensures LookedAt(s, u, c, n) && (Gone(s, u, last) ==> !SplitsLast(s, c, n, last, small))
  {
    LookedOn(s, t, u, c, n, v);
    NotSplit(s, t, c, n, v, last, small);
    if Gone(s, u, last) && last != v && last in t {
      assert last in t - {v} && (t - {v})[last] == t[last];
    }
  }

  // for as long as the list has a last chunk
  method SortUnsorted(a: Arena, n: int) returns (victim: int, ok: bool)
    requires a.Valid() && n >= 2 && (InSmallbinRange(Bytes(a.g, n)) ==> NoExact(a.slots, a.chunks, n))
    modifies a`lo, a`hi, a`slots, a`chunks, a`binmap, a`lastRemainder
    ensures ok && a.Valid()
    ensures victim != 0 ==> HandedOut(old(a.Now()), a.Now(), victim, n) && PrevUsed(a.hi, victim)
    ensures victim != 0 ==> TookUnsorted(old(a.chunks), a.chunks, victim, n, old(a.lastRemainder), InSmallbinRange(Bytes(a.g, n)))
    ensures victim == 0 ==> Unnoticed(old(a.Now()), a.Now()) && a.chunks == old(a.chunks)
    ensures victim == 0 ==> NoneUnsorted(a.slots) && (InSmallbinRange(Bytes(a.g, n)) ==> NoExact(a.slots, a.chunks, n))
    ensures victim == 0 ==> a.lastRemainder == old(a.lastRemainder)
    ensures victim != 0 ==> victim in old(a.chunks)
    ensures victim != 0 ==> a.lastRemainder == NewRemainder(old(a.chunks), victim, n, old(a.lastRemainder), InSmallbinRange(Bytes(a.g, n)))
    ensures Chosen(old(a.slots), old(a.chunks), n, old(a.lastRemainder), InSmallbinRange(Bytes(a.g, n)), victim)
  {
    hide TookUnsorted, LookedAt, Suits, LastOfBin, SplitsLast, HasExact, FirstExact, InSmallbinRange, Good, Unnoticed, HandedOut,
      NoExact, MapOk, HeapsOk, PageEnds, BinIndex, FastbinIndex, NFastbins, SystemSize, Bytes, TopKnown, Linked, KnownTo;
    ghost var last, small := a.lastRemainder, InSmallbinRange(Bytes(a.g, n));
    ghost var x := a.Now();
    SelfKept(x);
    HeaderReads(x, a.g, a.nonMain);
    ok := true;
    NothingLooked(x.s, x.c, n);
    victim := a.hi[Hdr(1) + 1].to;
    while victim != Hdr(1)
      invariant ok && a.Valid() && Unnoticed(x, a.Now()) && a.chunks == x.c && a.lastRemainder == old(a.lastRemainder)
      invariant InSmallbinRange(Bytes(a.g, n)) ==> NoExact(a.slots, a.chunks, n)
      invariant Hdr(1) + 1 in a.hi && a.hi[Hdr(1) + 1] == Ptr(victim)
      invariant LookedAt(x.s, a.slots, x.c, n) && (Gone(x.s, a.slots, last) ==> !SplitsLast(x.s, x.c, n, last, small))
      decreases Unsorteds(a.slots)
    {
      ghost var y := a.Now();
      var taken, ok1 := SortOne(a, n, victim);
      ok := ok && ok1;
      if taken {
        Found(x.s, y.s, x.c, n, victim, last, small);
        UnnoticedThenOut(x, y, a.Now(), victim, n);
        HandedNonZero(a.Now(), a.g, a.nonMain, y, victim, n);
        return;
      }
      PassedOver(x.s, y.s, a.slots, x.c, n, victim, last, small);
      UnnoticedTrans(x, y, a.Now());
      HeaderReads(a.Now(), a.g, a.nonMain);
      victim := a.hi[Hdr(1) + 1].to;
    }
    victim := 0;
    NoneLeftUnsorted(a.Now(), a.g, a.nonMain);
    NoneFound(x.s, a.slots, x.c, n, last, small);
  }

  lemma HeaderReads(x: St, g: int, nm: bool)
    requires Good(x, g, nm)
    ensures Hdr(1) + 1 in x.hi && x.hi[Hdr(1) + 1].Ptr?
  {
    assert LinkAt(x.s, x.lo, x.hi, Hdr(1));
  }

  lemma NoneLeftUnsorted(x: St, g: int, nm: bool)
    requires Good(x, g, nm) && Hdr(1) + 1 in x.hi && x.hi[Hdr(1) + 1] == Ptr(Hdr(1))
    ensures NoneUnsorted(x.s)
  {
    EmptyBin(x.s, x.lo, x.hi, 1);
  }

  lemma UnnoticedThenOut(x: St, y: St, z: St, p: int, n: int)
    requires Unnoticed(x, y) && HandedOut(y, z, p, n)
    ensures HandedOut(x, z, p, n)
  {
    hide DataKept, LiveOf;
    DataTrans(x.c, y.c, x.lo, x.hi, y.lo, y.hi, z.lo, z.hi, 0);
  }

  lemma HandedNonZero(x: St, g: int, nm: bool, y: St, p: int, n: int)
    requires Good(x, g, nm) && HandedOut(y, x, p, n)
    ensures p > 0 && p in x.c && x.c[p].tag == Live && x.c[p].size == n
  {
    assert p in LiveOf(x.c) && LiveOf(x.c)[p] == n;
    assert ChunkAt(x.c, p);
  }
}
