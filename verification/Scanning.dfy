/** The search of one large bin. */
module Scanning {
  import opened Memory
  import opened Sizes
  import opened BinLists
  import opened Chunks
  import opened Frames
  import opened FastLists
  import opened Layout
  import opened State
  import opened Arenas
  import opened Freeing
  import opened Taking
  import opened Carving
  import opened Sorting
  import opened UnsortedList
  import opened Searching

  // The bins before bin k hold nothing of n granules or more.
  ghost predicate Passed(s: map<int, Slot>, c: map<int, Chunk>, n: int, k: int) {
    forall q {:trigger q in s} :: q in s && q in c && s[q].bin < k ==> c[q].size < n
  }

  // The victim is off its list: use all of it, or give the rest back to the unsorted list.
  method Cut(a: Arena, ghost x: St, v: int, n: int, size: int) returns (given: int, r: int)
    requires OffList(x, a.Now(), a.g, a.nonMain, v) && NoneUnsorted(x.s) && size == x.c[v].size && 2 <= n <= size
    modifies a`lo, a`hi, a`slots, a`chunks
    ensures Good(a.Now(), a.g, a.nonMain) && HandedOut(x, a.Now(), v, given) && n <= given < n + 2
    ensures OnlyUnsortedAdded(x.s, a.slots) && r >= 0 && TookFree(x.c, a.chunks, v, n)
    ensures r == (if size - n < 2 then 0 else v + n) && given == if size - n < 2 then size else n
    ensures PrevUsed(a.hi, v)
  {
    hide Good, HandedOut, OffList, ReadyToSplit;
    ghost var y := a.Now();
    OffListParts(x, y, a.g, a.nonMain, v);
    if size - n < 2 {
      TakeOut(a, x, v, size);
      return size, 0;
    }
    OffIsReady(x, y, a.g, a.nonMain, v);
    r := SplitOff(a, x, v, n, size);
    assert r in a.slots;
    SlotPositive(a.Now(), a.g, a.nonMain, r);
    return n, r;
  }

  lemma SlotPositive(x: St, g: int, nm: bool, r: int)
    requires Good(x, g, nm) && r in x.s
    ensures r > 0
  {
  }

  lemma OffIsReady(x: St, y: St, g: int, nm: bool, v: int)
    requires OffList(x, y, g, nm, v) && NoneUnsorted(x.s)
    ensures ReadyToSplit(x, y, g, nm, v)
  {
  }

  // ---- the bin of a large request

  ghost function SmallerKeys(s: map<int, Slot>, i: int, v: int): set<int>
    requires v in s
  { set q | q in s && s[q].bin == i && s[q].key < s[v].key }

  ghost predicate AfterTooSmall(s: map<int, Slot>, c: map<int, Chunk>, i: int, n: int, v: int) {
    v in s && forall q {:trigger q in s} :: q in s && q in c && s[q].bin == i && s[q].key > s[v].key ==> c[q].size < n
  }

  // From the last chunk towards the first, until one is large enough.
  method ScanBack(a: Arena, i: int, n: int, last: int) returns (victim: int)
    requires Good(a.Now(), a.g, a.nonMain) && 64 <= i <= 126
    requires last in a.slots && a.slots[last].bin == i && AfterTooSmall(a.slots, a.chunks, i, n, last)
    requires Hdr(i) + 1 in a.lo && a.lo[Hdr(i) + 1] in a.chunks && a.lo[Hdr(i) + 1] > 0 && a.chunks[a.lo[Hdr(i) + 1]].size >= n
    ensures victim in a.slots && a.slots[victim].bin == i && AfterTooSmall(a.slots, a.chunks, i, n, victim)
    ensures victim in a.chunks && a.chunks[victim].size >= n
    ensures victim in a.hi && a.hi[victim] == Size(a.chunks[victim].size, true, false)
  {
    hide Good, AfterTooSmall;
    victim := last;
    SlotIs(a.Now(), a.g, a.nonMain, victim);
    while a.hi[victim].n < n
      invariant victim in a.slots && a.slots[victim].bin == i && AfterTooSmall(a.slots, a.chunks, i, n, victim)
      invariant victim in a.chunks && victim in a.hi && a.hi[victim] == Size(a.chunks[victim].size, true, false)
      decreases SmallerKeys(a.slots, i, victim)
    {
      ghost var was := victim;
      StepBack(a.Now(), a.g, a.nonMain, i, n, victim);
      victim := a.hi[victim + 1].to;
      SlotIs(a.Now(), a.g, a.nonMain, victim);
      assert victim in SmallerKeys(a.slots, i, was) && victim !in SmallerKeys(a.slots, i, victim);
    }
  }

  lemma StepBack(x: St, g: int, nm: bool, i: int, n: int, v: int)
    requires Good(x, g, nm) && 64 <= i <= 126 && AfterTooSmall(x.s, x.c, i, n, v) && v in x.s && x.s[v].bin == i
    requires v in x.c && x.c[v].size < n
    requires Hdr(i) + 1 in x.lo && x.lo[Hdr(i) + 1] in x.c && x.lo[Hdr(i) + 1] > 0 && x.c[x.lo[Hdr(i) + 1]].size >= n
    ensures v + 1 in x.hi && x.hi[v + 1].Ptr?
    ensures var b := x.hi[v + 1].to; b in x.s && x.s[b].bin == i && x.s[b].key < x.s[v].key && AfterTooSmall(x.s, x.c, i, n, b)
  {
    hide Indexed, FastLinked, FastIndexed, Tiled, Tagged, RegionsOk, Placed;
    LinkOf(x.s, x.lo, x.hi, v);
    var b := x.hi[v + 1].to;
    LinkOf(x.s, x.lo, x.hi, b);
    assert b != Hdr(i);
    forall q | q in x.s && q in x.c && x.s[q].bin == i && x.s[q].key > x.s[b].key
      ensures x.c[q].size < n
    {
      assert GapAt(x.s, x.lo, b, q);
    }
  }

  // unlink the smallest chunk of bin idx that fits
  method LargeScan(a: Arena, n: int, idx: int) returns (victim: int, given: int, ok: bool)
    requires a.Valid() && NoneUnsorted(a.slots) && n >= 2 && !InSmallbinRange(Bytes(a.g, n)) && idx == BinIndex(Bytes(a.g, n))
    modifies a`lo, a`hi, a`slots, a`chunks
    ensures ok && a.Valid()
    ensures victim == 0 ==> a.Now() == old(a.Now()) && Passed(a.slots, a.chunks, n, idx + 1)
    ensures victim != 0 ==> HandedOut(old(a.Now()), a.Now(), victim, given) && n <= given < n + 2 && BestFit(old(a.chunks), victim, n)
    ensures victim != 0 ==> TookFree(old(a.chunks), a.chunks, victim, n) && PrevUsed(a.hi, victim)
    ensures victim != 0 ==> victim in old(a.chunks) && victim in old(a.slots) && AfterTooSmall(old(a.slots), old(a.chunks), old(a.slots)[victim].bin, n, victim)
  {
    hide Good, HandedOut, HeapsOk, PageEnds, MapOk, WroteLo, WroteHi, Linked, BestFit, Passed, NoneUnsorted,
      AfterTooSmall, OnlyUnsortedAdded, BinIndex, Bytes, KnownTo;
    ghost var x := a.Now();
    GoodParts(x, a.g, a.nonMain);
    BinIndexRange(a.g, n);
    EmptyBin(a.slots, a.lo, a.hi, idx);
    victim := a.hi[Hdr(idx) + 1].to;
    ok := true;
    given := 0;
    if victim == Hdr(idx) {
      EmptyPassed(x, a.g, a.nonMain, n, idx);
      return 0, 0, true;
    }
    LargeEnds(x, a.g, a.nonMain, n, idx);
    if a.hi[a.lo[Hdr(idx) + 1]].n < n {
      SmallPassed(x, a.g, a.nonMain, n, idx);
      return 0, 0, true;
    }
    victim := ScanBack(a, idx, n, victim);
    LargeIsBest(x, a.g, a.nonMain, n, idx, victim);
    SlotIs(x, a.g, a.nonMain, victim);
    var size := a.hi[victim].n;
    ok := a.Unlink(victim);
    var r;
    given, r := Cut(a, x, victim, n, size);
    MapStaysOk(x.s, a.slots, a.binmap);
  }

  lemma EmptyPassed(x: St, g: int, nm: bool, n: int, i: int)
    requires Good(x, g, nm) && NoneUnsorted(x.s) && n >= 2 && i == BinIndex(Bytes(g, n))
    requires forall q :: q in x.s ==> x.s[q].bin != i
    ensures Passed(x.s, x.c, n, i + 1)
  {
    hide Good, BinIndex, Bytes;
    GoodParts(x, g, nm);
    forall q {:trigger q in x.s} | q in x.s && q in x.c && x.s[q].bin < i + 1
      ensures x.c[q].size < n
    {
      SlotBin(x, g, nm, q);
      HigherBinIsLarger(g, x.c[q].size, n);
    }
  }

  lemma SlotBin(x: St, g: int, nm: bool, q: int)
    requires Good(x, g, nm) && NoneUnsorted(x.s) && q in x.s
    ensures q in x.c && x.s[q].bin >= 2 && BinIndex(Bytes(g, x.c[q].size)) == x.s[q].bin && x.c[q].size >= 2
  {
    SlotIs(x, g, nm, q);
    assert x.s[q].bin >= 1;
  }

  // The ends of a large bin that is not empty.
  lemma LargeEnds(x: St, g: int, nm: bool, n: int, i: int)
    requires Good(x, g, nm) && 64 <= i <= 126 && Hdr(i) + 1 in x.hi && x.hi[Hdr(i) + 1].Ptr? && x.hi[Hdr(i) + 1].to != Hdr(i)
    ensures var l := x.hi[Hdr(i) + 1].to; l in x.s && x.s[l].bin == i && AfterTooSmall(x.s, x.c, i, n, l)
    ensures Hdr(i) + 1 in x.lo
    ensures var f := x.lo[Hdr(i) + 1]; f in x.s && f > 0 && f in x.c && f in x.hi && x.hi[f].Size? && x.hi[f].n == x.c[f].size
    ensures var f := x.lo[Hdr(i) + 1]; forall q :: q in x.s && x.s[q].bin == i && q in x.c ==> x.c[q].size <= x.c[f].size
  {
    hide FastLinked, FastIndexed, Tiled, Tagged, RegionsOk, Placed, Linked, GapAt;
    EmptyBin(x.s, x.lo, x.hi, i);
    var l, f := x.hi[Hdr(i) + 1].to, x.lo[Hdr(i) + 1];
    LastOf(x.s, x.lo, x.hi, i, l);
    FirstOf(x.s, x.lo, x.hi, i, f);
    SlotIs(x, g, nm, f);
    forall q | q in x.s && x.s[q].bin == i && q in x.c
      ensures x.c[q].size <= x.c[f].size
    {
      assert SortedAt(x.s, x.c, f, q);
    }
  }

  lemma SmallPassed(x: St, g: int, nm: bool, n: int, i: int)
    requires Good(x, g, nm) && NoneUnsorted(x.s) && n >= 2 && i == BinIndex(Bytes(g, n))
    requires forall q :: q in x.s && x.s[q].bin == i && q in x.c ==> x.c[q].size < n
    ensures Passed(x.s, x.c, n, i + 1)
  {
    hide Good, BinIndex, Bytes;
    GoodParts(x, g, nm);
    forall q {:trigger q in x.s} | q in x.s && q in x.c && x.s[q].bin < i + 1
      ensures x.c[q].size < n
    {
      SlotBin(x, g, nm, q);
      if x.s[q].bin < i { HigherBinIsLarger(g, x.c[q].size, n); }
    }
  }

  lemma LargeIsBest(x: St, g: int, nm: bool, n: int, i: int, v: int)
    requires Good(x, g, nm) && NoneUnsorted(x.s) && n >= 2 && i == BinIndex(Bytes(g, n)) && 64 <= i <= 126
    requires v in x.s && x.s[v].bin == i && AfterTooSmall(x.s, x.c, i, n, v) && v in x.c && x.c[v].size >= n
    ensures BestFit(x.c, v, n)
  {
    hide Good, BinIndex, Bytes;
    GoodParts(x, g, nm);
    SlotIs(x, g, nm, v);
    forall q | q in x.c && x.c[q].tag == Binned && n <= x.c[q].size
      ensures x.c[v].size <= x.c[q].size
    {
      OnlyBinnedListed(x, g, nm, q);
      SlotBin(x, g, nm, q);
      if x.s[q].bin < i { HigherBinIsLarger(g, x.c[q].size, n); }
      else if x.s[q].bin > i { SlotBin(x, g, nm, v); HigherBinIsLarger(g, x.c[v].size, x.c[q].size); }
      else { SameBin(x, g, nm, v, q); }
    }
  }

  lemma SameBin(x: St, g: int, nm: bool, v: int, q: int)
    requires Good(x, g, nm) && v in x.s && q in x.s && v in x.c && q in x.c && x.s[v].bin == x.s[q].bin >= 64 && x.s[q].key <= x.s[v].key
    ensures x.c[v].size <= x.c[q].size
  {
    hide FastLinked, FastIndexed, Tiled, Tagged, RegionsOk, Placed;
    assert SortedAt(x.s, x.c, q, v);
    if x.s[q].key == x.s[v].key { SameKey(x.s, x.lo, x.hi, v, q); }
  }

  lemma SameKey(s: map<int, Slot>, lo: map<int, int>, hi: map<int, Word>, v: int, q: int)
    requires Linked(s, lo, hi) && v in s && q in s && s[v] == s[q]
    ensures v == q
  {
    assert LinkAt(s, lo, hi, v) && GapAt(s, lo, v, q);
  }
}
