/** One pass of malloc: unsorted list, exact bin, larger bins, top. */
module Passes {
  import opened Memory
  import opened Sizes
  import opened Chunks
  import opened State
  import opened Arenas
  import opened Freeing
  import opened Consolidating
  import opened Trimming
  import opened Taking
  import opened Splitting
  import opened UnsortedList
  import opened Searching
  import opened Scanning
  import opened BinWalk

  // Where a request was served from.
  datatype Source = Nowhere | Fastbin | SmallBin | Unsorted | Bins | TopChunk | System

  lemma TopReads(x: St, g: int, nm: bool)
    requires Good(x, g, nm) && TopKnown(x.top, x.hi, x.rs)
    ensures x.top in x.hi && x.hi[x.top].Size? && 0 <= x.hi[x.top].n
    ensures x.rs == [] ==> x.hi[x.top].n == 0
    ensures x.rs != [] ==> x.top in x.c && x.c[x.top].tag == Top && x.hi[x.top].n == x.c[x.top].size >= 2
  {
    if x.rs != [] { TopIsTop(x, g, nm); }
  }

  ghost predicate SameBut(hi: map<int, Word>, hi': map<int, Word>, i: int, j: int) {
    forall k {:trigger hi'[k]} {:trigger k in hi'} :: k in hi && k != i && k != j ==> k in hi' && hi'[k] == hi[k]
  }

  // use_top
  method UseTop(a: Arena, n: int) returns (victim: int)
    requires a.Valid() && n >= 2
    modifies a`hi, a`top, a`chunks
    ensures a.Valid()
    ensures victim == 0 ==> a.Now() == old(a.Now()) && a.top in a.hi && a.hi[a.top].Size? && a.hi[a.top].n < n + 2
    ensures victim != 0 ==> HandedOut(old(a.Now()), a.Now(), victim, n) && victim == old(a.top) && victim in old(a.chunks)
    ensures victim != 0 ==> a.chunks == Split(old(a.chunks), victim, n, Live, Top) && PrevUsed(a.hi, victim)
    ensures victim != 0 ==> a.lo == old(a.lo) && SameBut(old(a.hi), a.hi, victim, victim + n) && a.top == victim + n
  {
    hide Good, HandedOut, MapOk, HeapsOk, PageEnds, KnownTo;
    ghost var x := a.Now();
    TopReads(x, a.g, a.nonMain);
    victim := a.top;
    var size := a.hi[victim].n;
    if size < n + 2 { return 0; }
    TopPositive(x, a.g, a.nonMain);
    a.top := victim + n;
    a.hi := a.hi[victim := Size(n, true, a.nonMain)];
    a.hi := a.hi[victim + n := Size(size - n, true, false)];
    a.chunks := Split(a.chunks, victim, n, Live, Top);
    TopTake(x, a.Now(), a.g, a.nonMain, n);
  }

  lemma TopPositive(x: St, g: int, nm: bool)
    requires Good(x, g, nm) && x.top in x.c
    ensures x.top > 0
  {
    assert ChunkAt(x.c, x.top);
  }

  lemma PassedNoFit(x: St, g: int, nm: bool, n: int)
    requires Good(x, g, nm) && Passed(x.s, x.c, n, 128)
    ensures NoFit(x.c, n)
  {
    hide Good;
    SlotBins(x, g, nm);
    forall q | q in x.c && x.c[q].tag == Binned
      ensures x.c[q].size < n
    {
      OnlyBinnedListed(x, g, nm, q);
    }
  }

  lemma ExactPassed(x: St, g: int, nm: bool, n: int)
    requires Good(x, g, nm) && NoneUnsorted(x.s) && NoExact(x.s, x.c, n) && n >= 2 && InSmallbinRange(Bytes(g, n))
    ensures Passed(x.s, x.c, n, BinIndex(Bytes(g, n)) + 1)
  {
    hide Good, BinIndex, Bytes;
    GoodParts(x, g, nm);
    BinIndexRange(g, n);
    var i := BinIndex(Bytes(g, n));
    forall q {:trigger q in x.s} | q in x.s && q in x.c && x.s[q].bin < i + 1
      ensures x.c[q].size < n
    {
      SlotBin(x, g, nm, q);
      if x.s[q].bin < i { HigherBinIsLarger(g, x.c[q].size, n); } else { SmallBinExact(g, x.c[q].size, n); }
    }
  }

  // The search of the regular bins, once the unsorted list is empty.
  method SearchBins(a: Arena, n: int) returns (victim: int, given: int, ok: bool)
    requires a.Valid() && NoneUnsorted(a.slots) && n >= 2
    requires InSmallbinRange(Bytes(a.g, n)) ==> NoExact(a.slots, a.chunks, n)
    modifies a`lo, a`hi, a`slots, a`chunks, a`binmap, a`lastRemainder
    ensures ok && a.Valid()
    ensures victim == 0 ==> a.Now() == old(a.Now()) && NoFit(a.chunks, n)
    ensures victim != 0 ==> HandedOut(old(a.Now()), a.Now(), victim, given) && n <= given < n + 2 && BestFit(old(a.chunks), victim, n)
    ensures victim != 0 ==> TookFree(old(a.chunks), a.chunks, victim, n) && PrevUsed(a.hi, victim)
    ensures victim != 0 ==> victim in old(a.slots) && AfterTooSmall(old(a.slots), old(a.chunks), old(a.slots)[victim].bin, n, victim)
    ensures victim in old(a.chunks) || victim == 0
    ensures a.lastRemainder == if victim != 0 then NewRemainder(old(a.chunks), victim, n, old(a.lastRemainder), InSmallbinRange(Bytes(a.g, n)))
      else old(a.lastRemainder)
  {
    hide AfterTooSmall, Good, HandedOut, HeapsOk, PageEnds, MapOk, BestFit, Passed, NoneUnsorted, NoExact, BinIndex, Bytes, TopKnown,
      SystemSize, FastbinIndex, NFastbins, TookFree, NoFit, KnownTo;
    var idx := BinIndex(Bytes(a.g, n));
    ok := true;
    if InSmallbinRange(Bytes(a.g, n)) {
      ExactPassed(a.Now(), a.g, a.nonMain, n);
    } else {
      victim, given, ok := LargeScan(a, n, idx);
      if victim != 0 { return; }
    }
    victim, given := BinScan(a, n, idx);
    if victim == 0 { PassedNoFit(a.Now(), a.g, a.nonMain, n); }
  }

  // One pass of the outer loop of malloc, up to use_top.
  method Pass(a: Arena, n: int) returns (victim: int, given: int, from: Source, ok: bool)
    requires a.Valid() && n >= 2 && (InSmallbinRange(Bytes(a.g, n)) ==> NoExact(a.slots, a.chunks, n))
    modifies a`lo, a`hi, a`slots, a`chunks, a`binmap, a`lastRemainder, a`top
    ensures ok && a.Valid()
    ensures victim == 0 ==> Unnoticed(old(a.Now()), a.Now()) && a.chunks == old(a.chunks) && NoFit(a.chunks, n)
    ensures victim == 0 ==> a.top in a.hi && a.hi[a.top].Size? && a.hi[a.top].n < n + 2
    ensures victim == 0 && InSmallbinRange(Bytes(a.g, n)) ==> NoExact(a.slots, a.chunks, n)
    ensures victim != 0 ==> HandedOut(old(a.Now()), a.Now(), victim, given) && n <= given < n + 2
    ensures victim != 0 ==> from == Unsorted || from == Bins || from == TopChunk
    ensures victim != 0 && from != Bins ==> given == n
    ensures victim != 0 ==> PrevUsed(a.hi, victim)
    ensures from == Unsorted ==> TookUnsorted(old(a.chunks), a.chunks, victim, n, old(a.lastRemainder), InSmallbinRange(Bytes(a.g, n)))
    ensures from == Bins ==> BestFit(old(a.chunks), victim, n) && TookFree(old(a.chunks), a.chunks, victim, n)
    ensures from == TopChunk ==> NoFit(old(a.chunks), n) && victim in old(a.chunks) && a.chunks == Split(old(a.chunks), victim, n, Live, Top)
    ensures victim == 0 ==> from == Nowhere
    ensures Chosen(old(a.slots), old(a.chunks), n, old(a.lastRemainder), InSmallbinRange(Bytes(a.g, n)), if from == Unsorted then victim else 0)
    ensures from == Unsorted || from == Bins ==> victim in old(a.chunks)
    ensures a.lastRemainder == if from == Unsorted || from == Bins
      then NewRemainder(old(a.chunks), victim, n, old(a.lastRemainder), InSmallbinRange(Bytes(a.g, n))) else old(a.lastRemainder)
  {
    hide TookUnsorted, Chosen, NewRemainder, Good, HandedOut, HeapsOk, PageEnds, MapOk, BestFit, NoneUnsorted, NoExact, BinIndex, Bytes,
      TopKnown, SystemSize, FastbinIndex, NFastbins, TookFree, NoFit, Unnoticed, KnownTo;
    ghost var x := a.Now();
    victim, ok := SortUnsorted(a, n);
    if victim != 0 { return victim, n, Unsorted, ok; }
    ghost var y := a.Now();
    var ok1;
    victim, given, ok1 := SearchBins(a, n);
    ok := ok && ok1;
    if victim != 0 {
      UnnoticedThenOut(x, y, a.Now(), victim, given);
      return victim, given, Bins, ok;
    }
    victim := UseTop(a, n);
    if victim != 0 {
      UnnoticedThenOut(x, y, a.Now(), victim, n);
      return victim, n, TopChunk, ok;
    }
    return 0, 0, Nowhere, ok;
  }
}
