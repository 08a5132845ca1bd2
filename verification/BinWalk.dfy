/** The walk along the bitmap to the next bin with a chunk. */
module BinWalk {
  import opened Memory
  import opened Sizes
  import opened BitMaps
  import opened BinLists
  import opened Chunks
  import opened Frames
  import opened State
  import opened Arenas
  import opened Freeing
  import opened Taking
  import opened Carving
  import opened UnsortedList
  import opened Searching
  import opened Scanning

  // bin i with the word and the bit of the map that stand for it; after the last bin of a
  // block the bit is 0.
  ghost predicate At(m: seq<bv32>, block: int, bit: bv32, map_: bv32, i: int) {
    && |m| == 4 && 0 <= block < 4 && map_ == m[block]
    && 32 * block <= i <= 32 * block + 32 && i > 0
    && bit == Bit(i - 32 * block)
  }

  ghost predicate Unmarked(m: seq<bv32>, i: int, j: int)
    requires |m| == 4
  { forall k {:trigger Marked(m, k)} :: i <= k < j && 0 <= k < 128 ==> !Marked(m, k) }

  // No marked bin in between: they are all empty.
  lemma PassMore(s: map<int, Slot>, c: map<int, Chunk>, m: seq<bv32>, n: int, i: int, j: int)
    requires |m| == 4 && MapOk(s, m) && Passed(s, c, n, i) && Unmarked(m, i, j) && 2 <= i && j <= 128
    requires forall q :: q in s ==> s[q].bin <= 126
    ensures Passed(s, c, n, j)
  {
    hide Marked;
    forall q {:trigger q in s} | q in s && q in c && s[q].bin < j
      ensures c[q].size < n
    {
      if 2 <= s[q].bin { MarkedIsNot(m, i, j, s[q].bin); }
    }
  }

  lemma MarkedIsNot(m: seq<bv32>, i: int, j: int, k: int)
    requires |m| == 4 && Unmarked(m, i, j) && 0 <= k < 128 && Marked(m, k)
    ensures k < i || j <= k
  {
    hide Marked;
  }

  lemma BlockUnmarked(m: seq<bv32>, block: int, bit: bv32, map_: bv32, i: int)
    requires At(m, block, bit, map_, i) && (Exceeds(bit, map_) || !NonZero(bit))
    ensures Unmarked(m, i, 32 * block + 32)
  {
    hide Bit, TestBit, Marked, NonZero, Exceeds;
    forall k | i <= k < 32 * block + 32 && 0 <= k < 128
      ensures !Marked(m, k)
    {
      UnmarkedAt(m, block, bit, map_, i, k);
    }
  }

  lemma UnmarkedAt(m: seq<bv32>, block: int, bit: bv32, map_: bv32, i: int, k: int)
    requires At(m, block, bit, map_, i) && (Exceeds(bit, map_) || !NonZero(bit)) && i <= k < 32 * block + 32
    ensures !Marked(m, k)
  {
    hide Bit, TestBit, NonZero, Exceeds;
    BitBound(i - 32 * block);
    assert k / 32 == block && k % 32 == k - 32 * block;
    NoneAtOrAbove(map_, i - 32 * block, k - 32 * block);
  }

  lemma ZeroUnmarked(m: seq<bv32>, block: int)
    requires |m| == 4 && 0 <= block < 4 && m[block] == 0
    ensures Unmarked(m, 32 * block, 32 * block + 32)
  {
    hide Bit, TestBit, Marked;
    forall k | 32 * block <= k < 32 * block + 32 && 0 <= k < 128
      ensures !Marked(m, k)
    {
      ZeroUnmarkedAt(m, block, k);
    }
  }

  lemma ZeroUnmarkedAt(m: seq<bv32>, block: int, k: int)
    requires |m| == 4 && 0 <= block < 4 && m[block] == 0 && 32 * block <= k < 32 * block + 32
    ensures !Marked(m, k)
  {
    hide Bit, TestBit;
    assert k / 32 == block && k % 32 == k - 32 * block;
    ZeroWord(m[block], k - 32 * block);
  }

  ghost predicate BinsBelow127(s: map<int, Slot>) { forall q {:trigger q in s} :: q in s ==> s[q].bin <= 126 }

  // No bit of this word is left to come: go on to the first word that is not 0.
  method SkipBlock(a: Arena, n: int, block0: int, i0: int) returns (found: bool, block: int, bit: bv32, map_: bv32, i: int)
    requires |a.binmap| == 4 && MapOk(a.slots, a.binmap) && BinsBelow127(a.slots)
    requires 0 <= block0 < 4 && i0 == 32 * block0 + 32 && Passed(a.slots, a.chunks, n, i0)
    ensures found ==> At(a.binmap, block, bit, map_, i) && i >= i0 && !Exceeds(bit, map_) && NonZero(bit) && Passed(a.slots, a.chunks, n, i)
    ensures !found ==> Passed(a.slots, a.chunks, n, 128)
  {
    hide Passed, MapOk, Bit, Unmarked, Exceeds, NonZero, KnownTo;
    block := block0 + 1;
    bit := 1;
    map_ := 0;
    i := 32 * block;
    while block < 4 && a.binmap[block] == 0
      invariant block0 < block <= 4 && i == 32 * block && Passed(a.slots, a.chunks, n, 32 * block)
    {
      ZeroUnmarked(a.binmap, block);
      PassMore(a.slots, a.chunks, a.binmap, n, 32 * block, 32 * block + 32);
      block := block + 1;
      i := 32 * block;
    }
    if block >= 4 { return false, block, bit, map_, i; }
    map_ := a.binmap[block];
    LowestBit(map_);
    return true, block, 1, map_, i;
  }

  // Go to the next bin whose bit is set.
  method SeekBit(a: Arena, n: int, block: int, bit0: bv32, map_: bv32, i0: int) returns (bit: bv32, i: int)
    requires At(a.binmap, block, bit0, map_, i0) && !Exceeds(bit0, map_) && NonZero(bit0)
    requires MapOk(a.slots, a.binmap) && BinsBelow127(a.slots) && 2 <= i0 && Passed(a.slots, a.chunks, n, i0)
    ensures At(a.binmap, block, bit, map_, i) && i0 <= i < 128 && NonZero(And(bit, map_)) && !Exceeds(bit, map_) && NonZero(bit)
    ensures Passed(a.slots, a.chunks, n, i)
  {
    hide Passed, MapOk, Bit, At, And, Double, NonZero, Exceeds, KnownTo;
    bit, i := bit0, i0;
    AtBound(a.binmap, block, bit, map_, i);
    while !NonZero(And(bit, map_))
      invariant At(a.binmap, block, bit, map_, i) && i0 <= i < 128 && !Exceeds(bit, map_) && NonZero(bit) && Passed(a.slots, a.chunks, n, i)
      decreases 128 - i
    {
      NextBit(a.slots, a.chunks, a.binmap, n, block, bit, map_, i);
      i := i + 1;
      bit := Double(bit);
      assert NonZero(bit);
      AtBound(a.binmap, block, bit, map_, i);
    }
  }

  lemma AtBound(m: seq<bv32>, block: int, bit: bv32, map_: bv32, i: int)
    requires At(m, block, bit, map_, i) && NonZero(bit)
    ensures i < 32 * block + 32 && 0 <= i < 128 && |m| == 4
  {
    hide Bit, NonZero;
    BitBound(i - 32 * block);
  }

  lemma NextBit(s: map<int, Slot>, c: map<int, Chunk>, m: seq<bv32>, n: int, block: int, bit: bv32, map_: bv32, i: int)
    requires At(m, block, bit, map_, i) && !Exceeds(bit, map_) && NonZero(bit) && !NonZero(And(bit, map_))
    requires MapOk(s, m) && BinsBelow127(s) && Passed(s, c, n, i) && i >= 2
    ensures At(m, block, Double(bit), map_, i + 1) && !Exceeds(Double(bit), map_) && NonZero(Double(bit)) && Passed(s, c, n, i + 1)
  {
    hide Bit, Passed, MapOk, TestBit, And, Double, NonZero, Exceeds;
    AtBound(m, block, bit, map_, i);
    var k := i - 32 * block;
    NextBitIs(k);
    TestSwaps(map_, k);
    MoreToCome(map_, k);
    BitBound(k + 1);
    assert i / 32 == block && i % 32 == k;
    PassMore(s, c, m, n, i, i + 1);
  }

  // ---- a marked bin

  // A bit that is set for an empty bin is cleared.
  lemma Cleared(s: map<int, Slot>, c: map<int, Chunk>, m: seq<bv32>, n: int, block: int, bit: bv32, map_: bv32, i: int)
    requires At(m, block, bit, map_, i) && NonZero(bit)
    requires MapOk(s, m) && Passed(s, c, n, i) && i >= 2
    requires forall q :: q in s ==> s[q].bin != i
    ensures var m' := m[block := Without(map_, bit)]; MapOk(s, m') && At(m', block, Double(bit), Without(map_, bit), i + 1)
    ensures Passed(s, c, n, i + 1)
  {
    hide Bit, TestBit, And, Double, NonZero, Without;
    AtBound(m, block, bit, map_, i);
    NextBitIs(i - 32 * block);
    var m' := m[block := Without(map_, bit)];
    forall q {:trigger q in s} | q in s && 2 <= s[q].bin <= 126
      ensures Marked(m', s[q].bin)
    {
      ClearedOther(m, block, bit, map_, i, s[q].bin);
    }
  }

  lemma ClearedOther(m: seq<bv32>, block: int, bit: bv32, map_: bv32, i: int, k: int)
    requires At(m, block, bit, map_, i) && 0 <= k < 128 && k != i && 0 <= i < 128 && i < 32 * block + 32 && Marked(m, k)
    ensures Marked(m[block := Without(map_, bit)], k)
  {
    hide Bit, TestBit, And, Double, NonZero, Without;
    assert i / 32 == block && i % 32 == i - 32 * block;
    if k / 32 == block {
      TestOther(map_, i - 32 * block, k % 32);
    }
  }

  // The last chunk of the first bin that is not empty is the best fit.
  lemma LastIsBest(x: St, g: int, nm: bool, n: int, i: int, v: int)
    requires Good(x, g, nm) && NoneUnsorted(x.s) && n >= 2 && BinIndex(Bytes(g, n)) < i && Passed(x.s, x.c, n, i)
    requires v in x.s && x.s[v].bin == i
    requires forall q :: q in x.s && x.s[q].bin == i && q != v ==> x.s[q].key < x.s[v].key
    ensures v in x.c && n < x.c[v].size && BestFit(x.c, v, n)
  {
    hide Good, BinIndex, Bytes;
    GoodParts(x, g, nm);
    SlotBin(x, g, nm, v);
    SlotIs(x, g, nm, v);
    HigherBinIsLarger(g, n, x.c[v].size);
    forall q | q in x.c && x.c[q].tag == Binned && n <= x.c[q].size
      ensures x.c[v].size <= x.c[q].size
    {
      OnlyBinnedListed(x, g, nm, q);
      SlotBin(x, g, nm, q);
      if x.s[q].bin == i { SameBinAny(x, g, nm, i, v, q); } else { HigherBinIsLarger(g, x.c[v].size, x.c[q].size); }
    }
  }

  lemma SameBinAny(x: St, g: int, nm: bool, i: int, v: int, q: int)
    requires Good(x, g, nm) && NoneUnsorted(x.s) && v in x.s && q in x.s && v in x.c && q in x.c && x.s[v].bin == i == x.s[q].bin
    requires x.s[q].key <= x.s[v].key
    ensures x.c[v].size <= x.c[q].size
  {
    hide Good, BinIndex, Bytes;
    GoodParts(x, g, nm);
    SlotBin(x, g, nm, v);
    SlotBin(x, g, nm, q);
    if i >= 64 { SameBin(x, g, nm, v, q); } else { SmallBinExact(g, x.c[v].size, x.c[q].size); }
  }

  lemma SlotBins(x: St, g: int, nm: bool)
    requires Good(x, g, nm)
    ensures BinsBelow127(x.s)
  {
  }

  // What the walk reads at the header of bin i.
  method InspectBin(a: Arena, n: int, i: int) returns (victim: int)
    requires a.Valid() && NoneUnsorted(a.slots) && n >= 2 && BinIndex(Bytes(a.g, n)) < i < 128 && 2 <= i && Passed(a.slots, a.chunks, n, i)
    ensures Hdr(i) + 1 in a.hi && a.hi[Hdr(i) + 1] == Ptr(victim)
    ensures victim == Hdr(i) ==> forall q :: q in a.slots ==> a.slots[q].bin != i
    ensures victim != Hdr(i) ==> victim in a.slots && i <= 126 && BestFit(a.chunks, victim, n) && victim in a.chunks && n < a.chunks[victim].size
    ensures victim != Hdr(i) ==> victim in a.hi && a.hi[victim] == Size(a.chunks[victim].size, true, false) && victim > 0
    ensures victim != Hdr(i) ==> AfterTooSmall(a.slots, a.chunks, a.slots[victim].bin, n, victim)
  {
    hide Good, BestFit, Passed, MapOk, HeapsOk, PageEnds, Linked, BinIndex, Bytes, NoneUnsorted, KnownTo;
    ghost var x := a.Now();
    GoodParts(x, a.g, a.nonMain);
    EmptyBin(a.slots, a.lo, a.hi, i);
    HeaderEnds(a.slots, a.lo, a.hi, i);
    victim := a.hi[Hdr(i) + 1].to;
    if victim != Hdr(i) {
      LastOf(a.slots, a.lo, a.hi, i, victim);
      SlotIs(x, a.g, a.nonMain, victim);
      LastIsBest(x, a.g, a.nonMain, n, i, victim);
    }
  }

  lemma HeaderEnds(s: map<int, Slot>, lo: map<int, int>, hi: map<int, Word>, i: int)
    requires Linked(s, lo, hi) && LinkAt(s, lo, hi, Hdr(i)) && 1 <= i <= 127
    ensures Hdr(i) + 1 in hi && hi[Hdr(i) + 1].Ptr? && (hi[Hdr(i) + 1].to != Hdr(i) ==> i <= 126)
  {
    var v := hi[Hdr(i) + 1].to;
    assert IsHdr(v) ==> v == Hdr(i);
  }

  // The walk over all bins above the one the request belongs to.
  method BinScan(a: Arena, n: int, idx0: int) returns (victim: int, given: int)
    requires a.Valid() && NoneUnsorted(a.slots) && n >= 2 && idx0 == BinIndex(Bytes(a.g, n))
    requires Passed(a.slots, a.chunks, n, idx0 + 1)
    modifies a`lo, a`hi, a`slots, a`chunks, a`binmap, a`lastRemainder
    ensures a.Valid()
    ensures victim == 0 ==> a.Now() == old(a.Now()) && Passed(a.slots, a.chunks, n, 128)
    ensures victim != 0 ==> HandedOut(old(a.Now()), a.Now(), victim, given) && n <= given < n + 2 && BestFit(old(a.chunks), victim, n)
    ensures victim != 0 ==> TookFree(old(a.chunks), a.chunks, victim, n) && PrevUsed(a.hi, victim)
    ensures victim != 0 ==> victim in old(a.slots) && AfterTooSmall(old(a.slots), old(a.chunks), old(a.slots)[victim].bin, n, victim)
    ensures victim in old(a.chunks) || victim == 0
    ensures a.lastRemainder == if victim != 0 then NewRemainder(old(a.chunks), victim, n, old(a.lastRemainder), InSmallbinRange(Bytes(a.g, n)))
      else old(a.lastRemainder)
  {
    hide AfterTooSmall, InSmallbinRange, Good, HandedOut, HeapsOk, PageEnds, MapOk, Linked, BestFit, Passed, NoneUnsorted, BinIndex, Bytes, At, Bit,
      Without, Exceeds, NonZero, And, Double, TopKnown, SystemSize, FastbinIndex, NFastbins, KnownTo;
    ghost var x := a.Now();
    SlotBins(x, a.g, a.nonMain);
    IndexBound(x, a.g, a.nonMain, n);
    var i := idx0 + 1;
    var block := i / 32;
    MapFour(a.slots, a.binmap);
    var map_ := a.binmap[block];
    var bit := Bit(i % 32);
    StartAt(a.binmap, i);
    while true
      invariant a.lastRemainder == old(a.lastRemainder)
      invariant a.Valid() && a.Now() == x && At(a.binmap, block, bit, map_, i) && idx0 < i && Passed(a.slots, a.chunks, n, i)
      decreases 129 - i
    {
      WalkBound(a.binmap, block, bit, map_, i);
      if Exceeds(bit, map_) || !NonZero(bit) {
        BlockUnmarked(a.binmap, block, bit, map_, i);
        PassMore(a.slots, a.chunks, a.binmap, n, i, 32 * block + 32);
        var found;
        found, block, bit, map_, i := SkipBlock(a, n, block, 32 * block + 32);
        if !found { return 0, 0; }
      }
      bit, i := SeekBit(a, n, block, bit, map_, i);
      WalkBound(a.binmap, block, bit, map_, i);
      victim := InspectBin(a, n, i);
      if victim != Hdr(i) {
        given := TakeFromBin(a, n, i, victim);
        return;
      }
      Cleared(a.slots, a.chunks, a.binmap, n, block, bit, map_, i);
      map_ := Without(map_, bit);
      a.binmap := a.binmap[block := map_];
      i := i + 1;
      bit := Double(bit);
    }
  }

  lemma MapFour(s: map<int, Slot>, m: seq<bv32>)
    requires MapOk(s, m)
    ensures |m| == 4
  {
  }

  lemma IndexBound(x: St, g: int, nm: bool, n: int)
    requires Good(x, g, nm) && n >= 2
    ensures 2 <= BinIndex(Bytes(g, n)) <= 126
  {
    hide Good;
    GoodParts(x, g, nm);
    BinIndexRange(g, n);
  }

  lemma StartAt(m: seq<bv32>, i: int)
    requires |m| == 4 && 0 < i < 128
    ensures At(m, i / 32, Bit(i % 32), m[i / 32], i)
  {
    hide Bit;
  }

  lemma WalkBound(m: seq<bv32>, block: int, bit: bv32, map_: bv32, i: int)
    requires At(m, block, bit, map_, i)
    ensures |m| == 4 && 0 <= block < 4 && i <= 32 * block + 32 <= 128
  {
    hide Bit;
  }

  // unlink; exhaust or split, and advertise the rest as last remainder
  method TakeFromBin(a: Arena, n: int, i: int, victim: int) returns (given: int)
    requires a.Valid() && NoneUnsorted(a.slots) && n >= 2 && 2 <= i <= 126
    requires Hdr(i) + 1 in a.hi && a.hi[Hdr(i) + 1] == Ptr(victim) && victim != Hdr(i)
    requires victim in a.slots && victim in a.chunks && n < a.chunks[victim].size
    requires victim in a.hi && a.hi[victim] == Size(a.chunks[victim].size, true, false)
    modifies a`lo, a`hi, a`slots, a`chunks, a`lastRemainder
    ensures a.Valid() && HandedOut(old(a.Now()), a.Now(), victim, given) && n <= given < n + 2
    ensures TookFree(old(a.chunks), a.chunks, victim, n) && PrevUsed(a.hi, victim)
    ensures a.lastRemainder == NewRemainder(old(a.chunks), victim, n, old(a.lastRemainder), InSmallbinRange(Bytes(a.g, n)))
  {
    hide InSmallbinRange, Good, HandedOut, HeapsOk, PageEnds, MapOk, WroteLo, WroteHi, Linked, NoneUnsorted, OnlyUnsortedAdded,
      BinIndex, Bytes, SystemSize, FastbinIndex, NFastbins, KnownTo;
    ghost var x := a.Now();
    GoodParts(x, a.g, a.nonMain);
    SlotIs(x, a.g, a.nonMain, victim);
    var size := a.hi[victim].n;
    a.RemoveLast(i, victim);
    assert OffList(x, a.Now(), a.g, a.nonMain, victim);
    var r;
    given, r := Cut(a, x, victim, n, size);
    MapStaysOk(x.s, a.slots, a.binmap);
    if r != 0 && InSmallbinRange(Bytes(a.g, n)) { a.lastRemainder := r; }
  }
}
