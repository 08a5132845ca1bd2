/** One step of the loop that empties the unsorted list. */
module UnsortedList {
  import opened Memory
  import opened Sizes
  import opened BitMaps
  import opened BinLists
  import opened Chunks
  import opened Frames
  import opened FastLists
  import opened Layout
  import opened State
  import opened Arenas
  import opened Consolidating
  import opened IntFree
  import opened HeapTrim
  import opened Taking
  import opened Carving
  import opened Sorting

  // victim->size > system_mem, flags included
  predicate RawExceeds(w: Word, m: int)
    requires w.Size?
  { w.n > m || (w.n == m && (w.p || w.a)) }

  // No chunk of exactly n granules is in a regular bin.
  ghost predicate NoExact(s: map<int, Slot>, c: map<int, Chunk>, n: int) {
    forall q {:trigger q in s} :: q in s && s[q].bin >= 2 && q in c ==> c[q].size != n
  }

  ghost predicate NoneUnsorted(s: map<int, Slot>) { forall q {:trigger q in s} :: q in s ==> s[q].bin != 1 }

  ghost function Unsorteds(s: map<int, Slot>): set<int> { set q | q in s && s[q].bin == 1 }

  function Mark(m: seq<bv32>, i: int): seq<bv32>
    requires |m| == 4 && 0 <= i < 128
  { m[i / 32 := Or(m[i / 32], Bit(i % 32))] }

  lemma MarkSame(m: seq<bv32>, i: int)
    requires |m| == 4 && 0 <= i < 128
    ensures Marked(Mark(m, i), i)
  {
    hide Bit, TestBit, Or, Without;
    TestSame(m[i / 32], i % 32);
  }

  lemma MarkOther(m: seq<bv32>, i: int, j: int)
    requires |m| == 4 && 0 <= i < 128 && 0 <= j < 128 && i != j
    ensures Marked(Mark(m, i), j) == Marked(m, j)
  {
    hide Bit, TestBit, Or, Without;
    if i / 32 == j / 32 {
      TestOther(m[i / 32], i % 32, j % 32);
    }
  }

  lemma MarkedOk(s: map<int, Slot>, v: int, slot: Slot, m: seq<bv32>)
    requires MapOk(s - {v}, m) && 2 <= slot.bin <= 126
    ensures MapOk(s[v := slot], Mark(m, slot.bin))
  {
    hide Marked, Mark;
    assert |Mark(m, slot.bin)| == 4 by { MarkLen(m, slot.bin); }
    var s' := s[v := slot];
    forall q {:trigger q in s'} | q in s' && 2 <= s'[q].bin <= 126
      ensures Marked(Mark(m, slot.bin), s'[q].bin)
    {
      if q != v { assert q in s - {v}; }
      if s'[q].bin == slot.bin { MarkSame(m, slot.bin); } else { MarkOther(m, slot.bin, s'[q].bin); }
    }
  }

  lemma MarkLen(m: seq<bv32>, i: int)
    requires |m| == 4 && 0 <= i < 128
    ensures |Mark(m, i)| == 4
  {
  }

  lemma UnsortedPasses(x: St, g: int, nm: bool, v: int)
    requires Good(x, g, nm) && v in x.s
    ensures v in x.c && x.c[v].tag == Binned && v in x.hi && x.hi[v] == Size(x.c[v].size, true, false) && x.c[v].size >= 2
    ensures !TooSmall(x.hi[v]) && !RawExceeds(x.hi[v], SystemSize(x.rs))
  {
    hide Linked, FastLinked, FastIndexed, Tagged, Tiled;
    assert SlotFits(x.s, x.c, g, v);
    BinnedIs(x, g, nm, v);
    var e := v + x.c[v].size;
    assert PlacedAt(x.c, x.rs, v) && PlacedAt(x.c, x.rs, e);
    assert ChunkAt(x.c, e) by { TiledAt(x.c, e); }
    SystemCovers(x.rs, x.c[v].home);
  }

  // v is used: whole if it fits exactly; otherwise it is the last remainder, and its first n granules are.
  ghost predicate TookUnsorted(c: map<int, Chunk>, d: map<int, Chunk>, v: int, n: int, last: int, small: bool) {
    && v in c && c[v].tag == Binned
    && if c[v].size == n then d == Retag(c, v, Live)
       else small && v == last && c[v].size > n + 2 && d == Split(c, v, n, Live, Binned)
  }

  // What the last remainder is after chunk v has served a request of n granules.
  function NewRemainder(c: map<int, Chunk>, v: int, n: int, last: int, small: bool): int
    requires v in c
  { if small && c[v].size >= n + 2 then v + n else last }

  ghost predicate SoleUnsorted(s: map<int, Slot>, v: int) { forall q {:trigger s[q]} :: q in s && s[q].bin == 1 ==> q == v }

  // The chunk that is looked at serves the request.
  ghost predicate Suits(s: map<int, Slot>, c: map<int, Chunk>, v: int, n: int, last: int, small: bool)
    requires v in c
  { c[v].size == n || (small && SoleUnsorted(s, v) && v == last && c[v].size > n + 2) }

  // v has been in its bin for longest: chunks come in at the front.
  ghost predicate LastOfBin(s: map<int, Slot>, v: int) {
    v in s && forall q {:trigger q in s} :: q in s && s[q].bin == s[v].bin && q != v ==> s[q].key < s[v].key
  }

  // One chunk of the unsorted list: use it, or put it in its bin.
  method SortOne(a: Arena, n: int, victim: int) returns (taken: bool, ok: bool)
    requires a.Valid() && n >= 2 && (InSmallbinRange(Bytes(a.g, n)) ==> NoExact(a.slots, a.chunks, n))
    requires Hdr(1) + 1 in a.hi && a.hi[Hdr(1) + 1] == Ptr(victim) && victim != Hdr(1)
    modifies a`lo, a`hi, a`slots, a`chunks, a`binmap, a`lastRemainder
    ensures ok && a.Valid()
    ensures taken ==> HandedOut(old(a.Now()), a.Now(), victim, n) && PrevUsed(a.hi, victim)
    ensures taken ==> TookUnsorted(old(a.chunks), a.chunks, victim, n, old(a.lastRemainder), InSmallbinRange(Bytes(a.g, n)))
    ensures victim in old(a.chunks) && (taken <==> Suits(old(a.slots), old(a.chunks), victim, n, old(a.lastRemainder), InSmallbinRange(Bytes(a.g, n))))
    ensures a.lastRemainder == if taken then NewRemainder(old(a.chunks), victim, n, old(a.lastRemainder), InSmallbinRange(Bytes(a.g, n)))
      else old(a.lastRemainder)
    ensures victim in old(a.slots) && LastOfBin(old(a.slots), victim) && old(a.slots)[victim].bin == 1
    ensures !taken ==> victim in a.slots && a.slots[victim].bin >= 2 && a.slots - {victim} == old(a.slots) - {victim}
    ensures !taken ==> Unnoticed(old(a.Now()), a.Now()) && a.chunks == old(a.chunks)
    ensures !taken && InSmallbinRange(Bytes(a.g, n)) ==> NoExact(a.slots, a.chunks, n)
    ensures !taken ==> Unsorteds(a.slots) < Unsorteds(old(a.slots))
  {
    hide Good, Linked, Unnoticed, HandedOut, MapOk, HeapsOk, BinIndex, Mark, WroteLo, WroteHi, FastbinIndex,
      NFastbins, SystemSize, KnownTo, SoleUnsorted, LastOfBin, InSmallbinRange, Bytes, WithinLimit, UnitsOk;
    ghost var x := a.Now();
    var bck;
    bck := SortOneReads(a, victim);
    if TooSmall(a.hi[victim]) || RawExceeds(a.hi[victim], a.systemMem) { return false, false; }
    var size := a.hi[victim].n;
    if InSmallbinRange(Bytes(a.g, n)) && bck == Hdr(1) && victim == a.lastRemainder && size > n + 2 {
      var r := SplitLast(a, victim, n, size);
      a.lastRemainder := r;
      return true, true;
    }
    a.RemoveLast(1, victim);
    assert OffList(x, a.Now(), a.g, a.nonMain, victim);
    MapStaysOk(x.s, a.slots, a.binmap);
    taken := TakeOrBin(a, x, victim, n, size);
    return taken, true;
  }

  // Off the list, the victim is used if it fits exactly, and else put in its bin.
  method TakeOrBin(a: Arena, ghost x: St, victim: int, n: int, size: int) returns (taken: bool)
    requires a.Counters() && OffList(x, a.Now(), a.g, a.nonMain, victim) && size == x.c[victim].size && MapOk(x.s - {victim}, a.binmap)
    requires a.regions != [] && n >= 2 && victim in x.s && x.s[victim].bin == 1 && |a.binmap| == 4
    requires InSmallbinRange(Bytes(a.g, n)) ==> NoExact(x.s, x.c, n)
    modifies a`lo, a`hi, a`slots, a`chunks, a`binmap
    ensures a.Valid() && (taken <==> size == n) && victim in x.c
    ensures taken ==> HandedOut(x, a.Now(), victim, n) && PrevUsed(a.hi, victim) && x.c[victim].tag == Binned && a.chunks == Retag(x.c, victim, Live)
    ensures !taken ==> Unnoticed(x, a.Now()) && a.chunks == x.c && Unsorteds(a.slots) < Unsorteds(x.s)
    ensures !taken && InSmallbinRange(Bytes(a.g, n)) ==> NoExact(a.slots, a.chunks, n)
    ensures !taken ==> victim in a.slots && a.slots[victim].bin >= 2 && a.slots - {victim} == x.s - {victim}
  {
    hide Good, Linked, Unnoticed, HandedOut, MapOk, HeapsOk, BinIndex, Mark, OffList, FastbinIndex, PrevUsed,
      NFastbins, SystemSize, KnownTo, InSmallbinRange, Bytes, WithinLimit, UnitsOk;
    OffListParts(x, a.Now(), a.g, a.nonMain, victim);
    if size == n {
      TakeOut(a, x, victim, size);
      return true;
    }
    BinOne(a, x, victim, size);
    assert victim in Unsorteds(x.s);
    return false;
  }

  method SortOneReads(a: Arena, victim: int) returns (bck: int)
    requires a.Valid()
    requires Hdr(1) + 1 in a.hi && a.hi[Hdr(1) + 1] == Ptr(victim) && victim != Hdr(1)
    ensures victim in a.slots && a.slots[victim].bin == 1 && Linked(a.slots, a.lo, a.hi)
    ensures victim + 1 in a.hi && a.hi[victim + 1] == Ptr(bck)
    ensures (bck == Hdr(1) <==> SoleUnsorted(a.slots, victim)) && LastOfBin(a.slots, victim)
    ensures victim in a.chunks && a.chunks[victim].tag == Binned && victim in a.hi && a.hi[victim] == Size(a.chunks[victim].size, true, false)
    ensures !TooSmall(a.hi[victim]) && !RawExceeds(a.hi[victim], a.systemMem) && |a.binmap| == 4 && a.regions != []
  {
    hide GapAt, Tiled, Tagged, Indexed, FastLinked, FastIndexed, RegionsOk, Placed;
    LastOf(a.slots, a.lo, a.hi, 1, victim);
    UnsortedPasses(a.Now(), a.g, a.nonMain, victim);
    ChunksInRegions(a.Now(), a.g, a.nonMain, victim);
    bck := a.hi[victim + 1].to;
    if bck == Hdr(1) { SoleOf(a.slots, a.lo, a.hi, victim); }
    if SoleUnsorted(a.slots, victim) { NoneBehind(a.slots, a.lo, a.hi, victim); }
  }

  lemma NoneBehind(s: map<int, Slot>, lo: map<int, int>, hi: map<int, Word>, v: int)
    requires Linked(s, lo, hi) && v in s && s[v].bin == 1 && SoleUnsorted(s, v)
    ensures v + 1 in hi && hi[v + 1] == Ptr(Hdr(1))
  {
    assert LinkAt(s, lo, hi, v);
    var b := hi[v + 1].to;
    if b in s { assert s[b].bin == 1; }
  }

  lemma SoleOf(s: map<int, Slot>, lo: map<int, int>, hi: map<int, Word>, v: int)
    requires Linked(s, lo, hi) && v in s && s[v].bin == 1 && v + 1 in hi && hi[v + 1] == Ptr(Hdr(1))
    requires forall q :: q in s && s[q].bin == 1 && q != v ==> s[q].key < s[v].key
    ensures forall q :: q in s && s[q].bin == 1 ==> q == v
  {
    assert LinkAt(s, lo, hi, v) && LinkAt(s, lo, hi, Hdr(1));
    forall q | q in s && s[q].bin == 1
      ensures q == v
    {
      assert GapAt(s, lo, Hdr(1), q);
    }
  }

  // The last remainder, alone on the unsorted list, is split once more.
  method SplitLast(a: Arena, v: int, n: int, size: int) returns (r: int)
    requires a.Valid() && v in a.slots && a.slots[v].bin == 1 && v in a.chunks && a.chunks[v].tag == Binned && size == a.chunks[v].size
    requires SoleUnsorted(a.slots, v) && 2 <= n && n + 2 < size
    modifies a`lo, a`hi, a`slots, a`chunks
    ensures a.Valid() && HandedOut(old(a.Now()), a.Now(), v, n) && r == v + n && PrevUsed(a.hi, v) && a.chunks == Split(old(a.chunks), v, n, Live, Binned)
  {
    hide Tiled, Tagged, Indexed, FastLinked, FastIndexed, RegionsOk, Placed, HandedOut, MapOk, Linked, HeapsOk, KnownTo;
    ghost var x := a.Now();
    ChunksInRegions(x, a.g, a.nonMain, v);
    NothingWritten(x.s, x.lo, x.hi);
    r := SplitOff(a, x, v, n, size);
    MapStaysOk(x.s, a.slots, a.binmap);
  }

  lemma OffListParts(x: St, y: St, g: int, nm: bool, v: int)
    requires OffList(x, y, g, nm, v)
    ensures IsGrain(g) && v in x.c && x.c[v].tag == Binned && x.c[v].size >= 2 && y.s == x.s - {v} && y.c == x.c && Linked(y.s, y.lo, y.hi)
  {
    BinnedIs(x, g, nm, v);
  }

  // Place the victim, which is off the unsorted list, in its bin.
  method BinOne(a: Arena, ghost x: St, v: int, size: int)
    requires OffList(x, a.Now(), a.g, a.nonMain, v) && size == x.c[v].size && MapOk(x.s - {v}, a.binmap) && |a.binmap| == 4
    modifies a`lo, a`hi, a`slots, a`binmap
    ensures Good(a.Now(), a.g, a.nonMain) && Unnoticed(x, a.Now())
    ensures v in a.slots && a.slots == (x.s - {v})[v := a.slots[v]] && a.slots[v].bin >= 2 && MapOk(a.slots, a.binmap)
  {
    hide OffList, Good, Unnoticed, PlaceOk, MapOk, Linked, Mark, BinIndex, Bytes, KnownTo;
    ghost var y := a.Now();
    OffListParts(x, y, a.g, a.nonMain, v);
    BinnedReadable(x, y, a.g, a.nonMain, v);
    BinIndexRange(a.g, size);
    var i := BinIndex(Bytes(a.g, size));
    var bck, fwd := FindPlace(a, x.c, i, size);
    a.binmap := Mark(a.binmap, i);
    PutInBin(a, x, v, i, bck, fwd);
    assert a.slots - {v} == x.s - {v};
    assert a.slots[v := a.slots[v]] == a.slots;
    MarkedOk(a.slots, v, a.slots[v], old(a.binmap));
  }
}
