/** Splitting a chunk off a list and putting the rest on the unsorted list. */
module Carving {
  import opened Memory
  import opened BinLists
  import opened Chunks
  import opened Frames
  import opened FastLists
  import opened Layout
  import opened State
  import opened Arenas
  import opened Freeing
  import opened Taking
  import opened Splitting

  // v has been taken off its list; nothing else is different from x.
  ghost predicate OffList(x: St, y: St, g: int, nm: bool, v: int) {
    && Good(x, g, nm) && v in x.c && x.c[v].tag == Binned
    && y == x.(lo := y.lo, hi := y.hi, s := x.s - {v})
    && Linked(y.s, y.lo, y.hi)
    && WroteLo(x.s, {}, x.lo, y.lo) && WroteHi(x.s, {}, x.hi, y.hi)
  }

  lemma OffListReads(x: St, y: St, g: int, nm: bool, v: int)
    requires OffList(x, y, g, nm, v)
    ensures v in x.c && y.c == x.c
    ensures var e := v + x.c[v].size;
      && v in y.lo && v in y.hi && y.hi[v] == Size(x.c[v].size, true, false)
      && e in y.lo && e in y.hi && e in x.hi && y.hi[e] == x.hi[e] && y.hi[e].Size? && !y.hi[e].p
  {
    hide Linked, FastLinked, FastIndexed, Indexed, RegionsOk, Placed, Tagged, Tiled, WroteLo, WroteHi, Base;
    BinnedIs(x, g, nm, v);
    HeadsAfterLinks(x, g, nm, y.lo, y.hi, v);
    HeadsAfterLinks(x, g, nm, y.lo, y.hi, v + x.c[v].size);
  }

  // set_inuse_bit_at_offset(victim, size), and the NON_MAIN_ARENA bit
  method TakeOut(a: Arena, ghost x: St, v: int, size: int)
    requires OffList(x, a.Now(), a.g, a.nonMain, v) && size == x.c[v].size
    modifies a`hi, a`chunks
    ensures Good(a.Now(), a.g, a.nonMain) && HandedOut(x, a.Now(), v, size)
    ensures a.chunks == Retag(x.c, v, Live) && PrevUsed(a.hi, v)
  {
    hide OffList, TookWhole, Good, HandedOut;
    ghost var y := a.Now();
    OffListReads(x, y, a.g, a.nonMain, v);
    a.hi := a.hi[v + size := a.hi[v + size].(p := true)];
    if a.nonMain { a.hi := a.hi[v := a.hi[v].(a := true)]; }
    a.chunks := Retag(a.chunks, v, Live);
    TakenOut(x, y, a.Now(), a.g, a.nonMain, v, v + size);
    TakeWhole(x, a.Now(), a.g, a.nonMain, v, v + size);
  }

  lemma TakenOut(x: St, y: St, w: St, g: int, nm: bool, v: int, e: int)
    requires OffList(x, y, g, nm, v) && e == v + x.c[v].size
    requires v in y.hi && y.hi[v] == Size(x.c[v].size, true, false) && e in y.hi && y.hi[e].Size? && e in x.hi && y.hi[e] == x.hi[e]
    requires w.hi == y.hi[e := y.hi[e].(p := true)][v := Size(x.c[v].size, true, nm)]
    requires w == y.(hi := w.hi, c := Retag(x.c, v, Live))
    ensures TookWhole(x, w, nm, v, e) && Good(x, g, nm)
  {
    hide Linked, FastLinked, FastIndexed, Indexed, RegionsOk, Placed, Tagged, Tiled;
    BinnedIs(x, g, nm, v);
    var hi1 := y.hi[e := y.hi[e].(p := true)];
    LinksAfterHead(x, g, w.s, v, e, y.lo, y.hi, y.lo, hi1);
    LinksAfterHead(x, g, w.s, v, v, y.lo, hi1, y.lo, w.hi);
  }

  // ---- splitting: the remainder becomes the only chunk of the unsorted list

  lemma SoleInsert(s: map<int, Slot>, lo: map<int, int>, hi: map<int, Word>, v: int, r: int)
    requires Linked(s, lo, hi) && r !in s && r > 0 && r + 1 in lo && r + 1 in hi
    requires forall q :: q in s && s[q].bin == 1 ==> q == v
    requires v in s ==> s[v].bin == 1
    ensures Linked((s - {v})[r := Slot(1, 0.5)], lo[r + 1 := Hdr(1)][Hdr(1) + 1 := r], hi[r + 1 := Ptr(Hdr(1))][Hdr(1) + 1 := Ptr(r)])
  {
    hide LinkAt, GapAt;
    var h := Hdr(1);
    SoleLinks(s, lo, hi, v);
    if v in s {
      UnlinkKeeps(s, lo, hi, v, h, h);
      var lo1, hi1 := lo[h + 1 := h], hi[h + 1 := Ptr(h)];
      assert s - {v} - {v} == s - {v};
      InsertKeeps(s - {v}, lo1, hi1, r, h, h, 0.5);
      assert lo1[r + 1 := h][h + 1 := r] == lo[r + 1 := h][h + 1 := r];
      assert hi1[r + 1 := Ptr(h)][h + 1 := Ptr(r)] == hi[r + 1 := Ptr(h)][h + 1 := Ptr(r)];
    } else {
      assert s - {v} == s;
      InsertKeeps(s, lo, hi, r, h, h, 0.5);
    }
  }

  lemma SoleLinks(s: map<int, Slot>, lo: map<int, int>, hi: map<int, Word>, v: int)
    requires Linked(s, lo, hi)
    requires forall q :: q in s && s[q].bin == 1 ==> q == v
    requires v in s ==> s[v].bin == 1
    ensures LinkAt(s, lo, hi, Hdr(1)) && Hdr(1) + 1 in lo
    ensures if v in s then LinkAt(s, lo, hi, v) && lo[v + 1] == Hdr(1) && hi[v + 1] == Ptr(Hdr(1)) else lo[Hdr(1) + 1] == Hdr(1)
  {
    var h := Hdr(1);
    assert LinkAt(s, lo, hi, h);
    if v in s {
      assert LinkAt(s, lo, hi, v);
    }
  }

  // v is off its list, or the only chunk on the unsorted list.
  ghost predicate ReadyToSplit(x: St, y: St, g: int, nm: bool, v: int) {
    && Good(x, g, nm) && v in x.c && x.c[v].tag == Binned
    && y == x.(lo := y.lo, hi := y.hi, s := y.s)
    && (y.s == x.s || y.s == x.s - {v})
    && Linked(y.s, y.lo, y.hi)
    && WroteLo(x.s, {}, x.lo, y.lo) && WroteHi(x.s, {}, x.hi, y.hi)
    && (forall q :: q in y.s && y.s[q].bin == 1 ==> q == v)
    && (v in y.s ==> y.s[v].bin == 1)
  }

  method SplitOff(a: Arena, ghost x: St, v: int, n: int, size: int) returns (r: int)
    requires ReadyToSplit(x, a.Now(), a.g, a.nonMain, v) && size == x.c[v].size && 2 <= n && n + 2 <= size
    modifies a`lo, a`hi, a`slots, a`chunks
    ensures Good(a.Now(), a.g, a.nonMain) && HandedOut(x, a.Now(), v, n)
    ensures r == v + n && a.chunks == Split(x.c, v, n, Live, Binned) && PrevUsed(a.hi, v)
    ensures a.slots == (x.s - {v})[r := Slot(1, 0.5)]
  {
    hide ReadyToSplit, Linked, Good, HandedOut, SplitTook;
    ghost var y := a.Now();
    SplitRoom(x, y, a.g, a.nonMain, v, n);
    r := v + n;
    SoleInsert(a.slots, a.lo, a.hi, v, r);
    a.lo := a.lo[r + 1 := Hdr(1)];
    a.lo := a.lo[Hdr(1) + 1 := r];
    a.hi := a.hi[r + 1 := Ptr(Hdr(1))];
    a.hi := a.hi[Hdr(1) + 1 := Ptr(r)];
    ghost var z := a.Now();
    a.hi := a.hi[v := Size(n, true, a.nonMain)];
    a.hi := a.hi[r := Size(size - n, true, false)];
    a.lo := a.lo[v + size := size - n];
    a.slots := (a.slots - {v})[r := Slot(1, 0.5)];
    a.chunks := Split(a.chunks, v, n, Live, Binned);
    SplitIsTook(x, y, z.lo, z.hi, a.Now(), a.g, a.nonMain, v, n, v + size);
    SplitTake(x, a.Now(), a.g, a.nonMain, v, n, v + size);
  }

  lemma SplitRoom(x: St, y: St, g: int, nm: bool, v: int, n: int)
    requires ReadyToSplit(x, y, g, nm, v) && 2 <= n && n + 2 <= x.c[v].size
    ensures var r := v + n; r > 0 && r !in y.s && r !in x.c && r + 1 in y.lo && r + 1 in y.hi && r in y.lo && r in y.hi
    ensures Good(x, g, nm) && Linked(y.s, y.lo, y.hi) && v in x.c && y == x.(lo := y.lo, hi := y.hi, s := y.s)
    ensures (forall q :: q in y.s && y.s[q].bin == 1 ==> q == v) && (v in y.s ==> y.s[v].bin == 1)
    ensures y.s - {v} == x.s - {v}
  {
    hide Linked, FastLinked, FastIndexed, Tagged;
    BinnedIs(x, g, nm, v);
    InsideMapped(x, v, v + n);
    InsideMapped(x, v, v + n + 1);
    assert v + n in x.c ==> Apart(x.c, v, v + n);
    OnlyBinnedListed(x, g, nm, v + n);
  }

  lemma SplitIsTook(x: St, y: St, lo1: map<int, int>, hi1: map<int, Word>, w: St, g: int, nm: bool, v: int, n: int, e: int)
    requires ReadyToSplit(x, y, g, nm, v) && e == v + x.c[v].size && 2 <= n && n + 2 <= x.c[v].size
    requires var r := v + n;
      && lo1 == y.lo[r + 1 := Hdr(1)][Hdr(1) + 1 := r] && hi1 == y.hi[r + 1 := Ptr(Hdr(1))][Hdr(1) + 1 := Ptr(r)]
      && Linked(w.s, lo1, hi1) && w.s == (x.s - {v})[r := Slot(1, 0.5)]
      && r in y.lo && r in y.hi && r + 1 in y.lo && r + 1 in y.hi && r !in x.c
      && w == x.(lo := lo1[e := e - r], hi := hi1[v := Size(n, true, nm)][r := Size(e - r, true, false)], s := w.s, c := Split(x.c, v, n, Live, Binned))
    ensures SplitTook(x, w, nm, v, n, e)
  {
    hide FastLinked, FastIndexed, RegionsOk, Placed, Tagged, Indexed, Linked;
    BinnedIs(x, g, nm, v);
    HeaderWords(x, y, g, nm, v);
    SplitWords(x, y, lo1, hi1, w, g, nm, v, n, e);
    SplitLinks(x, lo1, hi1, w, g, nm, v, n, e);
  }

  lemma HeaderWords(x: St, y: St, g: int, nm: bool, v: int)
    requires ReadyToSplit(x, y, g, nm, v)
    ensures Hdr(1) + 1 in y.lo && Hdr(1) + 1 in y.hi && Hdr(1) + 1 in x.lo && Hdr(1) + 1 in x.hi
  {
    assert LinkAt(y.s, y.lo, y.hi, Hdr(1));
  }

  lemma SplitWords(x: St, y: St, lo1: map<int, int>, hi1: map<int, Word>, w: St, g: int, nm: bool, v: int, n: int, e: int)
    requires ReadyToSplit(x, y, g, nm, v) && e == v + x.c[v].size && 2 <= n && n + 2 <= x.c[v].size
    requires Hdr(1) + 1 in y.lo && Hdr(1) + 1 in y.hi
    requires var r := v + n;
      && lo1 == y.lo[r + 1 := Hdr(1)][Hdr(1) + 1 := r] && hi1 == y.hi[r + 1 := Ptr(Hdr(1))][Hdr(1) + 1 := Ptr(r)]
      && r in y.lo && r in y.hi && r + 1 in y.lo && r + 1 in y.hi
      && w.lo == lo1[e := e - r] && w.hi == hi1[v := Size(n, true, nm)][r := Size(e - r, true, false)]
    ensures WithinLo(x.s, v, e, x.lo, w.lo) && WithinHi(x.s, v, e, x.hi, w.hi)
    ensures e in w.hi && e in x.hi && w.hi[e] == x.hi[e]
  {
    hide FastLinked, FastIndexed, RegionsOk, Placed, Tagged, Tiled, Indexed, Linked;
    BinnedIs(x, g, nm, v);
    HeadsAfterLinks(x, g, nm, y.lo, y.hi, v);
    HeadsAfterLinks(x, g, nm, y.lo, y.hi, e);
    assert Node(x.s, Hdr(1));
  }

  lemma SplitLinks(x: St, lo1: map<int, int>, hi1: map<int, Word>, w: St, g: int, nm: bool, v: int, n: int, e: int)
    requires Good(x, g, nm) && v in x.c && x.c[v].tag == Binned && e == v + x.c[v].size && 2 <= n && n + 2 <= x.c[v].size && e in x.c
    requires Linked(w.s, lo1, hi1) && w.s == (x.s - {v})[v + n := Slot(1, 0.5)] && v + n !in x.c
    requires var r := v + n; w.lo == lo1[e := e - r] && w.hi == hi1[v := Size(n, true, nm)][r := Size(e - r, true, false)]
    ensures Linked(w.s, w.lo, w.hi)
  {
    hide FastLinked, FastIndexed, RegionsOk, Placed, Tagged, Linked;
    assert ChunkAt(x.c, v);
    forall q | Node(w.s, q)
      ensures q + 1 != e && q + 1 != v && q + 1 != v + n
    {
      assert q in x.s ==> SlotFits(x.s, x.c, g, q);
      assert q in x.c ==> ChunkAt(x.c, q) && Apart(x.c, q, v) && Apart(x.c, v, q) && Apart(x.c, q, e);
    }
    LinkedFrame(w.s, lo1, hi1, w.lo, w.hi);
  }
}
