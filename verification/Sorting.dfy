/** The sorted insertion of a chunk into a large bin. */
module Sorting {
  import opened Memory
  import opened Sizes
  import opened BinLists
  import opened Chunks
  import opened Frames
  import opened FastLists
  import opened Layout
  import opened State
  import opened Arenas
  import opened Consolidating
  import opened Taking
  import opened Carving

  // Only list membership and link words differ.
  ghost predicate Relinked(x: St, y: St, g: int) {
    && y == x.(lo := y.lo, hi := y.hi, s := y.s)
    && Linked(y.s, y.lo, y.hi) && Indexed(y.s, x.c, g)
    && WroteLo(x.s, {}, x.lo, y.lo) && WroteHi(x.s, {}, x.hi, y.hi)
  }

  lemma RelinkGood(x: St, y: St, g: int, nm: bool)
    requires Good(x, g, nm) && Relinked(x, y, g)
    ensures Good(y, g, nm) && Unnoticed(x, y)
  {
    hide Linked, Indexed, Placed, WroteLo, WroteHi, SameBody, FastLinked;
    forall q | q in y.c
      ensures HeadAt(y.c, y.lo, y.hi, nm, q)
    {
      RelinkHead(x, y, g, nm, q);
    }
    RelinkFast(x, y, g, nm);
    RelinkRegions(x, y, g, nm);
    forall q | q in x.c && x.c[q].tag == Live
      ensures SameBody(x.lo, x.hi, y.lo, y.hi, q, x.c[q].size)
    {
      RelinkBody(x, y, g, nm, q);
    }
  }

  lemma RelinkHead(x: St, y: St, g: int, nm: bool, q: int)
    requires Good(x, g, nm) && Relinked(x, y, g) && q in x.c
    ensures HeadAt(y.c, y.lo, y.hi, nm, q)
  {
    hide Linked, Indexed, Placed, WroteLo, WroteHi, FastLinked, FastIndexed, RegionsOk;
    assert HeadAt(x.c, x.lo, x.hi, nm, q) && ChunkAt(x.c, q);
    HeadsAfterLinks(x, g, nm, y.lo, y.hi, q);
    if !Ends(x.c[q].tag) { HeadsAfterLinks(x, g, nm, y.lo, y.hi, q + x.c[q].size); }
  }

  lemma RelinkRegions(x: St, y: St, g: int, nm: bool)
    requires Good(x, g, nm) && Relinked(x, y, g)
    ensures RegionsOk(y.rs, y.lo, y.hi)
  {
    hide Linked, Indexed, Placed, FastLinked, FastIndexed, Tagged, Tiled;
  }

  lemma RelinkBody(x: St, y: St, g: int, nm: bool, q: int)
    requires Good(x, g, nm) && Relinked(x, y, g) && q in x.c && Used(x.c[q].tag)
    ensures SameBody(x.lo, x.hi, y.lo, y.hi, q, x.c[q].size)
  {
    hide Linked, Placed, FastLinked, FastIndexed, RegionsOk, Tagged, Indexed;
    assert Idle(x.c, x.s, -1) by { AllIdle(x, g, nm); }
    assert ChunkAt(x.c, q);
    forall j | q <= j < q + x.c[q].size
      ensures !Node(x.s, j)
    {
      NoLinkInBody(x.c, x.s, -1, q, j + 1);
    }
  }

  lemma AllIdle(x: St, g: int, nm: bool)
    requires Good(x, g, nm)
    ensures Idle(x.c, x.s, -1)
  {
    forall q | q in x.s
      ensures q in x.c && x.c[q].tag == Binned
    {
      assert SlotFits(x.s, x.c, g, q);
    }
  }

  lemma RelinkFast(x: St, y: St, g: int, nm: bool)
    requires Good(x, g, nm) && Relinked(x, y, g)
    ensures FastLinked(y.f, y.lo, y.heads)
  {
    hide Linked, Placed, RegionsOk, Tagged, Indexed, WroteLo, WroteHi;
    forall p | p in x.f
      ensures p + 1 in x.lo && p + 1 in y.lo && y.lo[p + 1] == x.lo[p + 1]
    {
      assert FastFits(x.f, x.c, g, p) && FastAt(x.f, x.lo, p) && ChunkAt(x.c, p);
      RelinkBody(x, y, g, nm, p);
    }
    FastFrame(x.f, x.lo, y.lo, x.heads);
  }

  // ---- where a chunk of n granules goes in its bin

  // The place between bk and fd keeps the bin sorted from large to small.
  ghost predicate PlaceOk(s: map<int, Slot>, c: map<int, Chunk>, i: int, n: int, bk: int, fd: int) {
    && Node(s, bk) && Node(s, fd) && BinOf(s, bk) == i && BinOf(s, fd) == i
    && (i >= 64 ==> forall q {:trigger c[q]} :: q in s && q in c && s[q].bin == i ==>
          (s[q].key <= KeyFrom(s, bk) ==> c[q].size >= n) && (s[q].key >= KeyTo(s, fd) ==> c[q].size <= n))
  }

  // Two consecutive nodes leave nothing between them.
  lemma NothingBetween(s: map<int, Slot>, lo: map<int, int>, hi: map<int, Word>, bk: int, q: int)
    requires Linked(s, lo, hi) && Node(s, bk) && q in s && s[q].bin == BinOf(s, bk)
    ensures LinkAt(s, lo, hi, bk)
    ensures s[q].key <= KeyFrom(s, bk) || s[q].key >= KeyTo(s, lo[bk + 1])
  {
    assert LinkAt(s, lo, hi, bk);
    assert GapAt(s, lo, bk, q);
  }

  lemma InsertIndexed(x: St, g: int, nm: bool, v: int, i: int, bk: int, fd: int, key: real)
    requires Good(x, g, nm) && v in x.c && x.c[v].tag == Binned && 2 <= i <= 126 && i == BinIndex(Bytes(g, x.c[v].size))
    requires var s := x.s - {v}; PlaceOk(s, x.c, i, x.c[v].size, bk, fd) && KeyFrom(s, bk) < key < KeyTo(s, fd)
    requires var s := x.s - {v}; forall q :: q in s && s[q].bin == i ==> s[q].key <= KeyFrom(s, bk) || s[q].key >= KeyTo(s, fd)
    ensures Indexed((x.s - {v})[v := Slot(i, key)], x.c, g)
  {
    hide Linked, Placed, RegionsOk, Tagged, FastLinked, FastIndexed, Tiled, BinIndex, Bytes;
    var s, s' := x.s - {v}, (x.s - {v})[v := Slot(i, key)];
    forall p | p in s'
      ensures SlotFits(s', x.c, g, p)
    {
      if p != v { assert SlotFits(x.s, x.c, g, p); }
    }
    forall p, q | p in s' && q in s' && p in x.c && q in x.c
      ensures SortedAt(s', x.c, p, q)
    {
      if p != v && q != v { assert SortedAt(x.s, x.c, p, q); }
    }
  }

  ghost predicate HeadsReadable(s: map<int, Slot>, c: map<int, Chunk>, hi: map<int, Word>) {
    forall q {:trigger q in s} :: q in s ==> q in c && q in hi && hi[q] == Size(c[q].size, true, false)
  }

  ghost predicate Descending(s: map<int, Slot>, c: map<int, Chunk>) {
    forall p, q {:trigger SortedAt(s, c, p, q)} :: p in s && q in s && p in c && q in c ==> SortedAt(s, c, p, q)
  }

  lemma BinnedReadable(x: St, y: St, g: int, nm: bool, v: int)
    requires OffList(x, y, g, nm, v)
    ensures HeadsReadable(y.s, x.c, y.hi) && Descending(y.s, x.c)
  {
    hide Linked, Placed, RegionsOk, FastLinked, FastIndexed, Tiled, Tagged;
    forall q | q in y.s
      ensures q in x.c && q in y.hi && y.hi[q] == Size(x.c[q].size, true, false)
    {
      assert SlotFits(x.s, x.c, g, q);
      BinnedIs(x, g, nm, q);
      HeadsAfterLinks(x, g, nm, y.lo, y.hi, q);
    }
    forall p, q | p in y.s && q in y.s && p in x.c && q in x.c
      ensures SortedAt(y.s, x.c, p, q)
    {
      assert SortedAt(x.s, x.c, p, q);
    }
  }

  ghost function NotBefore(s: map<int, Slot>, x: int): set<int>
    requires x in s
  { set q | q in s && s[q].key >= s[x].key }

  method FindPlace(a: Arena, ghost c: map<int, Chunk>, i: int, n: int) returns (bck: int, fwd: int)
    requires Linked(a.slots, a.lo, a.hi) && 2 <= i <= 126 && HeadsReadable(a.slots, c, a.hi) && Descending(a.slots, c)
    ensures PlaceOk(a.slots, c, i, n, bck, fwd) && bck + 1 in a.lo && fwd == a.lo[bck + 1]
  {
    hide Linked, LinkAt, GapAt, SortedAt;
    ghost var s, lo, hi := a.slots, a.lo, a.hi;
    bck := Hdr(i);
    LinkOf(s, lo, hi, bck);
    fwd := a.lo[bck + 1];
    if i >= 64 && fwd != bck {
      FirstOf(s, lo, hi, i, fwd);
      var last := a.hi[bck + 1].to;
      LastIs(s, lo, hi, i, last);
      if n <= a.hi[last].n {
        fwd := bck;
        bck := last;
        AtEnd(s, c, lo, hi, i, n, last);
      } else {
        while n < a.hi[fwd].n
          invariant fwd in s && fwd > 0 && s[fwd].bin == i
          invariant forall q {:trigger c[q]} :: q in s && q in c && s[q].bin == i && s[q].key < s[fwd].key ==> c[q].size > n
          decreases NotBefore(s, fwd)
        {
          ghost var was := fwd;
          StepForward(s, c, lo, hi, i, n, fwd, last);
          fwd := a.lo[fwd + 1];
          assert was in NotBefore(s, was) && was !in NotBefore(s, fwd);
        }
        LinkOf(s, lo, hi, fwd);
        bck := a.hi[fwd + 1].to;
        StopHere(s, c, lo, hi, i, n, fwd, bck);
      }
    } else if i >= 64 {
      EmptyBin(s, lo, hi, i);
    }
  }

  lemma LinkOf(s: map<int, Slot>, lo: map<int, int>, hi: map<int, Word>, x: int)
    requires Linked(s, lo, hi) && Node(s, x)
    ensures LinkAt(s, lo, hi, x) && x + 1 in lo && x + 1 in hi && hi[x + 1].Ptr? && Node(s, lo[x + 1]) && Node(s, hi[x + 1].to)
    ensures BinOf(s, lo[x + 1]) == BinOf(s, x) && BinOf(s, hi[x + 1].to) == BinOf(s, x)
    ensures hi[x + 1].to + 1 in lo && lo[hi[x + 1].to + 1] == x
    ensures lo[x + 1] + 1 in hi && hi[lo[x + 1] + 1] == Ptr(x)
    ensures KeyFrom(s, x) < KeyTo(s, lo[x + 1])
  {
  }

  lemma LastIs(s: map<int, Slot>, lo: map<int, int>, hi: map<int, Word>, i: int, last: int)
    requires Linked(s, lo, hi) && 2 <= i <= 126 && Hdr(i) + 1 in lo && lo[Hdr(i) + 1] != Hdr(i) && Hdr(i) + 1 in hi && hi[Hdr(i) + 1] == Ptr(last)
    ensures last in s && last > 0 && s[last].bin == i && last + 1 in lo && lo[last + 1] == Hdr(i)
    ensures forall q :: q in s && s[q].bin == i && q != last ==> s[q].key < s[last].key
  {
    EmptyBin(s, lo, hi, i);
    LastOf(s, lo, hi, i, last);
  }

  lemma AtEnd(s: map<int, Slot>, c: map<int, Chunk>, lo: map<int, int>, hi: map<int, Word>, i: int, n: int, last: int)
    requires Linked(s, lo, hi) && 64 <= i <= 126 && HeadsReadable(s, c, hi) && Descending(s, c)
    requires last in s && last > 0 && s[last].bin == i && n <= hi[last].n
    requires forall q :: q in s && s[q].bin == i && q != last ==> s[q].key < s[last].key
    ensures PlaceOk(s, c, i, n, last, Hdr(i))
  {
    forall q | q in s && q in c && s[q].bin == i
      ensures c[q].size >= n
    {
      assert SortedAt(s, c, q, last);
    }
  }

  lemma StepForward(s: map<int, Slot>, c: map<int, Chunk>, lo: map<int, int>, hi: map<int, Word>, i: int, n: int, fwd: int, last: int)
    requires Linked(s, lo, hi) && 64 <= i <= 126 && HeadsReadable(s, c, hi) && Descending(s, c)
    requires fwd in s && fwd > 0 && s[fwd].bin == i && n < hi[fwd].n && last in s && s[last].bin == i && n > hi[last].n
    requires Hdr(i) + 1 in hi && hi[Hdr(i) + 1] == Ptr(last)
    requires forall q {:trigger c[q]} :: q in s && q in c && s[q].bin == i && s[q].key < s[fwd].key ==> c[q].size > n
    ensures fwd + 1 in lo
    ensures var f := lo[fwd + 1]; f in s && f > 0 && s[f].bin == i && s[fwd].key < s[f].key
    ensures var f := lo[fwd + 1]; forall q {:trigger c[q]} :: q in s && q in c && s[q].bin == i && s[q].key < s[f].key ==> c[q].size > n
  {
    hide SortedAt;
    LinkOf(s, lo, hi, fwd);
    var f := lo[fwd + 1];
    assert fwd != last;
    assert IsHdr(f) ==> f == Hdr(i);
    forall q | q in s && q in c && s[q].bin == i && s[q].key < s[f].key
      ensures c[q].size > n
    {
      NothingBetween(s, lo, hi, fwd, q);
      assert GapAt(s, lo, fwd, q);
    }
  }

  lemma StopHere(s: map<int, Slot>, c: map<int, Chunk>, lo: map<int, int>, hi: map<int, Word>, i: int, n: int, fwd: int, bck: int)
    requires Linked(s, lo, hi) && 64 <= i <= 126 && HeadsReadable(s, c, hi) && Descending(s, c)
    requires fwd in s && fwd > 0 && s[fwd].bin == i && n >= hi[fwd].n
    requires forall q {:trigger c[q]} :: q in s && q in c && s[q].bin == i && s[q].key < s[fwd].key ==> c[q].size > n
    requires LinkAt(s, lo, hi, fwd) && hi[fwd + 1] == Ptr(bck)
    ensures PlaceOk(s, c, i, n, bck, fwd)
  {
    LinkOf(s, lo, hi, bck);
    forall q | q in s && q in c && s[q].bin == i && s[q].key >= s[fwd].key
      ensures c[q].size <= n
    {
      assert SortedAt(s, c, fwd, q);
      assert GapAt(s, lo, fwd, q);
    }
  }

  // Put v, which is off its list, into bin i between bk and fd.
  method PutInBin(a: Arena, ghost x: St, v: int, i: int, bck: int, fwd: int)
    requires OffList(x, a.Now(), a.g, a.nonMain, v) && 2 <= i <= 126 && i == BinIndex(Bytes(a.g, x.c[v].size))
    requires PlaceOk(a.slots, x.c, i, x.c[v].size, bck, fwd) && bck + 1 in a.lo && fwd == a.lo[bck + 1]
    modifies a`lo, a`hi, a`slots
    ensures Good(a.Now(), a.g, a.nonMain) && Unnoticed(x, a.Now())
    ensures v in a.slots && a.slots == (x.s - {v})[v := a.slots[v]] && a.slots[v].bin == i
  {
    hide OffList, Linked, Good, Unnoticed, Relinked, PlaceOk;
    ghost var y := a.Now();
    PutRoom(x, y, a.g, a.nonMain, v, i, bck, fwd);
    ghost var key := (KeyFrom(a.slots, bck) + KeyTo(a.slots, fwd)) / 2.0;
    InsertKeeps(a.slots, a.lo, a.hi, v, bck, fwd, key);
    InsertIndexed(x, a.g, a.nonMain, v, i, bck, fwd, key);
    a.hi := a.hi[v + 1 := Ptr(bck)];
    a.lo := a.lo[v + 1 := fwd];
    a.lo := a.lo[bck + 1 := v];
    a.hi := a.hi[fwd + 1 := Ptr(v)];
    a.slots := a.slots[v := Slot(i, key)];
    PutWords(x, y, a.Now(), a.g, a.nonMain, v, i, bck, fwd, key);
    RelinkGood(x, a.Now(), a.g, a.nonMain);
  }

  lemma PutRoom(x: St, y: St, g: int, nm: bool, v: int, i: int, bck: int, fwd: int)
    requires OffList(x, y, g, nm, v) && 2 <= i <= 126
    requires PlaceOk(y.s, x.c, i, x.c[v].size, bck, fwd) && bck + 1 in y.lo && fwd == y.lo[bck + 1]
    ensures Good(x, g, nm) && Linked(y.s, y.lo, y.hi) && y == x.(lo := y.lo, hi := y.hi, s := x.s - {v}) && v in x.s
    ensures v !in y.s && v > 0 && v + 1 in y.lo && v + 1 in y.hi && Node(y.s, bck) && Node(y.s, fwd) && BinOf(y.s, bck) == i
    ensures KeyFrom(y.s, bck) < KeyTo(y.s, fwd) && v in x.c && x.c[v].tag == Binned
    ensures PlaceOk(x.s - {v}, x.c, i, x.c[v].size, bck, fwd)
    ensures forall q :: q in y.s && y.s[q].bin == i ==> y.s[q].key <= KeyFrom(y.s, bck) || y.s[q].key >= KeyTo(y.s, fwd)
  {
    hide Linked, Placed, RegionsOk, FastLinked, FastIndexed, Tiled, Tagged, Indexed;
    BinnedIs(x, g, nm, v);
    LinkOf(y.s, y.lo, y.hi, bck);
    forall q | q in y.s && y.s[q].bin == i
      ensures y.s[q].key <= KeyFrom(y.s, bck) || y.s[q].key >= KeyTo(y.s, fwd)
    {
      NothingBetween(y.s, y.lo, y.hi, bck, q);
    }
  }

  lemma PutWords(x: St, y: St, w: St, g: int, nm: bool, v: int, i: int, bck: int, fwd: int, key: real)
    requires OffList(x, y, g, nm, v) && v in x.s && Node(y.s, bck) && Node(y.s, fwd)
    requires w == y.(lo := y.lo[v + 1 := fwd][bck + 1 := v], hi := y.hi[v + 1 := Ptr(bck)][fwd + 1 := Ptr(v)], s := y.s[v := Slot(i, key)])
    requires Linked(w.s, w.lo, w.hi) && Indexed(w.s, x.c, g)
    ensures Relinked(x, w, g)
  {
    hide Placed, RegionsOk, FastLinked, FastIndexed, Tiled, Tagged, Indexed;
    assert LinkAt(y.s, y.lo, y.hi, bck) && LinkAt(y.s, y.lo, y.hi, fwd) && LinkAt(w.s, w.lo, w.hi, v);
    BinnedIs(x, g, nm, v);
  }
}
