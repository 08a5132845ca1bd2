/** What chunks a freed chunk merges with. */
module Release {
  import opened Memory
  import opened BinLists
  import opened Chunks
  import opened Frames
  import opened FastLists
  import opened Layout
  import opened State

  // Where the free neighbours of p begin and end.
  ghost function LowEdge(c: map<int, Chunk>, p: int): int {
    if exists b :: b in c && c[b].tag == Binned && b + c[b].size == p
    then var b :| b in c && c[b].tag == Binned && b + c[b].size == p; b
    else p
  }

  ghost function HighEdge(c: map<int, Chunk>, p: int): int
    requires p in c
  {
    var n := p + c[p].size;
    if n in c && (c[n].tag == Binned || c[n].tag == Top) then n + c[n].size else n
  }

  // p and its free neighbours become one free chunk, or the new top.
  ghost function Released(c: map<int, Chunk>, p: int): map<int, Chunk>
    requires p in c
  {
    var n := p + c[p].size;
    var b := LowEdge(c, p);
    if b !in c then c
    else Fuse(c, b, HighEdge(c, p), if n in c && c[n].tag == Top then Top else Binned)
  }

  lemma LowEdgeIs(x: St, g: int, nm: bool, p: int)
    requires Good(x, g, nm) && p in x.c
    ensures p in x.hi && x.hi[p].Size? && p in x.lo
    ensures LowEdge(x.c, p) == if x.hi[p].p then p else p - x.lo[p]
    ensures !x.hi[p].p ==> p - x.lo[p] in x.s && p - x.lo[p] in x.c && x.c[p - x.lo[p]] == Chunk(x.lo[p], Binned, x.c[p].home)
    ensures LowEdge(x.c, p) in x.c
    ensures var b := LowEdge(x.c, p); b in x.hi && x.hi[b].Size? && (b != p ==> x.hi[b].p)
  {
    hide Linked, Placed, RegionsOk, FastLinked, FastIndexed;
    assert HeadAt(x.c, x.lo, x.hi, nm, p);
    if x.hi[p].p {
      PrevInUse(x.c, x.lo, x.hi, nm, p);
    } else {
      var b := p - x.lo[p];
      assert ChunkAt(x.c, b);
      BinnedHasLivePrev(x.c, x.lo, x.hi, nm, b);
      forall q | q in x.c && x.c[q].tag == Binned && q + x.c[q].size == p
        ensures q == b
      {
        assert Apart(x.c, q, b) && Apart(x.c, b, q) && ChunkAt(x.c, q);
      }
    }
  }

  // What free reads about the chunk after p.
  lemma NextIs(x: St, g: int, nm: bool, p: int)
    requires Good(x, g, nm) && p in x.c && x.c[p].tag == Live
    ensures p in x.hi && x.hi[p].Size? && x.hi[p] == Size(x.c[p].size, x.hi[p].p, nm)
    ensures var n := p + x.c[p].size;
      && n in x.c && x.c[n].tag != Last && x.c[n].home == x.c[p].home
      && n in x.hi && x.hi[n].Size? && x.hi[n].p && x.hi[n].n == x.c[n].size
      && (x.c[n].tag == Top <==> n == x.top)
      && (n != x.top ==> var e := n + x.c[n].size;
          e in x.c && e in x.hi && x.hi[e].Size? && x.hi[e].p == (x.c[n].tag != Binned))
      && (x.c[n].tag == Binned ==> n in x.s)
  {
    hide Linked, RegionsOk, FastLinked, FastIndexed;
    var n := p + x.c[p].size;
    assert HeadAt(x.c, x.lo, x.hi, nm, p) && ChunkAt(x.c, p);
    assert HeadAt(x.c, x.lo, x.hi, nm, n) && ChunkAt(x.c, n);
    assert PlacedAt(x.c, x.rs, n);
    assert x.c[n].home + 1 <= |x.rs|;
    assert CornerAt(x.c, x.rs, x.top, |x.rs| - 1);
  }

  // The stretch [b, e) that p and its free neighbours fill.
  ghost predicate Span(x: St, p: int, b: int, e: int) {
    && p in x.c && x.c[p].tag == Live && b == LowEdge(x.c, p) && e == HighEdge(x.c, p) && b in x.c
    && (b != p ==> x.c[b].tag == Binned && b + x.c[b].size == p && x.c[b].home == x.c[p].home)
  }

  ghost function SpanTag(x: St, p: int): Tag
    requires p in x.c
  { var n := p + x.c[p].size; if n in x.c && x.c[n].tag == Top then Top else Binned }

  lemma SpanPieces(x: St, g: int, nm: bool, p: int, b: int, e: int)
    requires Good(x, g, nm) && Span(x, p, b, e)
    ensures 0 < b <= p < e && x.c[b].size >= 2 && x.c[p].size >= 2 && x.c[b].home == x.c[p].home && p + x.c[p].size <= e
    ensures SpanTag(x, p) == Top ==> p + x.c[p].size < e
    ensures Pieces(x.c, x.c[b].home, b, e)
    ensures forall q :: q in x.c && b <= q < e ==> q == b || q == p || q == p + x.c[p].size
    ensures forall q :: q in x.c && b <= q < e && q != p ==> x.c[q].tag == Binned || x.c[q].tag == Top
    ensures SpanTag(x, p) == Binned ==>
      e in x.c && x.c[e].home == x.c[b].home && x.c[e].tag != Binned && x.c[e].tag != Top && x.c[e].tag != Last
  {
    hide Linked, RegionsOk, FastLinked, FastIndexed, Placed, Tagged;
    var n := p + x.c[p].size;
    assert ChunkAt(x.c, b) && ChunkAt(x.c, p) && ChunkAt(x.c, n);
    forall q | q in x.c && b <= q < e
      ensures q == b || q == p || q == n
    {
      assert Apart(x.c, b, q) && Apart(x.c, q, p) && Apart(x.c, p, q) && Apart(x.c, q, n) && Apart(x.c, n, q) && ChunkAt(x.c, q);
    }
  }

  lemma SpanRecut(x: St, g: int, nm: bool, p: int, b: int, e: int)
    requires Good(x, g, nm) && Span(x, p, b, e)
    ensures Recut(x.c, Released(x.c, p), b, e)
    ensures Released(x.c, p) == Fuse(x.c, b, e, SpanTag(x, p))
    ensures forall q :: q in Released(x.c, p) && b <= q < e ==> q == b
  {
    SpanPieces(x, g, nm, p, b, e);
    NoFence(x.c, b);
  }

  lemma SpanTiled(x: St, g: int, nm: bool, p: int, b: int, e: int)
    requires Good(x, g, nm) && Span(x, p, b, e) && NoBinnedBefore(x.c, b)
    ensures Tiled(Released(x.c, p))
  {
    hide Linked, RegionsOk, FastLinked, FastIndexed, Placed, Tagged, Tiled, Released;
    var d := Released(x.c, p);
    SpanPieces(x, g, nm, p, b, e);
    SpanRecut(x, g, nm, p, b, e);
    assert ChunkAt(d, b) && Apart(d, b, b);
    RecutTiled(x.c, d, b, e);
  }

  lemma SpanPlaced(x: St, g: int, nm: bool, p: int, b: int, e: int, top: int)
    requires Good(x, g, nm) && Span(x, p, b, e)
    requires top == if SpanTag(x, p) == Top then b else x.top
    ensures Placed(Released(x.c, p), x.rs, top)
  {
    hide Linked, RegionsOk, FastLinked, FastIndexed, Tagged, Released;
    var n := p + x.c[p].size;
    SpanPieces(x, g, nm, p, b, e);
    SpanRecut(x, g, nm, p, b, e);
    NextIs(x, g, nm, p);
    assert PlacedAt(x.c, x.rs, b) && PlacedAt(x.c, x.rs, p) && PlacedAt(x.c, x.rs, n);
    assert CornerAt(x.c, x.rs, x.top, |x.rs| - 1);
    PlacedRecut(x.c, Released(x.c, p), x.rs, x.top, top, b, e);
  }

  // The writes of the path that puts the merged chunk on the unsorted list.
  ghost predicate FreedBinned(x: St, y: St, p: int, b: int, e: int) {
    && Span(x, p, b, e) && SpanTag(x, p) == Binned
    && y.c == Released(x.c, p)
    && b in y.s && y.s[b].bin == 1 && y.s == (x.s - {b, p + x.c[p].size})[b := y.s[b]]
    && Linked(y.s, y.lo, y.hi) && Rewrote(x, y, b, e) && y.f == x.f && y.top == x.top
    && b in y.hi && y.hi[b] == Size(e - b, true, false)
    && e in x.hi && x.hi[e].Size? && e in y.hi && y.hi[e] == x.hi[e].(p := false)
    && e in y.lo && y.lo[e] == e - b
  }

  lemma FreedBinnedSettles(x: St, y: St, g: int, nm: bool, p: int, b: int, e: int)
    requires Good(x, g, nm) && FreedBinned(x, y, p, b, e)
    requires b in x.hi && x.hi[b].Size? && x.hi[b].p && NoBinnedBefore(x.c, b)
    ensures Settled(x, y, nm, b, e)
  {
    hide Linked, RegionsOk, FastLinked, FastIndexed, Tagged, Released, Tiled, Placed, WroteLo, WroteHi, Indexed;
    SpanPieces(x, g, nm, p, b, e);
    SpanRecut(x, g, nm, p, b, e);
    SpanTiled(x, g, nm, p, b, e);
    SpanPlaced(x, g, nm, p, b, e, y.top);
    FreedBinnedHeads(x, y, g, nm, p, b, e);
    FreedSlots(x, y, g, nm, p, b, e);
  }

  lemma FreedSlots(x: St, y: St, g: int, nm: bool, p: int, b: int, e: int)
    requires Good(x, g, nm) && FreedBinned(x, y, p, b, e)
    ensures SlotsRecut(x.s, y.s, y.c, b, e)
  {
    hide Linked, RegionsOk, FastLinked, FastIndexed, Tagged, Released, Tiled, Placed, WroteLo, WroteHi;
    SpanPieces(x, g, nm, p, b, e);
    SpanRecut(x, g, nm, p, b, e);
    forall q | q in y.s && b <= q < e
      ensures q == b
    {
      if q in x.s { assert SlotFits(x.s, x.c, g, q); }
    }
    assert p + x.c[p].size in x.s ==> SlotFits(x.s, x.c, g, p + x.c[p].size);
  }

  lemma FreedBinnedHeads(x: St, y: St, g: int, nm: bool, p: int, b: int, e: int)
    requires Good(x, g, nm) && FreedBinned(x, y, p, b, e)
    requires b in x.hi && x.hi[b].Size? && x.hi[b].p
    requires Recut(x.c, y.c, b, e)
    ensures HeadAt(y.c, y.lo, y.hi, nm, b) && HeadAt(y.c, y.lo, y.hi, nm, e)
  {
    hide Linked, RegionsOk, FastLinked, FastIndexed, Released, Placed;
    SpanPieces(x, g, nm, p, b, e);
    SpanRecut(x, g, nm, p, b, e);
    assert HeadAt(x.c, x.lo, x.hi, nm, e) && HeadAt(x.c, x.lo, x.hi, nm, b);
    SlotsIdle(x, g, b);
    HeadsKeptBy(x.c, x.s, x.lo, x.hi, y.lo, y.hi, nm, b, e);
    NoLinkAtStart(x.c, x.s, b, b);
    HeadEnd(x.c, y.c, x.lo, x.hi, y.lo, y.hi, nm, b, e, b);
  }

  // The writes of the path that merges the chunk into the top.
  ghost predicate FreedTop(x: St, y: St, p: int, b: int, e: int) {
    && Span(x, p, b, e) && SpanTag(x, p) == Top
    && y.c == Released(x.c, p)
    && y.s == x.s - {b}
    && Linked(y.s, y.lo, y.hi) && y.f == x.f && y.top == b && y.heads == x.heads && y.rs == x.rs
    && WroteLo(x.s, {}, x.lo, y.lo) && WroteHi(x.s, {b}, x.hi, y.hi)
    && b in y.hi && y.hi[b] == Size(e - b, true, false)
  }

  lemma FreedTopSettles(x: St, y: St, g: int, nm: bool, p: int, b: int, e: int)
    requires Good(x, g, nm) && FreedTop(x, y, p, b, e)
    requires b in x.hi && x.hi[b].Size? && x.hi[b].p && NoBinnedBefore(x.c, b)
    ensures Settled(x, y, nm, b, e)
  {
    hide Linked, RegionsOk, FastLinked, FastIndexed, Tagged, Released, Tiled, Placed, Indexed;
    SpanPieces(x, g, nm, p, b, e);
    SpanRecut(x, g, nm, p, b, e);
    SpanTiled(x, g, nm, p, b, e);
    SpanPlaced(x, g, nm, p, b, e, y.top);
    RewroteBy(x, y, x.s, b, e);
    FreedTopHeads(x, y, g, nm, p, b, e);
    FreedTopSlots(x, y, g, nm, p, b, e);
  }

  lemma FreedTopSlots(x: St, y: St, g: int, nm: bool, p: int, b: int, e: int)
    requires Good(x, g, nm) && FreedTop(x, y, p, b, e)
    ensures SlotsRecut(x.s, y.s, y.c, b, e)
  {
    hide Linked, RegionsOk, FastLinked, FastIndexed, Tagged, Released, Tiled, Placed, WroteLo, WroteHi;
    SpanPieces(x, g, nm, p, b, e);
    SpanRecut(x, g, nm, p, b, e);
    forall q | q in x.s && b <= q < e
      ensures q == b
    {
      assert SlotFits(x.s, x.c, g, q);
    }
  }

  lemma FreedTopHeads(x: St, y: St, g: int, nm: bool, p: int, b: int, e: int)
    requires Good(x, g, nm) && FreedTop(x, y, p, b, e) && Recut(x.c, y.c, b, e)
    ensures HeadAt(y.c, y.lo, y.hi, nm, b)
    ensures e in y.c ==> HeadAt(y.c, y.lo, y.hi, nm, e)
  {
    hide Linked, RegionsOk, FastLinked, FastIndexed, Released, Placed, Pieces, SameOutside;
    SpanPieces(x, g, nm, p, b, e);
    SpanRecut(x, g, nm, p, b, e);
    SlotsIdle(x, g, b);
    NoLinkAtStart(x.c, x.s, b, b);
    assert HeadAt(x.c, x.lo, x.hi, nm, b);
    if e in y.c {
      FreedTopAfter(x, y, g, nm, p, b, e);
    }
  }

  lemma FreedTopAfter(x: St, y: St, g: int, nm: bool, p: int, b: int, e: int)
    requires Good(x, g, nm) && FreedTop(x, y, p, b, e) && Recut(x.c, y.c, b, e) && e in y.c
    ensures HeadAt(y.c, y.lo, y.hi, nm, e)
  {
    hide Linked, RegionsOk, FastLinked, FastIndexed, Released, Placed, Pieces;
    SpanPieces(x, g, nm, p, b, e);
    SlotsIdle(x, g, b);
    RewroteBy(x, y, x.s, b, e);
    HeadsKeptBy(x.c, x.s, x.lo, x.hi, y.lo, y.hi, nm, b, e);
    NoLinkAtStart(x.c, x.s, b, e);
    assert HeadAt(x.c, x.lo, x.hi, nm, e);
    HeadAfterTop(x, y, g, nm, b, e);
  }

  // A region may begin where the one of the top ends.
  lemma HeadAfterTop(x: St, y: St, g: int, nm: bool, b: int, e: int)
    requires Base(x, g, nm) && Recut(x.c, y.c, b, e)
    requires HeadsKept(x.c, x.lo, x.hi, y.lo, y.hi, b, e)
    requires e in x.c && e in y.lo && e in y.hi && e in x.lo && e in x.hi && y.lo[e] == x.lo[e] && y.hi[e] == x.hi[e]
    requires forall q :: q in x.c && b <= q < e && q + x.c[q].size == e ==> x.c[q].tag != Binned && x.c[q].tag != Fence
    ensures HeadAt(y.c, y.lo, y.hi, nm, e)
  {
    assert HeadAt(x.c, x.lo, x.hi, nm, e) && ChunkAt(x.c, e);
    if !x.hi[e].p {
      var r := e - x.lo[e];
      assert ChunkAt(x.c, r);
      assert r < b || e <= r;
    }
    if nm && x.c[e].tag == Last {
      var f := e - x.lo[e];
      assert ChunkAt(x.c, f);
      assert f < b || e <= f;
    }
    if !Ends(x.c[e].tag) {
      assert HeadAt(x.c, x.lo, x.hi, nm, e + x.c[e].size);
    }
  }
}
