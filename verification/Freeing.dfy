/** Giving a chunk back to the heap: coalescing with both neighbours, into the top or the unsorted list. */
module Freeing {
  import opened Memory
  import opened BinLists
  import opened Chunks
  import opened Frames
  import opened FastLists
  import opened Layout
  import opened State
  import opened Arenas
  import opened Release

  lemma OnlyBinnedListed(x: St, g: int, nm: bool, p: int)
    requires Good(x, g, nm)
    ensures p in x.s <==> p in x.c && x.c[p].tag == Binned
  {
    assert p in x.s ==> SlotFits(x.s, x.c, g, p);
  }

  lemma RoomForLinks(x: St, g: int, nm: bool, p: int)
    requires Good(x, g, nm) && p in x.c && x.c[p].size >= 2
    ensures p > 0 && p + 1 in x.lo && p + 1 in x.hi
  {
    assert ChunkAt(x.c, p) && PlacedAt(x.c, x.rs, p);
    assert x.rs[x.c[p].home].base <= p + 1 < x.rs[x.c[p].home].end;
  }

  // p, possibly merged with the free chunk before it, is off the lists.
  ghost predicate MergedBack(x: St, y: St, g: int, nm: bool, p0: int, b: int) {
    && Good(x, g, nm) && p0 in x.c && x.c[p0].tag == Live
    && b == LowEdge(x.c, p0) && b <= p0 && b in x.c && (b == p0 || x.c[b].tag == Binned) && b in x.hi && x.hi[b].Size? && x.hi[b].p
    && y == x.(lo := y.lo, hi := y.hi, s := x.s - {b})
    && Linked(y.s, y.lo, y.hi)
    && WroteLo(x.s, {}, x.lo, y.lo) && WroteHi(x.s, {}, x.hi, y.hi)
  }

  method MergeBack(a: Arena, ghost hs: seq<int>, p0: int) returns (p: int, size: int, ok: bool)
    requires Good(a.View(hs), a.g, a.nonMain) && p0 in a.chunks && a.chunks[p0].tag == Live
    modifies a`lo, a`hi, a`slots
    ensures ok && size == p0 + old(a.chunks)[p0].size - p
    ensures MergedBack(old(a.View(hs)), a.View(hs), a.g, a.nonMain, p0, p)
  {
    hide Linked, LowEdge, Tiled, Tagged, Indexed, FastLinked, FastIndexed, Placed, RegionsOk;
    ghost var x := a.View(hs);
    LowEdgeIs(x, a.g, a.nonMain, p0);
    NextIs(x, a.g, a.nonMain, p0);
    p := p0;
    size := a.hi[p].n;
    ok := true;
    if !a.hi[p].p {
      var prevsize := a.lo[p];
      size := size + prevsize;
      p := p - prevsize;
      LiveHasRoom(x, a.g, a.nonMain, p);
      ok := a.Unlink(p);
    } else {
      OnlyBinnedListed(x, a.g, a.nonMain, p0);
      assert a.slots == x.s - {p};
    }
  }

  // The chunk after the merged one is unlinked, or told that the chunk before it is free.
  ghost predicate MergedNext(x: St, y: St, g: int, nm: bool, p0: int, b: int, e: int) {
    && Good(x, g, nm) && p0 in x.c && x.c[p0].tag == Live && b in x.c
    && b <= p0 < e == HighEdge(x.c, p0)
    && y == x.(lo := y.lo, hi := y.hi, s := x.s - {b, p0 + x.c[p0].size})
    && Linked(y.s, y.lo, y.hi)
    && WroteLo(x.s, {}, x.lo, y.lo) && WroteHi(x.s, {e}, x.hi, y.hi)
    && e in x.c && e in x.lo && e in x.hi && x.hi[e].Size? && e in y.hi && y.hi[e] == x.hi[e].(p := false)
  }

  method MergeNext(a: Arena, ghost hs: seq<int>, ghost x: St, ghost p0: int, p: int, size: int) returns (total: int, ok: bool)
    requires MergedBack(x, a.View(hs), a.g, a.nonMain, p0, p) && size == p0 + x.c[p0].size - p
    requires p + size != x.top
    modifies a`lo, a`hi, a`slots
    ensures ok && MergedNext(x, a.View(hs), a.g, a.nonMain, p0, p, p + total)
  {
    hide Linked, LowEdge, Tiled, Tagged, Indexed, FastLinked, FastIndexed, Placed, RegionsOk;
    NextIs(x, a.g, a.nonMain, p0);
    LiveHasRoom(x, a.g, a.nonMain, p0);
    var next := p + size;
    HeadsAfterLinks(x, a.g, a.nonMain, a.lo, a.hi, next);
    var nextsize := a.hi[next].n;
    HeadsAfterLinks(x, a.g, a.nonMain, a.lo, a.hi, next + nextsize);
    OnlyBinnedListed(x, a.g, a.nonMain, next);
    var nextinuse := a.hi[next + nextsize].p;
    ghost var y := a.View(hs);
    ok := true;
    if !nextinuse {
      ok := a.Unlink(next);
      total := size + nextsize;
      MergeNextFree(x, y, a.View(hs), a.g, a.nonMain, p0, p, p + total);
    } else {
      a.hi := a.hi[next := a.hi[next].(p := false)];
      total := size;
      MergeNextUsed(x, y, a.View(hs), a.g, a.nonMain, p0, p, p + total);
    }
  }

  lemma MergeNextFree(x: St, y: St, z: St, g: int, nm: bool, p0: int, b: int, e: int)
    requires MergedBack(x, y, g, nm, p0, b)
    requires p0 + x.c[p0].size in x.c && x.c[p0 + x.c[p0].size].tag == Binned
    requires e == p0 + x.c[p0].size + x.c[p0 + x.c[p0].size].size
    requires z == y.(lo := z.lo, hi := z.hi, s := y.s - {p0 + x.c[p0].size})
    requires Linked(z.s, z.lo, z.hi) && WroteLo(y.s, {}, y.lo, z.lo) && WroteHi(y.s, {}, y.hi, z.hi)
    ensures MergedNext(x, z, g, nm, p0, b, e)
  {
    hide Linked, LowEdge, Placed, RegionsOk, Tiled, Tagged, FastLinked, FastIndexed, Indexed, WroteLo, WroteHi;
    var n := p0 + x.c[p0].size;
    WroteLoTrans(x.s, {}, x.s, {}, y.s, {}, x.lo, y.lo, z.lo);
    WroteHiTrans(x.s, {}, x.s, {}, y.s, {}, x.hi, y.hi, z.hi);
    WroteHiTrans(x.s, {e}, x.s, {}, y.s, {}, x.hi, y.hi, z.hi);
    NextIs(x, g, nm, p0);
    LiveHasRoom(x, g, nm, p0);
    LiveHasRoom(x, g, nm, n);
    HeadsAfterLinks(x, g, nm, z.lo, z.hi, e);
  }

  lemma MergeNextUsed(x: St, y: St, z: St, g: int, nm: bool, p0: int, b: int, e: int)
    requires MergedBack(x, y, g, nm, p0, b)
    requires e == p0 + x.c[p0].size && e in x.c && x.c[e].tag != Binned && x.c[e].tag != Top
    requires e in y.hi && y.hi[e].Size? && z == y.(hi := y.hi[e := y.hi[e].(p := false)])
    ensures MergedNext(x, z, g, nm, p0, b, e)
  {
    hide Linked, LowEdge, Placed, RegionsOk, Tagged, FastLinked, FastIndexed, Indexed, Tiled;
    HeadsAfterLinks(x, g, nm, y.lo, y.hi, e);
    OnlyBinnedListed(x, g, nm, e);
    LiveHasRoom(x, g, nm, p0);
    assert z.s == x.s - {b, e};
    LiveHasRoom(x, g, nm, b);
    LinksAfterHead(x, g, z.s, b, e, y.lo, y.hi, z.lo, z.hi);
  }

  lemma LiveHasRoom(x: St, g: int, nm: bool, p: int)
    requires Good(x, g, nm) && p in x.c && (x.c[p].tag == Live || x.c[p].tag == Binned)
    ensures x.c[p].size >= 2
  {
    assert ChunkAt(x.c, p);
  }

  method PlaceUnsorted(a: Arena, ghost hs: seq<int>, ghost x: St, ghost p0: int, p: int, size: int)
    requires MergedNext(x, a.View(hs), a.g, a.nonMain, p0, p, p + size) && p == LowEdge(x.c, p0)
    requires x.c[p0 + x.c[p0].size].tag != Top
    requires p != p0 ==> x.c[p].tag == Binned && p + x.c[p].size == p0 && x.c[p].home == x.c[p0].home
    requires NoBinnedBefore(x.c, p) && p in x.hi && x.hi[p].Size? && x.hi[p].p
    modifies a`lo, a`hi, a`slots, a`chunks
    ensures Good(a.View(hs), a.g, a.nonMain)
    ensures a.chunks == Released(x.c, p0)
    ensures BodiesKept(x.c, x.lo, x.hi, a.lo, a.hi, p, p + size)
    ensures OnlyUnsortedAdded(x.s, a.slots)
  {
    hide Linked, LowEdge, WroteLo, WroteHi, Released, BodiesKept, Base, MergedNext, Settled, NoBinnedBefore;
    ghost var y := a.View(hs);
    RoomAfter(x, y, a.g, a.nonMain, p0, p, p + size);
    a.LinkUnsorted(p);
    ghost var z := a.View(hs);
    a.hi := a.hi[p := Size(size, true, false)];
    a.lo := a.lo[p + size := size];
    a.chunks := Released(x.c, p0);
    PlacedUnsorted(x, y, z, a.View(hs), a.g, a.nonMain, p0, p, p + size);
    Settle(x, a.View(hs), a.g, a.nonMain, p, p + size);
  }

  lemma RoomAfter(x: St, y: St, g: int, nm: bool, p0: int, b: int, e: int)
    requires MergedNext(x, y, g, nm, p0, b, e) && (b == p0 || x.c[b].tag == Binned)
    ensures b > 0 && b !in y.s && b + 1 in y.lo && b + 1 in y.hi && Linked(y.s, y.lo, y.hi)
    ensures Good(x, g, nm) && p0 in x.c && b in x.c && y.s == x.s - {b, p0 + x.c[p0].size}
  {
    hide Linked, FastLinked, FastIndexed, Placed, RegionsOk, Indexed;
    LiveHasRoom(x, g, nm, b);
    RoomForLinks(x, g, nm, b);
  }

  lemma PlacedUnsorted(x: St, y: St, z: St, w: St, g: int, nm: bool, p0: int, b: int, e: int)
    requires MergedNext(x, y, g, nm, p0, b, e) && b == LowEdge(x.c, p0) && b in x.c
    requires x.c[p0 + x.c[p0].size].tag != Top
    requires b != p0 ==> x.c[b].tag == Binned && b + x.c[b].size == p0 && x.c[b].home == x.c[p0].home
    requires NoBinnedBefore(x.c, b) && b in x.hi && x.hi[b].Size? && x.hi[b].p
    requires z == y.(lo := z.lo, hi := z.hi, s := z.s) && b in z.s && z.s == y.s[b := z.s[b]] && z.s[b].bin == 1
    requires Linked(z.s, z.lo, z.hi) && WroteLo(WithNode(y.s, b), {}, y.lo, z.lo) && WroteHi(WithNode(y.s, b), {}, y.hi, z.hi)
    requires w == z.(hi := z.hi[b := Size(e - b, true, false)], lo := z.lo[e := e - b], c := Released(x.c, p0))
    ensures Settled(x, w, nm, b, e)
  {
    hide Linked, FastLinked, FastIndexed, Placed, RegionsOk, Indexed, Tiled, Tagged, Released, LowEdge;
    LiveHasRoom(x, g, nm, b);
    var s := WithNode(x.s, b);
    WroteLoTrans(s, {e}, x.s, {}, WithNode(y.s, b), {}, x.lo, y.lo, z.lo);
    WroteHiTrans(s, {b, e}, x.s, {e}, WithNode(y.s, b), {}, x.hi, y.hi, z.hi);
    PlacedWrites(x, y, z, w, g, nm, p0, b, e);
    FreedBinnedSettles(x, w, g, nm, p0, b, e);
  }

  lemma PlacedWrites(x: St, y: St, z: St, w: St, g: int, nm: bool, p0: int, b: int, e: int)
    requires MergedNext(x, y, g, nm, p0, b, e) && b in x.c && x.c[b].size >= 2 && b in x.hi
    requires b in z.s && z.s == y.s[b := z.s[b]] && Linked(z.s, z.lo, z.hi)
    requires WroteHi(WithNode(y.s, b), {}, y.hi, z.hi)
    requires WroteLo(WithNode(x.s, b), {e}, x.lo, z.lo) && WroteHi(WithNode(x.s, b), {b, e}, x.hi, z.hi)
    requires w.s == z.s && w.hi == z.hi[b := Size(e - b, true, false)] && w.lo == z.lo[e := e - b]
    ensures WroteLo(WithNode(x.s, b), {e}, x.lo, w.lo) && WroteHi(WithNode(x.s, b), {b, e}, x.hi, w.hi)
    ensures Linked(w.s, w.lo, w.hi)
    ensures e in w.hi && w.hi[e] == x.hi[e].(p := false) && e in w.lo && w.lo[e] == e - b
  {
    hide Linked, FastLinked, FastIndexed, Placed, RegionsOk, Indexed, Tiled, Tagged;
    LinksAfterHead(x, g, z.s, b, b, z.lo, z.hi, z.lo, w.hi);
    LinksAfterHead(x, g, z.s, b, e, z.lo, w.hi, w.lo, w.hi);
    WithNodeIdle(x.s, x.c, g, b);
    NoLinkAtStart(x.c, WithNode(x.s, b), b, e);
  }

  method MergeTop(a: Arena, ghost hs: seq<int>, ghost x: St, ghost p0: int, p: int, size: int) returns (total: int)
    requires MergedBack(x, a.View(hs), a.g, a.nonMain, p0, p) && size == p0 + x.c[p0].size - p
    requires p + size == x.top && NoBinnedBefore(x.c, p)
    modifies a`hi, a`chunks, a`top
    ensures Good(a.View(hs), a.g, a.nonMain) && p + total == HighEdge(x.c, p0)
    ensures a.chunks == Released(x.c, p0)
    ensures BodiesKept(x.c, x.lo, x.hi, a.lo, a.hi, p, HighEdge(x.c, p0))
    ensures OnlyUnsortedAdded(x.s, a.slots)
  {
    hide Linked, LowEdge, Tiled, Tagged, Indexed, FastLinked, FastIndexed, Placed, RegionsOk, Released, BodiesKept,
      Base;
    ghost var y := a.View(hs);
    NextIs(x, a.g, a.nonMain, p0);
    HeadsAfterLinks(x, a.g, a.nonMain, a.lo, a.hi, p + size);
    total := size + a.hi[p + size].n;
    a.hi := a.hi[p := Size(total, true, false)];
    a.top := p;
    a.chunks := Released(x.c, p0);
    MergedTop(x, y, a.View(hs), a.g, a.nonMain, p0, p, p + total);
    Settle(x, a.View(hs), a.g, a.nonMain, p, p + total);
  }

  lemma MergedTop(x: St, y: St, w: St, g: int, nm: bool, p0: int, b: int, e: int)
    requires MergedBack(x, y, g, nm, p0, b) && NoBinnedBefore(x.c, b)
    requires p0 + x.c[p0].size in x.c && x.c[p0 + x.c[p0].size].tag == Top && e == HighEdge(x.c, p0)
    requires w == y.(hi := y.hi[b := Size(e - b, true, false)], top := b, c := Released(x.c, p0))
    ensures Settled(x, w, nm, b, e)
  {
    hide Linked, FastLinked, FastIndexed, Placed, RegionsOk, Indexed, Tiled, Tagged, Released, LowEdge;
    LiveHasRoom(x, g, nm, b);
    LowEdgeFree(x, g, nm, p0);
    LinksAfterHead(x, g, w.s, b, b, y.lo, y.hi, w.lo, w.hi);
    FreedTopSettles(x, w, g, nm, p0, b, e);
  }

  // The part of free and malloc_consolidate that merges a chunk with its free neighbours.
  method Coalesce(a: Arena, ghost hs: seq<int>, p0: int) returns (size: int, ok: bool)
    requires Good(a.View(hs), a.g, a.nonMain) && p0 in a.chunks && a.chunks[p0].tag == Live
    modifies a`lo, a`hi, a`slots, a`chunks, a`top
    ensures ok && size == HighEdge(old(a.chunks), p0) - LowEdge(old(a.chunks), p0)
    ensures Good(a.View(hs), a.g, a.nonMain)
    ensures a.chunks == Released(old(a.chunks), p0)
    ensures var b := LowEdge(old(a.chunks), p0); var e := HighEdge(old(a.chunks), p0);
      BodiesKept(old(a.chunks), old(a.lo), old(a.hi), a.lo, a.hi, b, e)
    ensures OnlyUnsortedAdded(old(a.slots), a.slots)
  {
    hide Linked, LowEdge, Tiled, Tagged, Indexed, FastLinked, FastIndexed, Placed, RegionsOk, Released, BodiesKept,
      Base;
    ghost var x := a.View(hs);
    LowEdgeFree(x, a.g, a.nonMain, p0);
    var p;
    p, size, ok := MergeBack(a, hs, p0);
    if p + size != a.top {
      var ok';
      size, ok' := MergeNext(a, hs, x, p0, p, size);
      ok := ok && ok';
      PlaceUnsorted(a, hs, x, p0, p, size);
    } else {
      size := MergeTop(a, hs, x, p0, p, size);
    }
  }

  lemma LowEdgeFree(x: St, g: int, nm: bool, p: int)
    requires Good(x, g, nm) && p in x.c && x.c[p].tag == Live
    ensures LowEdge(x.c, p) in x.c && NoBinnedBefore(x.c, LowEdge(x.c, p))
    ensures LowEdge(x.c, p) != p ==>
      var b := x.c[LowEdge(x.c, p)]; b.tag == Binned && LowEdge(x.c, p) + b.size == p && b.home == x.c[p].home
    ensures p + x.c[p].size in x.c && (x.c[p + x.c[p].size].tag == Top ==> p + x.c[p].size == x.top)
  {
    hide Linked, LowEdge, Indexed, FastLinked, FastIndexed, Placed, RegionsOk;
    LowEdgeIs(x, g, nm, p);
    NextIs(x, g, nm, p);
    if LowEdge(x.c, p) == p {
      PrevInUse(x.c, x.lo, x.hi, nm, p);
    } else {
      BinnedHasLivePrev(x.c, x.lo, x.hi, nm, LowEdge(x.c, p));
    }
  }
}
