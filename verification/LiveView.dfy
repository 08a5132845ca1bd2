/** What the client owns, and the steps between chunks in use and chunks in a fastbin. */
module LiveView {
  import opened Memory
  import opened Sizes
  import opened BinLists
  import opened Chunks
  import opened Frames
  import opened FastLists
  import opened Layout
  import opened State
  import opened Release
  import opened Freeing

  // What the client owns: address and size of each live chunk.
  ghost function LiveOf(c: map<int, Chunk>): map<int, int> {
    map p | p in c && c[p].tag == Live :: c[p].size
  }

  // Every live chunk but p keeps its contents.
  ghost predicate DataKept(c: map<int, Chunk>, lo: map<int, int>, hi: map<int, Word>, lo': map<int, int>, hi': map<int, Word>, p: int) {
    forall x {:trigger SameBody(lo, hi, lo', hi', x, c[x].size)} {:trigger x in c} ::
      x in c && c[x].tag == Live && x != p ==> SameBody(lo, hi, lo', hi', x, c[x].size)
  }

  lemma ReleasedLive(x: St, g: int, nm: bool, p: int)
    requires Good(x, g, nm) && p in x.c && x.c[p].tag == Live
    ensures LiveOf(Released(x.c, p)) == LiveOf(x.c) - {p}
    ensures forall q {:trigger q in Released(x.c, p)} :: q in Released(x.c, p) && Released(x.c, p)[q].tag == Fast <==> q in x.c && x.c[q].tag == Fast
  {
    hide Linked, LowEdge, HighEdge, Indexed, FastLinked, FastIndexed, Placed, RegionsOk, Released, Tiled, Tagged;
    var b, e := LowEdge(x.c, p), HighEdge(x.c, p);
    LowEdgeFree(x, g, nm, p);
    SpanPieces(x, g, nm, p, b, e);
    SpanRecut(x, g, nm, p, b, e);
  }

  lemma ReleasedData(x: St, g: int, nm: bool, lo: map<int, int>, hi: map<int, Word>, p: int)
    requires Good(x, g, nm) && p in x.c && x.c[p].tag == Live
    requires BodiesKept(x.c, x.lo, x.hi, lo, hi, LowEdge(x.c, p), HighEdge(x.c, p))
    ensures DataKept(x.c, x.lo, x.hi, lo, hi, p)
  {
    hide Linked, LowEdge, HighEdge, Indexed, FastLinked, FastIndexed, Placed, RegionsOk, Tiled, Tagged;
    var b, e := LowEdge(x.c, p), HighEdge(x.c, p);
    LowEdgeFree(x, g, nm, p);
    SpanPieces(x, g, nm, p, b, e);
    NextIs(x, g, nm, p);
  }

  // ---- live <-> fast: the boundary tags do not change

  lemma RetagUsed(x: St, g: int, nm: bool, p: int, t: Tag)
    requires Good(x, g, nm) && p in x.c && Used(x.c[p].tag) && Used(t)
    ensures var d := Retag(x.c, p, t); Tiled(d) && Tagged(d, x.lo, x.hi, nm) && Indexed(x.s, d, g) && Placed(d, x.rs, x.top)
  {
    hide Linked, FastLinked, FastIndexed, RegionsOk;
    var d := Retag(x.c, p, t);
    var e := p + x.c[p].size;
    assert ChunkAt(x.c, p);
    RetagUsedTiled(x.c, p, t);
    forall q | q in d
      ensures HeadAt(d, x.lo, x.hi, nm, q)
    {
      assert HeadAt(x.c, x.lo, x.hi, nm, q);
    }
    RetagUsedRest(x, g, nm, p, t);
  }

  lemma RetagUsedTiled(c: map<int, Chunk>, p: int, t: Tag)
    requires Tiled(c) && p in c && Used(c[p].tag) && Used(t)
    ensures Tiled(Retag(c, p, t))
  {
    var d := Retag(c, p, t);
    forall q | q in d
      ensures ChunkAt(d, q)
    {
      assert ChunkAt(c, q);
    }
    forall q, r | q in d && r in d
      ensures Apart(d, q, r)
    {
      assert Apart(c, q, r);
    }
  }

  lemma RetagUsedRest(x: St, g: int, nm: bool, p: int, t: Tag)
    requires Good(x, g, nm) && p in x.c && Used(x.c[p].tag) && Used(t)
    ensures var d := Retag(x.c, p, t); Indexed(x.s, d, g) && Placed(d, x.rs, x.top)
  {
    hide Linked, FastLinked, FastIndexed, RegionsOk, Tiled, Tagged;
    var d := Retag(x.c, p, t);
    forall q | q in x.s
      ensures SlotFits(x.s, d, g, q)
    {
      assert SlotFits(x.s, x.c, g, q);
    }
    forall q, r | q in x.s && r in x.s && q in d && r in d
      ensures SortedAt(x.s, d, q, r)
    {
      assert SortedAt(x.s, x.c, q, r) && SlotFits(x.s, x.c, g, q) && SlotFits(x.s, x.c, g, r);
    }
    forall q | q in d
      ensures PlacedAt(d, x.rs, q)
    {
      assert PlacedAt(x.c, x.rs, q);
    }
    forall i | 0 <= i < |x.rs|
      ensures CornerAt(d, x.rs, x.top, i)
    {
      assert CornerAt(x.c, x.rs, x.top, i);
    }
  }

  ghost function Pushed(x: St, p: int, i: int): St
    requires p in x.c && 0 <= i < |x.heads| && FastHead(x.f, x.heads, i)
  {
    x.(c := Retag(x.c, p, Fast), f := x.f[p := PushedAt(x.f, x.heads, i)], lo := x.lo[p + 1 := x.heads[i]], heads := x.heads[i := p])
  }

  lemma PushGood(x: St, g: int, nm: bool, p: int, i: int)
    requires Good(x, g, nm) && p in x.c && x.c[p].tag == Live && 0 <= i < |x.heads| && FastHead(x.f, x.heads, i)
    requires i == FastbinIndex(Bytes(g, x.c[p].size))
    ensures Good(Pushed(x, p, i), g, nm) && DataKept(x.c, x.lo, x.hi, Pushed(x, p, i).lo, x.hi, p)
    ensures p !in x.f
  {
    hide Linked, RegionsOk, Tiled, Tagged, Indexed, Placed, FastLinked, FastIndexed, DataKept;
    var y := Pushed(x, p, i);
    LiveHasRoom(x, g, nm, p);
    RoomForLinks(x, g, nm, p);
    RetagUsed(x, g, nm, p, Fast);
    PushFast(x, g, nm, p, i);
    PushLists(x, g, nm, p, y.lo);
    PushTags(x, g, nm, p, y.lo);
  }

  lemma PushFast(x: St, g: int, nm: bool, p: int, i: int)
    requires Good(x, g, nm) && p in x.c && x.c[p].tag == Live && 0 <= i < |x.heads| && FastHead(x.f, x.heads, i)
    requires i == FastbinIndex(Bytes(g, x.c[p].size)) && p > 0 && p + 1 in x.lo
    ensures p !in x.f && FastLinked(Pushed(x, p, i).f, Pushed(x, p, i).lo, Pushed(x, p, i).heads)
    ensures FastIndexed(Pushed(x, p, i).f, Pushed(x, p, i).c, g)
  {
    hide Linked, RegionsOk, Tiled, Tagged, Indexed, Placed, FastLinked;
    assert p in x.f ==> FastFits(x.f, x.c, g, p);
    PushKeeps(x.f, x.lo, x.heads, i, p);
    var y := Pushed(x, p, i);
    forall q | q in y.f
      ensures FastFits(y.f, y.c, g, q)
    {
      if q != p { assert FastFits(x.f, x.c, g, q); }
    }
  }

  lemma PushLists(x: St, g: int, nm: bool, p: int, lo': map<int, int>)
    requires Good(x, g, nm) && p in x.c && x.c[p].tag == Live && x.c[p].size >= 2 && p + 1 in x.lo && p + 1 in lo' && lo' == x.lo[p + 1 := lo'[p + 1]]
    ensures Linked(x.s, lo', x.hi) && RegionsOk(x.rs, lo', x.hi)
    ensures DataKept(x.c, x.lo, x.hi, lo', x.hi, p)
  {
    hide Linked, Tagged, Placed, Indexed;
    OnlyBinnedListed(x, g, nm, p);
    assert ChunkAt(x.c, p);
    LinkedFrame(x.s, x.lo, x.hi, lo', x.hi);
    forall q | q in x.c && x.c[q].tag == Live && q != p
      ensures SameBody(x.lo, x.hi, lo', x.hi, q, x.c[q].size)
    {
      assert Apart(x.c, p, q) && Apart(x.c, q, p) && ChunkAt(x.c, q);
    }
  }

  lemma PushTags(x: St, g: int, nm: bool, p: int, lo': map<int, int>)
    requires Good(x, g, nm) && p in x.c && x.c[p].tag == Live && x.c[p].size >= 2 && p + 1 in x.lo && p + 1 in lo' && lo' == x.lo[p + 1 := lo'[p + 1]]
    ensures Tagged(Retag(x.c, p, Fast), lo', x.hi, nm)
  {
    hide Linked, Placed, Indexed, FastLinked, FastIndexed, RegionsOk;
    var d := Retag(x.c, p, Fast);
    assert ChunkAt(x.c, p);
    assert p + 1 in x.c ==> Apart(x.c, p, p + 1);
    forall q | q in d
      ensures HeadAt(d, lo', x.hi, nm, q)
    {
      assert HeadAt(x.c, x.lo, x.hi, nm, q) && ChunkAt(x.c, q);
    }
  }

  ghost function Popped(x: St, i: int): St
    requires 0 <= i < |x.heads| && x.heads[i] in x.c && x.heads[i] + 1 in x.lo
  {
    var p := x.heads[i];
    x.(c := Retag(x.c, p, Live), f := x.f - {p}, heads := x.heads[i := x.lo[p + 1]])
  }

  lemma PopGood(x: St, g: int, nm: bool, i: int)
    requires Good(x, g, nm) && 0 <= i < |x.heads| && x.heads[i] != 0
    ensures x.heads[i] in x.f && x.f[x.heads[i]].cls == i && x.heads[i] + 1 in x.lo && x.heads[i] in x.c && x.c[x.heads[i]].tag == Fast
    ensures Good(Popped(x, i), g, nm)
    ensures i == FastbinIndex(Bytes(g, x.c[x.heads[i]].size))
  {
    hide Linked, RegionsOk, Tiled, Tagged, Indexed, Placed, FastLinked;
    var p := x.heads[i];
    PopKeeps(x.f, x.lo, x.heads, i);
    assert FastFits(x.f, x.c, g, p);
    RetagUsed(x, g, nm, p, Live);
    var y := Popped(x, i);
    forall q | q in y.f
      ensures FastFits(y.f, y.c, g, q)
    {
      assert FastFits(x.f, x.c, g, q);
    }
  }
}
