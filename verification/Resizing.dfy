/** Facts about the top and the chunk before a marker that trimming and growing share. */
module Resizing {
  import opened Memory
  import opened BinLists
  import opened Chunks
  import opened Frames
  import opened FastLists
  import opened Layout
  import opened State
  import opened Consolidating
  import opened Trimming

  function MaxOf(a: int, b: int): int { if a < b then b else a }
  function MinOf(a: int, b: int): int { if a < b then a else b }

  // Outside of what a top of n granules gains or loses.
  ghost predicate Beyond(x: St, n: int, k: int)
    requires x.top in x.c
  {
    k < x.top + MinOf(n, x.c[x.top].size) || x.top + MaxOf(n, x.c[x.top].size) <= k
  }

  // The newest region grows or shrinks at its end, and the top with it, to n granules.
  ghost predicate Resized(x: St, y: St, n: int) {
    && |x.rs| >= 1 && n >= 2 && x.top in x.c
    && y == x.(lo := y.lo, hi := y.hi, c := x.c[x.top := Chunk(n, Top, x.c[x.top].home)],
               rs := x.rs[|x.rs| - 1 := x.rs[|x.rs| - 1].(end := x.top + n)])
    && RegionsOk(y.rs, y.lo, y.hi)
    && x.top in y.hi && y.hi[x.top] == Size(n, true, false)
    && (forall k {:trigger y.lo[k]} {:trigger k in y.lo} :: k in x.lo && Beyond(x, n, k) ==> k in y.lo && y.lo[k] == x.lo[k])
    && (forall k {:trigger y.hi[k]} {:trigger k in y.hi} ::
          k in x.hi && k != x.top && Beyond(x, n, k) ==> k in y.hi && y.hi[k] == x.hi[k])
  }

  lemma WordSame(x: St, y: St, g: int, nm: bool, n: int, q: int, k: int)
    requires Good(x, g, nm) && Resized(x, y, n) && q in x.c && q != x.top && q <= k < q + x.c[q].size
    ensures k in x.lo && k in x.hi && k in y.lo && k in y.hi && y.lo[k] == x.lo[k] && y.hi[k] == x.hi[k]
  {
    hide Linked, FastLinked, Indexed, FastIndexed, Tagged, Tiled;
    TopIsTop(x, g, nm);
    var t, h := |x.rs| - 1, x.c[q].home;
    assert PlacedAt(x.c, x.rs, q) && PlacedAt(x.c, x.rs, x.top);
    assert q < x.top ==> q + x.c[q].size <= x.top by { assert Apart(x.c, q, x.top) by { TiledApart(x.c, q, x.top); } }
    assert x.top < q ==> x.top + x.c[x.top].size <= q by { assert Apart(x.c, x.top, q) by { TiledApart(x.c, x.top, q); } }
    assert x.rs[h].base <= k < x.rs[h].end;
    if h != t {
      assert RegionsApart(x.rs[h], x.rs[t]);
      assert y.rs[h] == x.rs[h] && RegionsApart(y.rs[h], y.rs[t]);
    }
  }

  lemma TiledApart(c: map<int, Chunk>, p: int, q: int)
    requires Tiled(c) && p in c && q in c
    ensures Apart(c, p, q)
  {
  }

  lemma NextNotTopUnlessUsed(x: St, g: int, nm: bool, q: int)
    requires Good(x, g, nm) && q in x.c && !Ends(x.c[q].tag)
    ensures q + x.c[q].size in x.c && x.c[q + x.c[q].size].size >= 1
  {
    assert ChunkAt(x.c, q);
    assert ChunkAt(x.c, q + x.c[q].size);
  }

  lemma ResizeHead(x: St, y: St, g: int, nm: bool, n: int, q: int)
    requires Good(x, g, nm) && Resized(x, y, n) && q in x.c && q != x.top
    ensures HeadAt(y.c, y.lo, y.hi, nm, q)
  {
    hide Linked, FastLinked, Indexed, FastIndexed, Placed, RegionsOk, Resized;
    assert HeadAt(x.c, x.lo, x.hi, nm, q) && ChunkAt(x.c, q);
    ResizedTop(x, y, n);
    TopIsTop(x, g, nm);
    WordSame(x, y, g, nm, n, q, q);
    if !Ends(x.c[q].tag) {
      var e := q + x.c[q].size;
      NextNotTopUnlessUsed(x, g, nm, q);
      if e != x.top { WordSame(x, y, g, nm, n, e, e); }
    }
  }

  lemma ResizedTop(x: St, y: St, n: int)
    requires Resized(x, y, n)
    ensures x.top in x.c && y.c == x.c[x.top := Chunk(n, Top, x.c[x.top].home)] && n >= 2 && |x.rs| >= 1
    ensures x.top in y.hi && y.hi[x.top] == Size(n, true, false)
    ensures y.s == x.s && y.f == x.f && y.heads == x.heads && y.top == x.top && RegionsOk(y.rs, y.lo, y.hi)
    ensures y.rs == x.rs[|x.rs| - 1 := x.rs[|x.rs| - 1].(end := x.top + n)]
  {
  }

  lemma ResizeTags(x: St, y: St, g: int, nm: bool, n: int)
    requires Good(x, g, nm) && Resized(x, y, n)
    ensures Tagged(y.c, y.lo, y.hi, nm)
  {
    hide Linked, FastLinked, Indexed, FastIndexed, Placed, RegionsOk, Resized, HeadAt;
    ResizedTop(x, y, n);
    forall q | q in y.c
      ensures HeadAt(y.c, y.lo, y.hi, nm, q)
    {
      if q != x.top { ResizeHead(x, y, g, nm, n, q); } else { ResizeTopHead(x, y, g, nm, n); }
    }
  }

  lemma ResizeTopHead(x: St, y: St, g: int, nm: bool, n: int)
    requires Good(x, g, nm) && Resized(x, y, n)
    ensures HeadAt(y.c, y.lo, y.hi, nm, x.top)
  {
    hide Linked, FastLinked, Indexed, FastIndexed, RegionsOk;
    TopIsTop(x, g, nm);
    assert HeadAt(x.c, x.lo, x.hi, nm, x.top);
    var _ := x.top in y.lo;
  }

  lemma ResizeTiled(x: St, y: St, g: int, nm: bool, n: int)
    requires Good(x, g, nm) && Resized(x, y, n)
    ensures Tiled(y.c)
  {
    hide Linked, FastLinked, Indexed, FastIndexed, Resized, Tagged;
    ResizedTop(x, y, n);
    TopIsTop(x, g, nm);
    forall q | q in y.c
      ensures ChunkAt(y.c, q)
    {
      assert ChunkAt(x.c, q);
    }
    forall q, r | q in y.c && r in y.c
      ensures Apart(y.c, q, r)
    {
      assert Apart(x.c, q, r);
      if q == x.top && q < r { ResizeApart(x, y, g, nm, n, r); }
    }
  }

  lemma ResizeApart(x: St, y: St, g: int, nm: bool, n: int, r: int)
    requires Good(x, g, nm) && Resized(x, y, n) && r in x.c && x.top < r
    ensures x.top + n <= r
  {
    hide Linked, FastLinked, Indexed, FastIndexed, Tagged;
    TopIsTop(x, g, nm);
    var t, h := |x.rs| - 1, x.c[r].home;
    assert PlacedAt(x.c, x.rs, r) && PlacedAt(x.c, x.rs, x.top) && Apart(x.c, x.top, r) && ChunkAt(x.c, r);
    assert h != t;
    assert y.rs[h] == x.rs[h] && RegionsApart(y.rs[h], y.rs[t]);
  }

  lemma ResizeLists(x: St, y: St, g: int, nm: bool, n: int)
    requires Good(x, g, nm) && Resized(x, y, n)
    ensures Linked(y.s, y.lo, y.hi) && Indexed(y.s, y.c, g)
  {
    hide Linked, FastLinked, FastIndexed, Placed, RegionsOk, Resized, Tagged;
    ResizedTop(x, y, n);
    TopIsTop(x, g, nm);
    forall p | p in x.s
      ensures SlotFits(x.s, y.c, g, p)
    {
      assert SlotFits(x.s, x.c, g, p);
    }
    forall p, q | p in x.s && q in x.s && p in y.c && q in y.c
      ensures SortedAt(x.s, y.c, p, q)
    {
      assert SortedAt(x.s, x.c, p, q) && SlotFits(x.s, x.c, g, p) && SlotFits(x.s, x.c, g, q);
    }
    forall p | Node(x.s, p) && p + 1 in x.lo && p + 1 in x.hi
      ensures p + 1 in y.lo && y.lo[p + 1] == x.lo[p + 1] && p + 1 in y.hi && y.hi[p + 1] == x.hi[p + 1]
    {
      if p in x.s && p > 0 {
        assert SlotFits(x.s, x.c, g, p) && ChunkAt(x.c, p);
        WordSame(x, y, g, nm, n, p, p + 1);
      } else {
        ResizeHeader(x, y, g, nm, n, p + 1);
      }
    }
    LinkedFrame(x.s, x.lo, x.hi, y.lo, y.hi);
  }

  lemma ResizeHeader(x: St, y: St, g: int, nm: bool, n: int, k: int)
    requires Good(x, g, nm) && Resized(x, y, n) && k <= 0 && k in x.lo && k in x.hi
    ensures k in y.lo && y.lo[k] == x.lo[k] && k in y.hi && y.hi[k] == x.hi[k]
  {
    hide Linked, FastLinked, Indexed, FastIndexed, Tagged;
    TopIsTop(x, g, nm);
    assert ChunkAt(x.c, x.top);
  }

  lemma ResizeFast(x: St, y: St, g: int, nm: bool, n: int)
    requires Good(x, g, nm) && Resized(x, y, n)
    ensures FastLinked(y.f, y.lo, y.heads) && FastIndexed(y.f, y.c, g)
  {
    hide Linked, Indexed, Placed, RegionsOk, Resized, Tagged;
    ResizedTop(x, y, n);
    TopIsTop(x, g, nm);
    forall p | p in x.f
      ensures FastFits(x.f, y.c, g, p)
      ensures p + 1 in x.lo && p + 1 in y.lo && y.lo[p + 1] == x.lo[p + 1]
    {
      assert FastFits(x.f, x.c, g, p) && ChunkAt(x.c, p);
      WordSame(x, y, g, nm, n, p, p + 1);
    }
    FastFrame(x.f, x.lo, y.lo, x.heads);
  }

  lemma ResizePlaced(x: St, y: St, g: int, nm: bool, n: int)
    requires Good(x, g, nm) && Resized(x, y, n)
    ensures Placed(y.c, y.rs, y.top)
  {
    hide Linked, FastLinked, Indexed, FastIndexed, Tagged, RegionsOk, Resized;
    ResizedTop(x, y, n);
    TopIsTop(x, g, nm);
    forall q | q in y.c
      ensures PlacedAt(y.c, y.rs, q)
    {
      assert PlacedAt(x.c, x.rs, q) && Apart(x.c, q, x.top) && Apart(x.c, x.top, q) && ChunkAt(x.c, q);
    }
    forall i | 0 <= i < |y.rs|
      ensures CornerAt(y.c, y.rs, y.top, i)
    {
      assert CornerAt(x.c, x.rs, x.top, i);
    }
  }

  lemma ResizeGood(x: St, y: St, g: int, nm: bool, n: int)
    requires Good(x, g, nm) && Resized(x, y, n)
    ensures Good(y, g, nm) && Unnoticed(x, y)
  {
    hide Linked, FastLinked, Indexed, FastIndexed, Tagged, Tiled, RegionsOk, Resized, Placed, SameBody;
    ResizedTop(x, y, n);
    TopIsTop(x, g, nm);
    ResizeTiled(x, y, g, nm, n);
    ResizeTags(x, y, g, nm, n);
    ResizeLists(x, y, g, nm, n);
    ResizeFast(x, y, g, nm, n);
    ResizePlaced(x, y, g, nm, n);
    forall q | q in x.c && x.c[q].tag == Live
      ensures SameBody(x.lo, x.hi, y.lo, y.hi, q, x.c[q].size)
    {
      ResizeBody(x, y, g, nm, n, q);
    }
  }

  lemma ResizeBody(x: St, y: St, g: int, nm: bool, n: int, q: int)
    requires Good(x, g, nm) && Resized(x, y, n) && q in x.c && x.c[q].tag == Live
    ensures SameBody(x.lo, x.hi, y.lo, y.hi, q, x.c[q].size)
  {
    hide Linked, FastLinked, Indexed, FastIndexed, Tagged, Placed, RegionsOk;
    TopIsTop(x, g, nm);
    var e := q + x.c[q].size;
    assert ChunkAt(x.c, q) && ChunkAt(x.c, e);
    if e != x.top { WordSame(x, y, g, nm, n, e, e); }
    forall k | q <= k < e
      ensures k in y.lo && k in y.hi && k in x.lo && k in x.hi && y.lo[k] == x.lo[k] && y.hi[k] == x.hi[k]
    {
      WordSame(x, y, g, nm, n, q, k);
    }
  }
}
