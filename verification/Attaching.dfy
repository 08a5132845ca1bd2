/** A new region becomes the top. */
module Attaching {
  import opened Memory
  import opened BinLists
  import opened Chunks
  import opened Frames
  import opened FastLists
  import opened Layout
  import opened State
  import opened Arenas
  import opened LiveView
  import opened Consolidating
  import opened Growing

  // A new region with a top chunk that fills it from its first usable granule.
  ghost function Attached(x: St, r: Region): St {
    x.(lo := x.lo + ZerosLo(r.base, r.end), hi := (x.hi + ZerosHi(r.base, r.end))[r.first := Size(r.end - r.first, true, false)],
       rs := x.rs + [r], top := r.first, c := x.c[r.first := Chunk(r.end - r.first, Top, |x.rs|)])
  }

  ghost predicate FreeOf(rs: seq<Region>, r: Region) { forall i {:trigger rs[i]} :: 0 <= i < |rs| ==> RegionsApart(rs[i], r) }

  ghost predicate Attachable(x: St, g: int, nm: bool, r: Region) {
    Good(x, g, nm) && 0 < r.base <= r.first && r.first + 2 <= r.end && FreeOf(x.rs, r)
  }

  lemma WordStays(x: St, g: int, nm: bool, r: Region, q: int, k: int)
    requires Attachable(x, g, nm, r) && q in x.c && q <= k < q + x.c[q].size
    ensures k in x.lo && k in x.hi && !(r.base <= k < r.end)
    ensures k in Attached(x, r).lo && k in Attached(x, r).hi && Attached(x, r).lo[k] == x.lo[k] && Attached(x, r).hi[k] == x.hi[k]
  {
    hide Linked, FastLinked, Indexed, FastIndexed, Tagged, Tiled;
    assert PlacedAt(x.c, x.rs, q);
    assert x.rs[x.c[q].home].base <= k < x.rs[x.c[q].home].end;
  }

  lemma NotThere(x: St, g: int, nm: bool, r: Region, q: int)
    requires Attachable(x, g, nm, r) && q in x.c
    ensures q < r.base || r.end <= q
    ensures q + x.c[q].size <= r.base || r.end <= q
    ensures x.c[q].size >= 1 && 0 <= x.c[q].home < |x.rs|
  {
    hide Linked, FastLinked, Indexed, FastIndexed, Tagged;
    assert ChunkAt(x.c, q) && PlacedAt(x.c, x.rs, q);
    WordStays(x, g, nm, r, q, q);
    WordStays(x, g, nm, r, q, q + x.c[q].size - 1);
    assert RegionsApart(x.rs[x.c[q].home], r);
  }

  lemma AttachTiled(x: St, g: int, nm: bool, r: Region)
    requires Attachable(x, g, nm, r)
    ensures Tiled(Attached(x, r).c)
  {
    hide Linked, FastLinked, Indexed, FastIndexed, Tagged, Placed, RegionsOk;
    var d := Attached(x, r).c;
    forall q | q in d
      ensures ChunkAt(d, q)
    {
      if q != r.first {
        assert ChunkAt(x.c, q);
        NotThere(x, g, nm, r, q);
        if !Ends(x.c[q].tag) { NotThere(x, g, nm, r, q + x.c[q].size); }
      }
    }
    forall q, t | q in d && t in d
      ensures Apart(d, q, t)
    {
      if q != r.first { NotThere(x, g, nm, r, q); }
      if t != r.first { NotThere(x, g, nm, r, t); }
      assert q in x.c && t in x.c ==> Apart(x.c, q, t);
    }
  }

  lemma AttachHead(x: St, g: int, nm: bool, r: Region, q: int)
    requires Attachable(x, g, nm, r) && q in x.c
    ensures HeadAt(Attached(x, r).c, Attached(x, r).lo, Attached(x, r).hi, nm, q)
  {
    hide Linked, FastLinked, Indexed, FastIndexed, RegionsOk, Placed, Attached;
    var y := Attached(x, r);
    AttachedChunks(x, r);
    assert HeadAt(x.c, x.lo, x.hi, nm, q) && ChunkAt(x.c, q);
    NotThere(x, g, nm, r, q);
    WordStays(x, g, nm, r, q, q);
    if !x.hi[q].p { NotThere(x, g, nm, r, q - x.lo[q]); }
    if nm && x.c[q].tag == Last { NotThere(x, g, nm, r, q - x.lo[q]); }
    if !Ends(x.c[q].tag) {
      var e := q + x.c[q].size;
      NotThere(x, g, nm, r, e);
      WordStays(x, g, nm, r, e, e);
    }
  }

  lemma AttachedChunks(x: St, r: Region)
    ensures Attached(x, r).c == x.c[r.first := Chunk(r.end - r.first, Top, |x.rs|)]
    ensures Attached(x, r).s == x.s && Attached(x, r).f == x.f && Attached(x, r).heads == x.heads
    ensures Attached(x, r).rs == x.rs + [r] && Attached(x, r).top == r.first
  {
  }

  lemma AttachTagged(x: St, g: int, nm: bool, r: Region)
    requires Attachable(x, g, nm, r)
    ensures Tagged(Attached(x, r).c, Attached(x, r).lo, Attached(x, r).hi, nm)
  {
    hide Linked, FastLinked, Indexed, FastIndexed, Placed, RegionsOk, HeadAt, Attached;
    var y := Attached(x, r);
    AttachedChunks(x, r);
    forall q | q in y.c
      ensures HeadAt(y.c, y.lo, y.hi, nm, q)
    {
      if q != r.first { AttachHead(x, g, nm, r, q); } else { NewTopHead(x, r, nm); }
    }
  }

  lemma NewTopHead(x: St, r: Region, nm: bool)
    requires 0 < r.base <= r.first && r.first + 2 <= r.end
    ensures HeadAt(Attached(x, r).c, Attached(x, r).lo, Attached(x, r).hi, nm, r.first)
  {
  }

  lemma AttachLists(x: St, g: int, nm: bool, r: Region)
    requires Attachable(x, g, nm, r)
    ensures Linked(x.s, Attached(x, r).lo, Attached(x, r).hi) && Indexed(x.s, Attached(x, r).c, g)
  {
    hide Linked, FastLinked, FastIndexed, Placed, RegionsOk, Tagged, Attached;
    var y := Attached(x, r);
    AttachedChunks(x, r);
    forall p | p in x.s
      ensures SlotFits(x.s, y.c, g, p) && p in x.c && p != r.first
    {
      assert SlotFits(x.s, x.c, g, p);
      NotThere(x, g, nm, r, p);
    }
    forall p, q | p in x.s && q in x.s && p in y.c && q in y.c
      ensures SortedAt(x.s, y.c, p, q)
    {
      assert SortedAt(x.s, x.c, p, q) && SlotFits(x.s, x.c, g, p) && SlotFits(x.s, x.c, g, q);
    }
    AttachLinked(x, g, nm, r);
  }

  lemma AttachLinked(x: St, g: int, nm: bool, r: Region)
    requires Attachable(x, g, nm, r)
    ensures Linked(x.s, Attached(x, r).lo, Attached(x, r).hi)
  {
    hide Linked, FastLinked, FastIndexed, Placed, RegionsOk, Tagged, Attached;
    var y := Attached(x, r);
    forall p | Node(x.s, p) && p + 1 in x.lo && p + 1 in x.hi
      ensures p + 1 in y.lo && y.lo[p + 1] == x.lo[p + 1] && p + 1 in y.hi && y.hi[p + 1] == x.hi[p + 1]
    {
      if p in x.s && p > 0 {
        assert SlotFits(x.s, x.c, g, p) && ChunkAt(x.c, p);
        WordStays(x, g, nm, r, p, p + 1);
      } else {
        HeaderStays(x, r, p + 1);
      }
    }
    LinkedFrame(x.s, x.lo, x.hi, y.lo, y.hi);
  }

  lemma HeaderStays(x: St, r: Region, k: int)
    requires 0 < r.base <= r.first && k <= 0 && k in x.lo && k in x.hi
    ensures k in Attached(x, r).lo && Attached(x, r).lo[k] == x.lo[k]
    ensures k in Attached(x, r).hi && Attached(x, r).hi[k] == x.hi[k]
  {
  }

  lemma AttachFast(x: St, g: int, nm: bool, r: Region)
    requires Attachable(x, g, nm, r)
    ensures FastLinked(x.f, Attached(x, r).lo, x.heads) && FastIndexed(x.f, Attached(x, r).c, g)
  {
    hide Linked, Indexed, Placed, RegionsOk, Tagged, Attached;
    var y := Attached(x, r);
    AttachedChunks(x, r);
    forall p | p in x.f
      ensures FastFits(x.f, y.c, g, p)
      ensures p + 1 in x.lo && p + 1 in y.lo && y.lo[p + 1] == x.lo[p + 1]
    {
      assert FastFits(x.f, x.c, g, p) && ChunkAt(x.c, p);
      NotThere(x, g, nm, r, p);
      WordStays(x, g, nm, r, p, p + 1);
    }
    FastFrame(x.f, x.lo, y.lo, x.heads);
  }

  lemma AttachRegions(x: St, g: int, nm: bool, r: Region)
    requires Attachable(x, g, nm, r)
    ensures RegionsOk(x.rs + [r], Attached(x, r).lo, Attached(x, r).hi)
  {
    hide Linked, FastLinked, Indexed, FastIndexed, Placed, Tagged, Tiled;
    var ts := x.rs + [r];
    forall i, j | 0 <= i < j < |ts|
      ensures RegionsApart(ts[i], ts[j])
    {
      assert j < |x.rs| ==> RegionsApart(x.rs[i], x.rs[j]);
    }
  }

  lemma AttachBase(x: St, g: int, nm: bool, r: Region)
    requires Attachable(x, g, nm, r)
    ensures Base(Attached(x, r), g, nm) && Unnoticed(x, Attached(x, r))
  {
    hide Linked, FastLinked, Indexed, FastIndexed, Placed, Tagged, Tiled, RegionsOk, SameBody;
    AttachTiled(x, g, nm, r);
    AttachTagged(x, g, nm, r);
    AttachLists(x, g, nm, r);
    AttachFast(x, g, nm, r);
    AttachRegions(x, g, nm, r);
    AttachLive(x, g, nm, r);
    forall q | q in x.c && x.c[q].tag == Live
      ensures SameBody(x.lo, x.hi, Attached(x, r).lo, Attached(x, r).hi, q, x.c[q].size)
    {
      AttachBody(x, g, nm, r, q);
    }
  }

  lemma AttachLive(x: St, g: int, nm: bool, r: Region)
    requires Attachable(x, g, nm, r)
    ensures LiveOf(Attached(x, r).c) == LiveOf(x.c) && r.first !in x.c
  {
    hide Good;
    if r.first in x.c { NotThere(x, g, nm, r, r.first); }
  }

  lemma AttachBody(x: St, g: int, nm: bool, r: Region, q: int)
    requires Attachable(x, g, nm, r) && q in x.c && x.c[q].tag == Live
    ensures SameBody(x.lo, x.hi, Attached(x, r).lo, Attached(x, r).hi, q, x.c[q].size)
  {
    hide Linked, FastLinked, Indexed, FastIndexed, Tagged, Placed, RegionsOk, Attached;
    var e := q + x.c[q].size;
    assert ChunkAt(x.c, q) && ChunkAt(x.c, e);
    WordStays(x, g, nm, r, e, e);
    forall k | q <= k < e
      ensures k in Attached(x, r).lo && k in Attached(x, r).hi && k in x.lo && k in x.hi
      ensures Attached(x, r).lo[k] == x.lo[k] && Attached(x, r).hi[k] == x.hi[k]
    {
      WordStays(x, g, nm, r, q, k);
    }
  }

  // The first region of the main arena.
  lemma FirstRegion(x: St, g: int, nm: bool, r: Region)
    requires Attachable(x, g, nm, r) && x.rs == []
    ensures Good(Attached(x, r), g, nm)
  {
    hide Linked, FastLinked, Indexed, FastIndexed, Tagged, Tiled, RegionsOk;
    AttachBase(x, g, nm, r);
    var y := Attached(x, r);
    forall q | q in y.c
      ensures q == r.first
    {
      assert q == r.first || q in x.c;
      if q in x.c { ChunksInRegions(x, g, nm, q); }
    }
    forall i | 0 <= i < |y.rs|
      ensures CornerAt(y.c, y.rs, y.top, i)
    {
    }
    assert PlacedAt(y.c, y.rs, r.first);
  }
}
