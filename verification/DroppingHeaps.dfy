/** Heaps that disappear: what remains when the newest heap is unmapped. */
module DroppingHeaps {
  import opened BinLists
  import opened Chunks
  import opened Frames
  import opened FastLists
  import opened Layout
  import opened State

  function Unmap<T>(m: map<int, T>, r: Region): map<int, T> {
    map k | k in m && !(r.base <= k < r.end) :: m[k]
  }

  // The newest heap, which holds nothing but the top chunk, is given back.
  ghost function Dropped(x: St): St
    requires |x.rs| >= 2
  {
    var r := x.rs[|x.rs| - 1];
    x.(c := x.c - {x.top}, rs := x.rs[..|x.rs| - 1], lo := Unmap(x.lo, r), hi := Unmap(x.hi, r))
  }

  ghost predicate Droppable(x: St, g: int, nm: bool) {
    Good(x, g, nm) && |x.rs| >= 2 && x.top == x.rs[|x.rs| - 1].first
  }

  lemma OnlyTopThere(x: St, g: int, nm: bool, q: int)
    requires Droppable(x, g, nm) && q in x.c
    ensures x.top in x.c && x.c[x.top].tag == Top && x.c[x.top].size >= 2
    ensures x.c[q].home == |x.rs| - 1 <==> q == x.top
    ensures q != x.top ==> 0 <= x.c[q].home < |x.rs| - 1 && x.c[q].tag != Top
  {
    hide Linked, FastLinked, Indexed, FastIndexed, Tagged;
    var n := |x.rs| - 1;
    assert PlacedAt(x.c, x.rs, q) && CornerAt(x.c, x.rs, x.top, n) && ChunkAt(x.c, q) && ChunkAt(x.c, x.top);
    assert Apart(x.c, x.top, q);
  }

  lemma WordKept(x: St, g: int, nm: bool, q: int, k: int)
    requires Droppable(x, g, nm) && q in x.c && q != x.top && q <= k < q + x.c[q].size
    ensures k in x.lo && k in x.hi
    ensures k in Dropped(x).lo && k in Dropped(x).hi && Dropped(x).lo[k] == x.lo[k] && Dropped(x).hi[k] == x.hi[k]
  {
    hide Linked, FastLinked, Indexed, FastIndexed, Tagged, Tiled;
    OnlyTopThere(x, g, nm, q);
    var n, h := |x.rs| - 1, x.c[q].home;
    assert PlacedAt(x.c, x.rs, q);
    assert RegionsApart(x.rs[h], x.rs[n]);
    assert x.rs[h].base <= k < x.rs[h].end;
  }

  lemma DropTiled(x: St, g: int, nm: bool)
    requires Droppable(x, g, nm)
    ensures Tiled(Dropped(x).c)
  {
    hide Linked, FastLinked, Indexed, FastIndexed, Tagged, Placed, RegionsOk;
    var d := Dropped(x).c;
    forall q | q in d
      ensures ChunkAt(d, q)
    {
      assert ChunkAt(x.c, q);
      OnlyTopThere(x, g, nm, q);
      if !Ends(x.c[q].tag) { OnlyTopThere(x, g, nm, q + x.c[q].size); }
    }
    forall q, r | q in d && r in d
      ensures Apart(d, q, r)
    {
      assert Apart(x.c, q, r);
    }
  }

  lemma DropTagged(x: St, g: int, nm: bool)
    requires Droppable(x, g, nm)
    ensures Tagged(Dropped(x).c, Dropped(x).lo, Dropped(x).hi, nm)
  {
    hide HeadAt;
    forall q | q in Dropped(x).c
      ensures HeadAt(Dropped(x).c, Dropped(x).lo, Dropped(x).hi, nm, q)
    {
      DropHead(x, g, nm, q);
    }
  }

  lemma DropHead(x: St, g: int, nm: bool, q: int)
    requires Droppable(x, g, nm) && q in x.c && q != x.top
    ensures HeadAt(Dropped(x).c, Dropped(x).lo, Dropped(x).hi, nm, q)
  {
    hide Linked, FastLinked, Indexed, FastIndexed, Placed, RegionsOk, Unmap;
    assert HeadAt(x.c, x.lo, x.hi, nm, q) && ChunkAt(x.c, q);
    OnlyTopThere(x, g, nm, q);
    WordKept(x, g, nm, q, q);
    if !Ends(x.c[q].tag) {
      var e := q + x.c[q].size;
      assert ChunkAt(x.c, e);
      OnlyTopThere(x, g, nm, e);
      WordKept(x, g, nm, e, e);
    }
  }

  lemma DropLists(x: St, g: int, nm: bool)
    requires Droppable(x, g, nm)
    ensures Linked(x.s, Dropped(x).lo, Dropped(x).hi) && Indexed(x.s, Dropped(x).c, g)
  {
    hide Linked, FastLinked, FastIndexed, Placed, RegionsOk, Unmap, Tagged;
    forall p | p in x.s
      ensures SlotFits(x.s, Dropped(x).c, g, p)
    {
      assert SlotFits(x.s, x.c, g, p);
      OnlyTopThere(x, g, nm, p);
    }
    forall p, q | p in x.s && q in x.s && p in Dropped(x).c && q in Dropped(x).c
      ensures SortedAt(x.s, Dropped(x).c, p, q)
    {
      assert SortedAt(x.s, x.c, p, q);
    }
    forall p | Node(x.s, p) && p + 1 in x.lo && p + 1 in x.hi
      ensures p + 1 in Dropped(x).lo && Dropped(x).lo[p + 1] == x.lo[p + 1]
      ensures p + 1 in Dropped(x).hi && Dropped(x).hi[p + 1] == x.hi[p + 1]
    {
      if p in x.s && p > 0 {
        assert SlotFits(x.s, x.c, g, p) && ChunkAt(x.c, p);
        OnlyTopThere(x, g, nm, p);
        WordKept(x, g, nm, p, p + 1);
      } else {
        HeaderKept(x, g, nm, p + 1);
      }
    }
    LinkedFrame(x.s, x.lo, x.hi, Dropped(x).lo, Dropped(x).hi);
  }

  lemma HeaderKept(x: St, g: int, nm: bool, k: int)
    requires Droppable(x, g, nm) && k <= 0 && k in x.lo && k in x.hi
    ensures k in Dropped(x).lo && Dropped(x).lo[k] == x.lo[k]
    ensures k in Dropped(x).hi && Dropped(x).hi[k] == x.hi[k]
  {
    assert x.rs[|x.rs| - 1].base > 0;
  }

  lemma DropFast(x: St, g: int, nm: bool)
    requires Droppable(x, g, nm)
    ensures FastLinked(x.f, Dropped(x).lo, x.heads) && FastIndexed(x.f, Dropped(x).c, g)
  {
    hide Linked, Indexed, Placed, RegionsOk, Unmap, Tagged;
    forall p | p in x.f
      ensures FastFits(x.f, Dropped(x).c, g, p)
      ensures p + 1 in x.lo && p + 1 in Dropped(x).lo && Dropped(x).lo[p + 1] == x.lo[p + 1]
    {
      assert FastFits(x.f, x.c, g, p) && ChunkAt(x.c, p);
      OnlyTopThere(x, g, nm, p);
      WordKept(x, g, nm, p, p + 1);
    }
    FastFrame(x.f, x.lo, Dropped(x).lo, x.heads);
  }

  lemma DropRegions(x: St, g: int, nm: bool)
    requires Droppable(x, g, nm)
    ensures RegionsOk(Dropped(x).rs, Dropped(x).lo, Dropped(x).hi)
  {
    hide Linked, FastLinked, Indexed, FastIndexed, Placed, Tagged, Tiled;
    var n := |x.rs| - 1;
    forall i, k | 0 <= i < n && x.rs[i].base <= k < x.rs[i].end
      ensures k in Dropped(x).lo && k in Dropped(x).hi
    {
      assert RegionsApart(x.rs[i], x.rs[n]);
    }
  }

  lemma DropBase(x: St, g: int, nm: bool)
    requires Droppable(x, g, nm)
    ensures Base(Dropped(x), g, nm)
    ensures forall q :: q in Dropped(x).c ==> Dropped(x).c[q].tag != Top && PlacedAt(x.c, x.rs, q) && x.c[q].home < |x.rs| - 1
  {
    hide Linked, FastLinked, Indexed, FastIndexed, Tagged, Tiled, RegionsOk, Unmap;
    DropTiled(x, g, nm);
    DropTagged(x, g, nm);
    DropLists(x, g, nm);
    DropFast(x, g, nm);
    DropRegions(x, g, nm);
    forall q | q in Dropped(x).c
      ensures Dropped(x).c[q].tag != Top && PlacedAt(x.c, x.rs, q) && x.c[q].home < |x.rs| - 1
    {
      OnlyTopThere(x, g, nm, q);
    }
  }
}
