/** Shrinking the top. */
module Trimming {
  import opened Memory
  import opened BinLists
  import opened Chunks
  import opened Frames
  import opened FastLists
  import opened Layout
  import opened State
  import opened LiveView
  import opened Consolidating
  import opened DroppingHeaps
  import opened Fences

  lemma DropUnnoticed(x: St, g: int, nm: bool)
    requires Droppable(x, g, nm)
    ensures Unnoticed(x, Dropped(x))
  {
    hide Linked, FastLinked, Indexed, FastIndexed, Placed, RegionsOk, Unmap, SameBody;
    assert x.top in x.c ==> x.c[x.top].tag != Live by { TopIsTop(x, g, nm); }
    forall q | q in x.c && x.c[q].tag == Live
      ensures SameBody(x.lo, x.hi, Dropped(x).lo, Dropped(x).hi, q, x.c[q].size)
    {
      DropBody(x, g, nm, q);
    }
  }

  lemma TopIsTop(x: St, g: int, nm: bool)
    requires Good(x, g, nm) && |x.rs| >= 1
    ensures x.top in x.c && x.c[x.top].tag == Top && x.c[x.top].size >= 2 && x.c[x.top].home == |x.rs| - 1
    ensures x.top + x.c[x.top].size == x.rs[|x.rs| - 1].end
    ensures x.top in x.hi && x.hi[x.top] == Size(x.c[x.top].size, true, false)
  {
    hide Linked, FastLinked, FastIndexed, RegionsOk;
    assert CornerAt(x.c, x.rs, x.top, |x.rs| - 1);
    assert ChunkAt(x.c, x.top) && HeadAt(x.c, x.lo, x.hi, nm, x.top);
    BinnedHasLivePrev(x.c, x.lo, x.hi, nm, x.top);
  }

  lemma DropBody(x: St, g: int, nm: bool, q: int)
    requires Droppable(x, g, nm) && q in x.c && x.c[q].tag == Live
    ensures SameBody(x.lo, x.hi, Dropped(x).lo, Dropped(x).hi, q, x.c[q].size)
  {
    hide Linked, FastLinked, Indexed, FastIndexed, Placed, RegionsOk, Unmap, Tagged;
    assert ChunkAt(x.c, q);
    TopIsTop(x, g, nm);
    var e := q + x.c[q].size;
    assert ChunkAt(x.c, e);
    OnlyTopThere(x, g, nm, q);
    OnlyTopThere(x, g, nm, e);
    WordKept(x, g, nm, e, e);
    forall k | q <= k < e
      ensures k in Dropped(x).lo && k in Dropped(x).hi && k in x.lo && k in x.hi
      ensures Dropped(x).lo[k] == x.lo[k] && Dropped(x).hi[k] == x.hi[k]
    {
      WordKept(x, g, nm, q, k);
    }
  }

  lemma RetopUnnoticed(x: St, y: St, g: int, nm: bool)
    requires Droppable(x, g, nm) && nm && RetoppedTo(x, y)
    ensures Good(y, g, nm) && Unnoticed(x, y)
  {
    hide Linked, FastLinked, Indexed, FastIndexed, Placed, RegionsOk, Unmap, SameBody, Tagged, Tiled, Retopped,
      Settled, Recut;
    var b, e := NewTop(x), MarkEnd(x) + 1;
    DropBase(x, g, nm);
    DropUnnoticed(x, g, nm);
    RetopSettles(x, y, g, nm, b, e);
    Settle(Dropped(x), y, g, nm, b, e);
    RetopLive(x, g, nm, b, e);
    DataTrans(x.c, Dropped(x).c, x.lo, x.hi, Dropped(x).lo, Dropped(x).hi, y.lo, y.hi, 0);
  }

  lemma RetopLive(x: St, g: int, nm: bool, b: int, e: int)
    requires Droppable(x, g, nm) && nm && b == NewTop(x) && e == MarkEnd(x) + 1 && b in Dropped(x).c
    ensures LiveOf(Retopped(x)) == LiveOf(Dropped(x).c)
    ensures forall q {:trigger q in Dropped(x).c} :: q in Dropped(x).c && Dropped(x).c[q].tag == Live ==> q < b || e <= q
  {
    hide Linked, FastLinked, Indexed, FastIndexed, Placed, RegionsOk, Unmap, Tagged, Tiled, Retopped;
    MarksAre(x, g, nm);
    NewTopIs(x, g, nm);
    MarkPieces(x, g, nm, b, e);
    RetopRecut(x, g, nm, b, e);
    var c, d := Dropped(x).c, Retopped(x);
    assert forall q {:trigger q in d} :: q in d && d[q].tag == Live ==> q in c && c[q] == d[q];
    assert forall q {:trigger q in c} :: q in c && c[q].tag == Live ==> q in d && c[q] == d[q];
  }
}
