/** heap_trim: empty heaps are deleted, then the top is shrunk. */
module HeapTrim {
  import opened Memory
  import opened Sizes
  import opened BinLists
  import opened Chunks
  import opened Frames
  import opened FastLists
  import opened Layout
  import opened State
  import opened Arenas
  import opened LiveView
  import opened Consolidating
  import opened DroppingHeaps
  import opened Fences
  import opened Trimming
  import opened Resizing
  import opened Pages

  // Regions are only given back: whole ones from the end, and the end of the last one.
  ghost predicate Shrunk(rs: seq<Region>, ts: seq<Region>) {
    && |ts| <= |rs|
    && forall i {:trigger ts[i]} :: 0 <= i < |ts| ==> ts[i].base == rs[i].base && ts[i].first == rs[i].first && ts[i].end <= rs[i].end
  }

  lemma HeapIs(rs: seq<Region>, page: int, hm: int, i: int)
    requires HeapsOk(rs, page, hm) && 0 <= i < |rs|
    ensures HeapAt(rs, page, hm, i)
  {
  }

  lemma FewerHeaps(rs: seq<Region>, page: int, hm: int)
    requires HeapsOk(rs, page, hm) && |rs| >= 2
    ensures HeapsOk(rs[..|rs| - 1], page, hm)
  {
    var ts := rs[..|rs| - 1];
    forall i | 0 <= i < |ts|
      ensures HeapAt(ts, page, hm, i)
    {
      assert HeapAt(rs, page, hm, i);
    }
  }

  // What the sizes computed by heap_trim come to.
  lemma TrimSizes(x: St, g: int, nm: bool, page: int, hm: int)
    requires Droppable(x, g, nm) && nm && HeapsOk(x.rs, page, hm)
    ensures page > 0
    ensures var f, b, e := MarkStart(x), NewTop(x), MarkEnd(x) + 1;
      && e == x.rs[|x.rs| - 2].end && e % page == 0
      && f in x.hi && x.hi[f].Size? && e - b == x.hi[f].n + 1 + (if x.hi[f].p then 0 else f - b)
      && 0 < x.hi[f].n + 1 < 4 && 0 < e - b < hm
  {
    hide Linked, FastLinked, Indexed, FastIndexed, Tagged, Tiled;
    MarksAre(x, g, nm);
    NewTopIs(x, g, nm);
    HeapIs(x.rs, page, hm, |x.rs| - 2);
    assert PlacedAt(x.c, x.rs, NewTop(x));
  }

  lemma TrimReads(x: St, g: int, nm: bool)
    requires Droppable(x, g, nm) && nm
    ensures var f, b, z := MarkStart(x), NewTop(x), Dropped(x);
      && f in x.hi && f in z.hi && z.hi[f] == x.hi[f] && f in x.lo && f in z.lo && z.lo[f] == x.lo[f]
      && Linked(x.s, z.lo, z.hi)
      && b in z.c && b in z.hi
  {
    hide Linked, FastLinked, Indexed, FastIndexed, Tagged, RegionsOk, Unmap, Placed;
    MarksAre(x, g, nm);
    NewTopIs(x, g, nm);
    DropBase(x, g, nm);
    var f, b := MarkStart(x), NewTop(x);
    OnlyTopThere(x, g, nm, f);
    OnlyTopThere(x, g, nm, b);
    WordKept(x, g, nm, f, f);
    assert ChunkAt(x.c, b);
    WordKept(x, g, nm, b, b);
  }

  lemma TrimFacts(x: St, g: int, nm: bool, page: int, hm: int)
    requires Good(x, g, nm) && nm && HeapsOk(x.rs, page, hm) && |x.rs| >= 2 && x.top == x.rs[|x.rs| - 1].base + 2
    ensures Droppable(x, g, nm)
    ensures var l := x.rs[|x.rs| - 2].end - 1; l in x.hi && x.hi[l] == Size(0, true, false) && l in x.lo
    ensures MarkStart(x) == x.rs[|x.rs| - 2].end - 1 - x.lo[x.rs[|x.rs| - 2].end - 1]
    ensures var f := MarkStart(x); f in x.hi && x.hi[f].Size? && f in x.lo && 0 < x.hi[f].n + 1 < 4
    ensures var f, b, e := MarkStart(x), NewTop(x), x.rs[|x.rs| - 2].end;
      b == (if x.hi[f].p then f else f - x.lo[f]) && e - b == x.hi[f].n + 1 + (f - b) && 0 < e - b < hm && e % page == 0 && e == MarkEnd(x) + 1
  {
    hide Linked, FastLinked, Indexed, FastIndexed, Tagged, RegionsOk, Tiled, Placed, Base;
    HeapIs(x.rs, page, hm, |x.rs| - 1);
    MarksAre(x, g, nm);
    TrimSizes(x, g, nm, page, hm);
    TrimReads(x, g, nm);
  }

  method UnlinkMark(a: Arena, ghost x: St, f: int) returns (p: int, ok: bool)
    requires Droppable(x, a.g, a.nonMain) && a.nonMain && f == MarkStart(x)
    requires a.lo == Dropped(x).lo && a.hi == Dropped(x).hi && a.slots == x.s
    modifies a`lo, a`hi, a`slots
    ensures ok && p == NewTop(x) && a.slots == x.s - {p} && Linked(a.slots, a.lo, a.hi)
    ensures WroteLo(x.s, {}, Dropped(x).lo, a.lo) && WroteHi(x.s, {}, Dropped(x).hi, a.hi)
  {
    hide Droppable, Dropped, MarkStart, Linked;
    TrimReads(x, a.g, a.nonMain);
    NewTopIs(x, a.g, a.nonMain);
    p := f;
    ok := true;
    if !a.hi[p].p {
      p := p - a.lo[p];
      ok := a.Unlink(p);
    } else {
      assert a.slots == x.s - {p};
    }
  }

  // The part of a round that gives the newest heap back.
  method CutHeap(a: Arena, f: int, newSize: int) returns (ok: bool)
    requires Droppable(a.Now(), a.g, a.nonMain) && a.nonMain && HeapsOk(a.regions, a.page, a.heapMax)
    requires |a.regions| >= 2 && f == MarkStart(a.Now()) && newSize == MarkEnd(a.Now()) + 1 - NewTop(a.Now())
    modifies a`lo, a`hi, a`slots, a`chunks, a`top, a`regions, a`systemMem
    ensures ok && Good(a.Now(), a.g, a.nonMain) && Unnoticed(old(a.Now()), a.Now())
    ensures OnlyUnsortedAdded(old(a.slots), a.slots)
    ensures a.regions == old(a.regions)[..|old(a.regions)| - 1]
    ensures a.top == NewTop(old(a.Now())) && a.top in a.chunks && a.chunks[a.top].size == newSize
    ensures a.systemMem == old(a.systemMem) - (old(a.regions)[|old(a.regions)| - 1].end - old(a.regions)[|old(a.regions)| - 1].base)
  {
    hide Good, Base, Unnoticed, Retopped, NewTop, MarkStart, MarkEnd, HeapsOk, Linked, WroteLo, WroteHi, Unmap,
      Droppable;
    ghost var x := a.Now();
    var heap := a.regions[|a.regions| - 1];
    var prev := a.regions[|a.regions| - 2];
    NewTopThere(x, a.g, a.nonMain);
    TrimSizes(x, a.g, a.nonMain, a.page, a.heapMax);
    a.systemMem := a.systemMem - (heap.end - heap.base);
    a.regions := a.regions[..|a.regions| - 1];
    a.lo := Unmap(a.lo, heap);
    a.hi := Unmap(a.hi, heap);
    var p;
    p, ok := UnlinkMark(a, x, f);
    assert (p + newSize) % a.page == 0;
    assert p + newSize == prev.end;
    a.top := p;
    HeadWritten(x, a.g, a.nonMain, p, Dropped(x).lo, Dropped(x).hi, a.lo, a.hi, a.slots, newSize);
    a.hi := a.hi[p := Size(newSize, true, false)];
    a.chunks := Retopped(x);
    RetopSize(x, a.g, a.nonMain);
    RetopUnnoticed(x, a.Now(), a.g, a.nonMain);
  }

  lemma RetopSize(x: St, g: int, nm: bool)
    requires Droppable(x, g, nm) && nm && NewTop(x) in Dropped(x).c
    ensures NewTop(x) in Retopped(x) && Retopped(x)[NewTop(x)].size == MarkEnd(x) + 1 - NewTop(x)
  {
    hide Dropped, NewTop, MarkEnd, Retopped, Good;
    RetopRecut(x, g, nm, NewTop(x), MarkEnd(x) + 1);
  }

  lemma NewTopThere(x: St, g: int, nm: bool)
    requires Droppable(x, g, nm) && nm
    ensures NewTop(x) in Dropped(x).c
  {
    hide Linked, FastLinked, FastIndexed, RegionsOk, Placed, Tagged, Indexed, Unmap;
    NewTopIs(x, g, nm);
    OnlyTopThere(x, g, nm, NewTop(x));
  }

  lemma NothingWritten(s: map<int, Slot>, lo: map<int, int>, hi: map<int, Word>)
    ensures WroteLo(s, {}, lo, lo) && WroteHi(s, {}, hi, hi)
  {
  }

  lemma HeadWritten(x: St, g: int, nm: bool, b: int, lo: map<int, int>, hi: map<int, Word>, lo1: map<int, int>, hi1: map<int, Word>, s: map<int, Slot>, n: int)
    requires Droppable(x, g, nm) && nm && b == NewTop(x) && lo == Dropped(x).lo && hi == Dropped(x).hi
    requires s == x.s - {b} && Linked(s, lo1, hi1) && WroteLo(x.s, {}, lo, lo1) && WroteHi(x.s, {}, hi, hi1)
    ensures Linked(s, lo1, hi1[b := Size(n, true, false)])
    ensures WroteHi(x.s, {b}, hi, hi1[b := Size(n, true, false)])
  {
    hide Linked, FastLinked, FastIndexed, RegionsOk, Placed, Tagged, Indexed, Unmap;
    NewTopIs(x, g, nm);
    TrimReads(x, g, nm);
    assert ChunkAt(x.c, b);
    SlotsIdle(x, g, b);
    NoLinkAtStart(x.c, x.s, b, b);
    LinkedFrame(s, lo1, hi1, lo1, hi1[b := Size(n, true, false)]);
  }

  // The space for a top once the newest heap is gone: what is free at the end of the heap before, and what that heap can
  // still grow by.
  ghost function SpaceBefore(x: St, hm: int): int
    requires |x.rs| >= 2
  { x.rs[|x.rs| - 2].end - NewTop(x) + (hm - (x.rs[|x.rs| - 2].end - x.rs[|x.rs| - 2].base)) }

  // The newest heap is empty only if there would be too little space without it.
  ghost predicate Settles(x: St, hm: int, enough: int) {
    |x.rs| >= 2 && x.top == x.rs[|x.rs| - 1].base + 2 ==> SpaceBefore(x, hm) < enough
  }

  // What the top has, and what its heap can still grow by.
  ghost predicate Roomy(x: St, hm: int, enough: int) {
    x.rs != [] && x.top in x.c && x.c[x.top].size + (hm - (x.rs[|x.rs| - 1].end - x.rs[|x.rs| - 1].base)) >= enough
  }

  // One round of the loop of heap_trim.
  method DeleteHeap(a: Arena, pad: int) returns (done: bool, ok: bool)
    requires a.Valid() && a.nonMain && |a.regions| >= 2 && a.top == a.regions[|a.regions| - 1].base + 2
    modifies a`lo, a`hi, a`slots, a`chunks, a`top, a`regions, a`systemMem
    ensures ok && a.Valid()
    ensures Unnoticed(old(a.Now()), a.Now())
    ensures OnlyUnsortedAdded(old(a.slots), a.slots)
    ensures if done then a.Now() == old(a.Now()) else a.regions == old(a.regions)[..|old(a.regions)| - 1] && a.top == NewTop(old(a.Now()))
    ensures if done then Settles(a.Now(), a.heapMax, pad + 2 + a.page) else Roomy(a.Now(), a.heapMax, pad + 2 + a.page)
  {
    hide Good, Unnoticed, Dropped, Retopped, NewTop, MarkStart, MarkEnd, HeapsOk, Linked, WroteLo, WroteHi;
    ghost var x := a.Now();
    var prev := a.regions[|a.regions| - 2];
    TrimFacts(x, a.g, a.nonMain, a.page, a.heapMax);
    var p := prev.end - 1;
    assert a.hi[p] == Size(0, true, false);  // must be fencepost
    p := p - a.lo[p];
    var newSize := a.hi[p].n + 1;
    assert 0 < newSize < 2 * 2;
    if !a.hi[p].p { newSize := newSize + a.lo[p]; }
    assert 0 < newSize < a.heapMax;
    if newSize + (a.heapMax - (prev.end - prev.base)) < pad + 2 + a.page {
      SelfKept(x);
      return true, true;
    }
    FewerHeaps(a.regions, a.page, a.heapMax);
    ok := CutHeap(a, p, newSize);
    done := false;
  }

  lemma FirstHeapStays(x: St, g: int, nm: bool, page: int, hm: int)
    requires Good(x, g, nm) && HeapsOk(x.rs, page, hm)
    ensures |x.rs| >= 1 && (x.top == x.rs[|x.rs| - 1].base + 2 ==> |x.rs| >= 2)
    ensures x.top in x.hi && x.hi[x.top].Size? && x.hi[x.top].n >= 2 && x.top + x.hi[x.top].n == x.rs[|x.rs| - 1].end
    ensures x.rs[|x.rs| - 1].base + 2 <= x.top && page > 0
  {
    hide Linked, FastLinked, Indexed, FastIndexed, Tagged, RegionsOk, Tiled;
    TopIsTop(x, g, nm);
    HeapIs(x.rs, page, hm, |x.rs| - 1);
    assert PlacedAt(x.c, x.rs, x.top);
  }

  lemma ShrinkRegions(rs: seq<Region>, lo: map<int, int>, hi: map<int, Word>, end: int)
    requires RegionsOk(rs, lo, hi) && |rs| >= 1 && rs[|rs| - 1].first < end <= rs[|rs| - 1].end
    ensures var n := |rs| - 1; var cut := Region(end, end, rs[n].end);
      RegionsOk(rs[n := rs[n].(end := end)], Unmap(lo, cut), Unmap(hi, cut))
  {
    var n := |rs| - 1;
    var cut := Region(end, end, rs[n].end);
    var ts := rs[n := rs[n].(end := end)];
    forall i, j | 0 <= i < j < |ts|
      ensures RegionsApart(ts[i], ts[j])
    {
      assert RegionsApart(rs[i], rs[j]);
    }
    forall i, k | 0 <= i < |ts| && ts[i].base <= k < ts[i].end
      ensures k in Unmap(lo, cut) && k in Unmap(hi, cut)
    {
      if i < n { assert RegionsApart(rs[i], rs[n]); }
    }
  }

  lemma ResizeHeap(rs: seq<Region>, page: int, hm: int, end: int)
    requires HeapsOk(rs, page, hm) && end % page == 0 && end - rs[|rs| - 1].base <= hm
    ensures HeapsOk(rs[|rs| - 1 := rs[|rs| - 1].(end := end)], page, hm)
  {
    var ts := rs[|rs| - 1 := rs[|rs| - 1].(end := end)];
    forall i | 0 <= i < |ts|
      ensures HeapAt(ts, page, hm, i)
    {
      assert HeapAt(rs, page, hm, i);
    }
  }

  lemma SystemResize(rs: seq<Region>, end: int)
    requires |rs| >= 1
    ensures SystemSize(rs[|rs| - 1 := rs[|rs| - 1].(end := end)]) == SystemSize(rs) + end - rs[|rs| - 1].end
  {
    var ts := rs[|rs| - 1 := rs[|rs| - 1].(end := end)];
    assert ts[..|ts| - 1] == rs[..|rs| - 1];
  }

  // The end of heap_trim, with grow_heap for a negative amount; remapped is the answer of the system.
  method ShrinkTop(a: Arena, pad: int, remapped: bool) returns (r: int)
    requires a.Valid() && a.nonMain && pad >= 0
    modifies a`lo, a`hi, a`chunks, a`regions, a`systemMem
    ensures a.Valid() && Unnoticed(old(a.Now()), a.Now())
    ensures r == 1 ==> a.top in a.chunks && pad + 2 < a.chunks[a.top].size <= pad + 2 + a.page && CutBy(old(a.Now()), a.Now())
    ensures r != 1 ==> a.Now() == old(a.Now())
    ensures remapped ==> a.top in a.chunks && a.chunks[a.top].size <= pad + 2 + a.page
    ensures r == 1 ==> remapped
    ensures |a.regions| == |old(a.regions)| && Shrunk(old(a.regions), a.regions)
  {
    hide Good, Unnoticed, HeapsOk, Extra, Unmap, KnownTo;
    ghost var x := a.Now();
    FirstHeapStays(x, a.g, a.nonMain, a.page, a.heapMax);
    TopIsTop(x, a.g, a.nonMain);
    SelfKept(x);
    var topSize := a.hi[a.top].n;
    ExtraIs(topSize, pad, a.page);
    var extra := Extra(topSize, pad, a.page);
    if extra < a.page {
      BelowOne(extra, a.page);
      return 0;
    }
    var heap := a.regions[|a.regions| - 1];
    if heap.end - extra - heap.base < 2 { return 0; }
    if !remapped { return 0; }
    CutTop(a, extra);
    return 1;
  }

  // The newest heap ends earlier, and the top with it; the other heaps are untouched.
  ghost predicate CutBy(x: St, y: St) {
    && |y.rs| == |x.rs| > 0 && y.top == x.top && y.top in x.c && y.top in y.c
    && var n := |x.rs| - 1;
      && y.rs[..n] == x.rs[..n] && y.rs[n].base == x.rs[n].base
      && y.rs[n].end - x.rs[n].end == y.c[y.top].size - x.c[x.top].size
      && (forall k {:trigger k in y.lo} {:trigger y.lo[k]} :: !(x.rs[n].base <= k < x.rs[n].end) ==>
            (k in y.lo <==> k in x.lo) && (k in x.lo ==> y.lo[k] == x.lo[k]))
      && (forall k {:trigger k in y.hi} {:trigger y.hi[k]} :: !(x.rs[n].base <= k < x.rs[n].end) ==>
            (k in y.hi <==> k in x.hi) && (k in x.hi ==> y.hi[k] == x.hi[k]))
  }

  lemma CutKeepsSettled(x: St, y: St, g: int, nm: bool, page: int, hm: int, enough: int)
    requires Good(x, g, nm) && nm && HeapsOk(x.rs, page, hm) && CutBy(x, y)
    ensures Settles(x, hm, enough) ==> Settles(y, hm, enough)
    ensures Roomy(x, hm, enough) ==> Roomy(y, hm, enough)
  {
    if |x.rs| >= 2 && x.top == x.rs[|x.rs| - 1].base + 2 { SameNewTop(x, y, g, nm, page, hm); }
  }

  lemma SameNewTop(x: St, y: St, g: int, nm: bool, page: int, hm: int)
    requires Good(x, g, nm) && nm && HeapsOk(x.rs, page, hm) && CutBy(x, y) && |x.rs| >= 2 && x.top == x.rs[|x.rs| - 1].base + 2
    ensures NewTop(y) == NewTop(x)
  {
    TrimFacts(x, g, nm, page, hm);
    MarksAre(x, g, nm);
    var f, l := MarkStart(x), MarkEnd(x);
    assert PlacedAt(x.c, x.rs, f) && PlacedAt(x.c, x.rs, l);
    assert RegionsApart(x.rs[|x.rs| - 2], x.rs[|x.rs| - 1]);
    assert y.rs[|x.rs| - 2] == x.rs[..|x.rs| - 1][|x.rs| - 2];
    hide Good, HeapsOk, HeapAt;
    assert y.lo[l] == x.lo[l] && y.hi[f] == x.hi[f] && y.lo[f] == x.lo[f];
  }

  method CutTop(a: Arena, extra: int)
    requires a.Valid() && a.nonMain && 0 < extra && extra % a.page == 0 && a.page > 0
    requires a.top in a.chunks && extra + 2 <= a.chunks[a.top].size
    modifies a`lo, a`hi, a`chunks, a`regions, a`systemMem
    ensures a.Valid() && Unnoticed(old(a.Now()), a.Now())
    ensures a.top in a.chunks && a.chunks[a.top].size == old(a.chunks)[a.top].size - extra
    ensures CutBy(old(a.Now()), a.Now())
    ensures |a.regions| == |old(a.regions)| && Shrunk(old(a.regions), a.regions)
  {
    hide Good, Unnoticed, HeapsOk, Resized, RegionsOk, Unmap, SystemSize, FastbinIndex, Bytes, NFastbins, MapOk, CutBy;
    ghost var x := a.Now();
    FirstHeapStays(x, a.g, a.nonMain, a.page, a.heapMax);
    TopIsTop(x, a.g, a.nonMain);
    var topSize := a.hi[a.top].n;
    var heap := a.regions[|a.regions| - 1];
    HeapIs(a.regions, a.page, a.heapMax, |a.regions| - 1);
    SumMod(heap.end, extra, a.page);
    ResizeHeap(a.regions, a.page, a.heapMax, heap.end - extra);
    SystemResize(a.regions, heap.end - extra);
    var cut := Region(heap.end - extra, heap.end - extra, heap.end);
    a.regions := a.regions[|a.regions| - 1 := heap.(end := heap.end - extra)];
    a.lo := Unmap(a.lo, cut);
    a.hi := Unmap(a.hi, cut);
    a.systemMem := a.systemMem - extra;
    a.hi := a.hi[a.top := Size(topSize - extra, true, false)];
    a.chunks := a.chunks[a.top := Chunk(topSize - extra, Top, a.chunks[a.top].home)];
    CutIsResize(x, a.Now(), a.g, a.nonMain, topSize, extra);
    CutIsCutBy(x, a.Now(), a.g, a.nonMain, topSize, extra);
    ResizeGood(x, a.Now(), a.g, a.nonMain, topSize - extra);
  }

  lemma CutIsCutBy(x: St, y: St, g: int, nm: bool, topSize: int, extra: int)
    requires Good(x, g, nm) && |x.rs| >= 1 && x.top in x.c && topSize == x.c[x.top].size && 0 < extra && extra + 2 <= topSize
    requires var n := |x.rs| - 1; var end := x.rs[n].end - extra; var cut := Region(end, end, x.rs[n].end);
      y == x.(rs := x.rs[n := x.rs[n].(end := end)], lo := Unmap(x.lo, cut),
              hi := Unmap(x.hi, cut)[x.top := Size(topSize - extra, true, false)],
              c := x.c[x.top := Chunk(topSize - extra, Top, x.c[x.top].home)])
    ensures CutBy(x, y)
  {
    hide Linked, FastLinked, Indexed, FastIndexed, Tagged, Tiled;
    TopIsTop(x, g, nm);
    assert PlacedAt(x.c, x.rs, x.top);
  }

  lemma CutIsResize(x: St, y: St, g: int, nm: bool, topSize: int, extra: int)
    requires Good(x, g, nm) && |x.rs| >= 1 && x.top in x.c && topSize == x.c[x.top].size && 0 < extra && extra + 2 <= topSize
    requires var n := |x.rs| - 1; var end := x.rs[n].end - extra; var cut := Region(end, end, x.rs[n].end);
      y == x.(rs := x.rs[n := x.rs[n].(end := end)], lo := Unmap(x.lo, cut),
              hi := Unmap(x.hi, cut)[x.top := Size(topSize - extra, true, false)],
              c := x.c[x.top := Chunk(topSize - extra, Top, x.c[x.top].home)])
    ensures Resized(x, y, topSize - extra)
  {
    hide Linked, FastLinked, Indexed, FastIndexed, Tagged, Tiled;
    TopIsTop(x, g, nm);
    assert PlacedAt(x.c, x.rs, x.top);
    ShrinkRegions(x.rs, x.lo, x.hi, x.rs[|x.rs| - 1].end - extra);
  }

  // heap_trim
  method Trim(a: Arena, pad: int, remapped: bool) returns (r: int, ok: bool)
    requires a.Valid() && a.nonMain && pad >= 0
    modifies a`lo, a`hi, a`slots, a`chunks, a`top, a`regions, a`systemMem
    ensures ok && a.Valid() && Unnoticed(old(a.Now()), a.Now())
    ensures OnlyUnsortedAdded(old(a.slots), a.slots)
    ensures r == 1 ==> a.top in a.chunks && pad + 2 < a.chunks[a.top].size <= pad + 2 + a.page
    ensures Shrunk(old(a.regions), a.regions)
    ensures Settles(a.Now(), a.heapMax, pad + 2 + a.page)
    ensures |a.regions| < |old(a.regions)| ==> Roomy(a.Now(), a.heapMax, pad + 2 + a.page)
    ensures remapped ==> a.top in a.chunks && a.chunks[a.top].size <= pad + 2 + a.page
  {
    hide Good, Unnoticed, HeapsOk, Settles, Roomy, CutBy, KnownTo;
    ghost var x := a.Now();
    SelfKept(x);
    FirstHeapStays(x, a.g, a.nonMain, a.page, a.heapMax);
    var done := false;
    ok := true;
    while !done && a.top == a.regions[|a.regions| - 1].base + 2
      invariant a.Valid() && Unnoticed(x, a.Now()) && ok && OnlyUnsortedAdded(x.s, a.slots)
      invariant 1 <= |a.regions| && Shrunk(x.rs, a.regions) && |a.regions| <= |x.rs|
      invariant done ==> Settles(a.Now(), a.heapMax, pad + 2 + a.page)
      invariant |a.regions| < |x.rs| ==> Roomy(a.Now(), a.heapMax, pad + 2 + a.page)
      decreases |a.regions|, !done
    {
      FirstHeapStays(a.Now(), a.g, a.nonMain, a.page, a.heapMax);
      ghost var y := a.Now();
      done, ok := DeleteHeap(a, pad);
      UnnoticedTrans(x, y, a.Now());
    }
    assert Settles(a.Now(), a.heapMax, pad + 2 + a.page) by { if !done { NotEmptySettles(a.Now(), a.heapMax, pad + 2 + a.page); } }
    ghost var y := a.Now();
    r := ShrinkTop(a, pad, remapped);
    if r == 1 { CutKeepsSettled(y, a.Now(), a.g, a.nonMain, a.page, a.heapMax, pad + 2 + a.page); }
    UnnoticedTrans(x, y, a.Now());
  }

  lemma NotEmptySettles(x: St, hm: int, enough: int)
    requires x.rs != [] && x.top != x.rs[|x.rs| - 1].base + 2
    ensures Settles(x, hm, enough)
  {
  }

  lemma UnnoticedTrans(x: St, y: St, z: St)
    requires Unnoticed(x, y) && Unnoticed(y, z)
    ensures Unnoticed(x, z)
  {
    hide DataKept, LiveOf;
    DataTrans(x.c, y.c, x.lo, x.hi, y.lo, y.hi, z.lo, z.hi, 0);
  }
}
