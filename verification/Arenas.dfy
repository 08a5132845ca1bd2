/** The arena: the fields that the operations update in place, its invariant, and how an arena starts. */
module Arenas {
  import opened Memory
  import opened Sizes
  import opened BinLists
  import opened Chunks
  import opened Frames
  import opened FastLists
  import opened Layout
  import opened State
  import opened BitMaps

  function NFastbins(g: int): int { if g == 8 then 10 else 11 }

  // Memory obtained from the system, in granules.
  function SystemSize(rs: seq<Region>): int {
    if |rs| == 0 then 0 else SystemSize(rs[..|rs| - 1]) + rs[|rs| - 1].end - rs[|rs| - 1].base
  }

  predicate Marked(m: seq<bv32>, i: int)
    requires |m| == 4 && 0 <= i < 128
  { TestBit(m[i / 32], i % 32) }

  // A clear bit means an empty bin.
  ghost predicate MapOk(s: map<int, Slot>, m: seq<bv32>) {
    |m| == 4 && forall q {:trigger q in s} :: q in s && 2 <= s[q].bin <= 126 ==> Marked(m, s[q].bin)
  }

  ghost predicate OnlyUnsortedAdded(s: map<int, Slot>, s': map<int, Slot>) {
    forall q {:trigger q in s'} :: q in s' && s'[q].bin >= 2 ==> q in s && s[q] == s'[q]
  }

  lemma MapStaysOk(s: map<int, Slot>, s': map<int, Slot>, m: seq<bv32>)
    requires MapOk(s, m) && OnlyUnsortedAdded(s, s')
    ensures MapOk(s', m)
  {
  }

  // A heap starts at a multiple of HEAP_MAX_SIZE and is at most that long; the first chunk of
  // every heap but the first, which holds the arena too, follows the two granules of heap_info.
  ghost predicate HeapAt(rs: seq<Region>, page: int, hm: int, i: int)
    requires 0 <= i < |rs| && page > 0 && hm > 0
  {
    && rs[i].base % hm == 0 && rs[i].base % page == 0 && rs[i].end % page == 0
    && rs[i].end - rs[i].base <= hm
    && (if i == 0 then rs[i].first > rs[i].base + 2 else rs[i].first == rs[i].base + 2)
  }

  ghost predicate HeapsOk(rs: seq<Region>, page: int, hm: int) {
    page > 0 && hm > 0 && hm % page == 0 && |rs| >= 1 && forall i {:trigger HeapAt(rs, page, hm, i)} :: 0 <= i < |rs| ==> HeapAt(rs, page, hm, i)
  }

  ghost predicate PageEnds(rs: seq<Region>, page: int)
  { page > 0 && forall i {:trigger rs[i]} :: 0 <= i < |rs| ==> rs[i].base % page == 0 && rs[i].end % page == 0 }

  ghost predicate WithinLimit(rs: seq<Region>, hm: int, limit: int) {
    forall i {:trigger rs[i]} :: 0 <= i < |rs| ==> rs[i].end <= limit && rs[i].base + hm <= limit
  }

  // Before any memory is obtained the top is the header of the unsorted list, with size 0.
  ghost predicate TopKnown(top: int, hi: map<int, Word>, rs: seq<Region>) {
    rs == [] ==> top == Hdr(1) && Hdr(1) in hi && hi[Hdr(1)] == Size(0, false, false)
  }

  // HEAP_MIN_SIZE and MMAP_AS_MORECORE_SIZE in granules of g bytes.
  function HeapMin(g: int): int { if g == 8 then 4096 else 2048 }
  function MorecoreUnit(g: int): int { if g == 8 then 524288 else 262144 }

  // The units in which memory is asked for are whole pages.
  ghost predicate UnitsOk(g: int, nm: bool, page: int, hm: int, limit: int)
  { page > 0 && MorecoreUnit(g) % page == 0 && limit > 0 && limit % page == 0 && (nm ==> HeapMin(g) <= hm) }

  // The heap a new arena is made in: after heap_info comes the arena, then the first chunk.
  ghost predicate FirstHeapOk(r: Region, page: int, hm: int, limit: int) {
    && page > 0 && hm > 0 && hm % page == 0 && r.base % hm == 0 && r.base % page == 0 && r.end % page == 0
    && 0 < r.base && r.base + 2 < r.first && r.first + 2 <= r.end <= r.base + hm <= limit
  }

  // The ar_ptr field of every heap leads to the arena.
  ghost predicate HeapsKnown(rs: seq<Region>, arPtr: map<int, int>, id: int)
  { forall i {:trigger rs[i]} :: 0 <= i < |rs| ==> rs[i].base in arPtr && arPtr[rs[i].base] == id }

  // main_arena is a static object, the others lie in their first heaps, after heap_info.
  const MAIN_ARENA := 0

  ghost predicate KnownTo(nm: bool, rs: seq<Region>, arPtr: map<int, int>, id: int)
  { if nm then HeapsKnown(rs, arPtr, id) else id == MAIN_ARENA }

  // A size word that is at most 2 * SIZE_SZ, flags included.
  predicate TooSmall(w: Word)
    requires w.Size?
  { w.n <= 0 || (w.n == 1 && !w.p && !w.a) }

  class Arena {
    const g: int         // bytes in a granule: MALLOC_ALIGNMENT
    const nonMain: bool
    const page: int      // granules in a page
    const heapMax: int   // granules in HEAP_MAX_SIZE
    const topPad: int    // in granules
    const limit: int     // granules in the address space
    const id: int        // where the arena itself is
    var arPtr: map<int, int>   // ar_ptr of the heaps, by their addresses
    var lo: map<int, int>   // even words: prev_size or fd
    var hi: map<int, Word>  // odd words: size with flags, or bk
    var top: int
    var lastRemainder: int
    var fastbins: seq<int>
    var binmap: seq<bv32>
    var maxFast: int     // in bytes
    var haveFast: bool
    var contiguous: bool
    var regions: seq<Region>
    var systemMem: int   // in granules
    ghost var chunks: map<int, Chunk>
    ghost var slots: map<int, Slot>
    ghost var fast: map<int, FastSlot>

    // The heap with hs for the fastbin heads: malloc_consolidate works on a list it has detached.
    ghost function View(hs: seq<int>): St
      reads this
    { St(lo, hi, top, hs, regions, chunks, slots, fast) }

    ghost function Now(): St
      reads this
    { View(fastbins) }

    ghost predicate Counters()
      reads this
    {
      && |fastbins| == NFastbins(g)
      && Bytes(g, 2) <= maxFast && 0 <= FastbinIndex(maxFast) < |fastbins|
      && (!haveFast ==> fast == map[])
      && (forall p {:trigger p in fast} :: p in fast ==> fast[p].cls <= FastbinIndex(maxFast))
      && systemMem == SystemSize(regions)
      && (contiguous ==> regions == [])
      && MapOk(slots, binmap) && topPad >= 0
      && (nonMain ==> HeapsOk(regions, page, heapMax))
      && (!nonMain ==> PageEnds(regions, page))
      && TopKnown(top, hi, regions) && UnitsOk(g, nonMain, page, heapMax, limit)
      && WithinLimit(regions, if nonMain then heapMax else 0, limit)
      && KnownTo(nonMain, regions, arPtr, id)
    }

    ghost predicate Valid()
      reads this
    { Good(Now(), g, nonMain) && Counters() }

    // malloc_init_state for the main arena, whose memory is all zero before.
    constructor Main(g: int, page: int, limit: int, topPad: int)
      requires IsGrain(g) && topPad >= 0 && UnitsOk(g, false, page, 0, limit)
      ensures Valid() && !nonMain && this.g == g && this.page == page && this.limit == limit && this.topPad == topPad
      ensures chunks == map[] && regions == [] && contiguous && !haveFast && lastRemainder == 0 && maxFast == 64 + g
    {
      this.g, this.page, this.limit, this.topPad := g, page, limit, topPad;
      nonMain, heapMax, id, arPtr := false, 0, MAIN_ARENA, map[];
      lo, hi := map[], map[Hdr(1) := Size(0, false, false)];
      top, lastRemainder, binmap, haveFast, contiguous, regions, systemMem := Hdr(1), 0, [0, 0, 0, 0], false, true, [], 0;
      fastbins := seq(NFastbins(g), _ => 0);
      maxFast := if g == 8 then 72 else 80;
      chunks, slots, fast := map[], map[], map[];
      new;
      hide EmptyHeaders, Good;
      EmptyBins();
      FirstState(Now(), g, false);
    }

    // aproxy_int_new_arena: the arena sits in its first heap, r, before the first chunk.
    constructor InHeap(g: int, page: int, heapMax: int, limit: int, topPad: int, r: Region)
      requires IsGrain(g) && topPad >= 0 && UnitsOk(g, true, page, heapMax, limit)
      requires FirstHeapOk(r, page, heapMax, limit)
      ensures Valid() && nonMain && this.g == g && this.page == page && this.heapMax == heapMax && this.limit == limit && this.topPad == topPad
      ensures id == r.base + 2 && regions == [r] && chunks == map[r.first := Chunk(r.end - r.first, Top, 0)] && slots == map[] && !haveFast && top == r.first
      ensures !contiguous && lastRemainder == 0 && maxFast == 64 + g
    {
      this.g, this.page, this.limit, this.topPad := g, page, limit, topPad;
      nonMain, this.heapMax, id, arPtr := true, heapMax, r.base + 2, map[r.base := r.base + 2];
      lo := map k | r.base <= k < r.end :: ZeroLo(k);
      hi := (map k | r.base <= k < r.end :: ZeroHi(k))[r.first := Size(r.end - r.first, true, false)];
      top, lastRemainder, binmap, haveFast, contiguous, regions, systemMem := r.first, 0, [0, 0, 0, 0], false, false, [r], r.end - r.base;
      fastbins := seq(NFastbins(g), _ => 0);
      maxFast := if g == 8 then 72 else 80;
      chunks, slots, fast := map[r.first := Chunk(r.end - r.first, Top, 0)], map[], map[];
      new;
      hide Good, HeapsOk, HeapAt, SystemSize, WithinLimit, UnitsOk, FirstHeapOk, EmptyHeaders;
      OneHeap(r, page, heapMax, limit);
      EmptyBins();
      FirstHeapState(Now(), g, r);
    }

    // Every bin header is linked to itself.
    method EmptyBins()
      modifies this`lo, this`hi
      ensures EmptyHeaders(lo, hi) && OnlyHeadersLo(old(lo), lo) && OnlyHeadersHi(old(hi), hi)
    {
      var i := 1;
      while i < 128
        invariant 1 <= i <= 128 && EmptyUpTo(lo, hi, i)
        invariant OnlyHeadersLo(old(lo), lo) && OnlyHeadersHi(old(hi), hi)
      {
        ghost var lo0, hi0 := lo, hi;
        lo := lo[Hdr(i) + 1 := Hdr(i)];
        hi := hi[Hdr(i) + 1 := Ptr(Hdr(i))];
        OneMoreEmpty(old(lo), old(hi), lo0, hi0, lo, hi, i);
        i := i + 1;
      }
    }

    // unlink(P, BK, FD)
    method Unlink(p: int) returns (ok: bool)
      requires Linked(slots, lo, hi) && p in slots
      modifies this`lo, this`hi, this`slots
      ensures ok
      ensures slots == old(slots) - {p} && Linked(slots, lo, hi)
      ensures WroteLo(old(slots), {}, old(lo), lo) && WroteHi(old(slots), {}, old(hi), hi)
    {
      hide GapAt;
      assert LinkAt(slots, lo, hi, p);
      var fd := lo[p + 1];
      var bk := hi[p + 1].to;
      if hi[fd + 1] != Ptr(p) || lo[bk + 1] != p {
        ok := false;
      } else {
        UnlinkKeeps(slots, lo, hi, p, fd, bk);
        hi := hi[fd + 1 := Ptr(bk)];
        lo := lo[bk + 1 := fd];
        slots := slots - {p};
        ok := true;
      }
    }
  
    // bck = victim->bk; bin->bk = bck; bck->fd = bin, for the last chunk of bin i
    method RemoveLast(i: int, victim: int)
      requires Linked(slots, lo, hi) && 1 <= i <= 126
      requires Hdr(i) + 1 in hi && hi[Hdr(i) + 1] == Ptr(victim) && victim != Hdr(i)
      modifies this`lo, this`hi, this`slots
      ensures victim in old(slots) && old(slots)[victim].bin == i
      ensures forall q :: q in old(slots) && old(slots)[q].bin == i && q != victim ==> old(slots)[q].key < old(slots)[victim].key
      ensures slots == old(slots) - {victim} && Linked(slots, lo, hi)
      ensures WroteLo(old(slots), {}, old(lo), lo) && WroteHi(old(slots), {}, old(hi), hi)
    {
      hide GapAt;
      LastOf(slots, lo, hi, i, victim);
      var bck := hi[victim + 1].to;
      UnlinkKeeps(slots, lo, hi, victim, Hdr(i), bck);
      hi := hi[Hdr(i) + 1 := Ptr(bck)];
      lo := lo[bck + 1 := Hdr(i)];
      slots := slots - {victim};
    }

    // p->bk = unsorted; p->fd = first; unsorted->fd = p; first->bk = p
    method LinkUnsorted(p: int)
      requires Linked(slots, lo, hi) && p !in slots && p > 0 && p + 1 in lo && p + 1 in hi
      modifies this`lo, this`hi, this`slots
      ensures p in slots && slots == old(slots)[p := slots[p]] && slots[p].bin == 1
      ensures forall q :: q in old(slots) && old(slots)[q].bin == 1 ==> slots[p].key < slots[q].key
      ensures Linked(slots, lo, hi)
      ensures WroteLo(WithNode(old(slots), p), {}, old(lo), lo) && WroteHi(WithNode(old(slots), p), {}, old(hi), hi)
    {
      ghost var s := slots;
      var bck := Hdr(1);
      assert LinkAt(slots, lo, hi, bck);
      var fwd := lo[bck + 1];
      ghost var key := KeyTo(slots, fwd) / 2.0;
      FrontKey(slots, lo, hi, key);
      InsertKeeps(slots, lo, hi, p, bck, fwd, key);
      hi := hi[p + 1 := Ptr(bck)];
      lo := lo[p + 1 := fwd];
      lo := lo[bck + 1 := p];
      hi := hi[fwd + 1 := Ptr(p)];
      slots := slots[p := Slot(1, key)];
    }
  }

  ghost predicate HeaderAt(lo: map<int, int>, hi: map<int, Word>, k: int) { k in lo && k in hi && lo[k] == k - 1 && hi[k] == Ptr(k - 1) }

  // The link words of the headers of the bins below i point to the headers themselves.
  ghost predicate EmptyUpTo(lo: map<int, int>, hi: map<int, Word>, i: int) {
    forall k {:trigger HeaderAt(lo, hi, k)} :: -198 <= k < i - 199 ==> HeaderAt(lo, hi, k)
  }

  ghost predicate EmptyHeaders(lo: map<int, int>, hi: map<int, Word>) { EmptyUpTo(lo, hi, 128) }

  // Outside the headers nothing is written.
  ghost predicate OnlyHeadersLo(lo: map<int, int>, lo': map<int, int>) {
    forall k {:trigger k in lo'} {:trigger k in lo} :: !(-198 <= k <= -72) ==> (k in lo' <==> k in lo) && (k in lo ==> lo'[k] == lo[k])
  }

  ghost predicate OnlyHeadersHi(hi: map<int, Word>, hi': map<int, Word>) {
    forall k {:trigger k in hi'} {:trigger k in hi} :: !(-198 <= k <= -72) ==> (k in hi' <==> k in hi) && (k in hi ==> hi'[k] == hi[k])
  }

  lemma OneMoreEmpty(lo0: map<int, int>, hi0: map<int, Word>, lo: map<int, int>, hi: map<int, Word>, lo': map<int, int>, hi': map<int, Word>, i: int)
    requires 1 <= i < 128 && EmptyUpTo(lo, hi, i) && OnlyHeadersLo(lo0, lo) && OnlyHeadersHi(hi0, hi)
    requires lo' == lo[i - 199 := i - 200] && hi' == hi[i - 199 := Ptr(i - 200)]
    ensures EmptyUpTo(lo', hi', i + 1) && OnlyHeadersLo(lo0, lo') && OnlyHeadersHi(hi0, hi')
  {
    forall k {:trigger HeaderAt(lo', hi', k)} | -198 <= k < i - 198
      ensures HeaderAt(lo', hi', k)
    {
      assert k < i - 199 ==> HeaderAt(lo, hi, k);
    }
  }

  lemma OneHeap(r: Region, page: int, hm: int, limit: int)
    requires FirstHeapOk(r, page, hm, limit)
    ensures 0 < r.base < r.first && r.first + 2 <= r.end
    ensures HeapsOk([r], page, hm) && SystemSize([r]) == r.end - r.base && WithinLimit([r], hm, limit)
  {
    assert [r][..0] == [];
    assert HeapAt([r], page, hm, 0);
  }

  // Fresh pages from the system are zero.
  function ZeroLo(k: int): int { 0 }
  function ZeroHi(k: int): Word { Size(0, false, false) }

  lemma EmptyLinked(lo: map<int, int>, hi: map<int, Word>)
    requires EmptyHeaders(lo, hi)
    ensures Linked(map[], lo, hi)
  {
    forall x | Node(map[], x)
      ensures LinkAt(map[], lo, hi, x)
    {
      assert HeaderAt(lo, hi, x + 1);
    }
  }

  ghost predicate NoLists(x: St, g: int) {
    && IsGrain(g) && x.s == map[] && x.f == map[] && EmptyHeaders(x.lo, x.hi)
    && forall i {:trigger x.heads[i]} :: 0 <= i < |x.heads| ==> x.heads[i] == 0
  }

  lemma NoListsOk(x: St, g: int)
    requires NoLists(x, g) && forall q {:trigger x.c[q]} :: q in x.c ==> x.c[q].tag == Top
    ensures Linked(x.s, x.lo, x.hi) && Indexed(x.s, x.c, g) && FastLinked(x.f, x.lo, x.heads) && FastIndexed(x.f, x.c, g)
  {
    hide Linked;
    EmptyLinked(x.lo, x.hi);
    forall i | 0 <= i < |x.heads|
      ensures FastHead(x.f, x.heads, i)
    {
      assert x.heads[i] == 0;
    }
  }

  lemma FirstState(x: St, g: int, nm: bool)
    requires NoLists(x, g) && x.c == map[] && x.rs == []
    ensures Good(x, g, nm)
  {
    hide Linked, Indexed, FastLinked, FastIndexed;
    NoListsOk(x, g);
  }

  lemma FirstHeapState(x: St, g: int, r: Region)
    requires NoLists(x, g) && x.c == map[r.first := Chunk(r.end - r.first, Top, 0)] && x.rs == [r] && x.top == r.first
    requires 0 < r.base < r.first && r.first + 2 <= r.end
    requires forall k {:trigger k in x.lo} :: r.base <= k < r.end ==> k in x.lo
    requires forall k {:trigger k in x.hi} :: r.base <= k < r.end ==> k in x.hi
    requires r.first in x.hi && x.hi[r.first] == Size(r.end - r.first, true, false)
    ensures Good(x, g, true)
  {
    hide Linked, Indexed, FastLinked, FastIndexed;
    NoListsOk(x, g);
    assert ChunkAt(x.c, r.first) && Apart(x.c, r.first, r.first) && HeadAt(x.c, x.lo, x.hi, true, r.first);
    assert PlacedAt(x.c, x.rs, r.first);
    forall i | 0 <= i < |x.rs|
      ensures CornerAt(x.c, x.rs, x.top, i)
    {
    }
  }

  lemma ChunksInRegions(x: St, g: int, nm: bool, p: int)
    requires Good(x, g, nm) && p in x.c
    ensures x.rs != []
  {
    assert PlacedAt(x.c, x.rs, p);
  }

  lemma FrontKey(s: map<int, Slot>, lo: map<int, int>, hi: map<int, Word>, key: real)
    requires Linked(s, lo, hi) && Hdr(1) + 1 in lo && Node(s, lo[Hdr(1) + 1]) && key == KeyTo(s, lo[Hdr(1) + 1]) / 2.0
    ensures Between(s, Hdr(1), lo[Hdr(1) + 1], key)
    ensures forall q :: q in s && s[q].bin == 1 ==> key < s[q].key
  {
    var fwd := lo[Hdr(1) + 1];
    assert KeyTo(s, fwd) > 0.0;
    forall q | q in s && s[q].bin == 1
      ensures key < s[q].key
    {
      assert GapAt(s, lo, Hdr(1), q);
    }
  }

  // The last chunk of a bin has the greatest key.
  lemma LastOf(s: map<int, Slot>, lo: map<int, int>, hi: map<int, Word>, i: int, v: int)
    requires Linked(s, lo, hi) && 1 <= i <= 126
    requires Hdr(i) + 1 in hi && hi[Hdr(i) + 1] == Ptr(v) && v != Hdr(i)
    ensures v in s && v > 0 && s[v].bin == i && LinkAt(s, lo, hi, v) && lo[v + 1] == Hdr(i) && LinkAt(s, lo, hi, Hdr(i))
    ensures forall q :: q in s && s[q].bin == i && q != v ==> s[q].key < s[v].key
  {
    assert LinkAt(s, lo, hi, Hdr(i));
    assert LinkAt(s, lo, hi, v);
    forall q | q in s && s[q].bin == i && q != v
      ensures s[q].key < s[v].key
    {
      assert GapAt(s, lo, v, q);
    }
  }

  // The first chunk of a bin has the least key.
  lemma FirstOf(s: map<int, Slot>, lo: map<int, int>, hi: map<int, Word>, i: int, v: int)
    requires Linked(s, lo, hi) && 1 <= i <= 126
    requires Hdr(i) + 1 in lo && lo[Hdr(i) + 1] == v && v != Hdr(i)
    ensures v in s && v > 0 && s[v].bin == i && LinkAt(s, lo, hi, v) && hi[v + 1] == Ptr(Hdr(i)) && LinkAt(s, lo, hi, Hdr(i))
    ensures forall q :: q in s && s[q].bin == i && q != v ==> s[v].key < s[q].key
  {
    assert LinkAt(s, lo, hi, Hdr(i));
    assert LinkAt(s, lo, hi, v);
    forall q | q in s && s[q].bin == i && q != v
      ensures s[v].key < s[q].key
    {
      assert GapAt(s, lo, Hdr(i), q);
    }
  }

  // A header that points to itself heads an empty bin.
  lemma EmptyBin(s: map<int, Slot>, lo: map<int, int>, hi: map<int, Word>, i: int)
    requires Linked(s, lo, hi) && 1 <= i <= 127
    ensures LinkAt(s, lo, hi, Hdr(i))
    ensures hi[Hdr(i) + 1] == Ptr(Hdr(i)) <==> lo[Hdr(i) + 1] == Hdr(i)
    ensures hi[Hdr(i) + 1] == Ptr(Hdr(i)) <==> forall q :: q in s ==> s[q].bin != i
  {
    assert LinkAt(s, lo, hi, Hdr(i));
    if hi[Hdr(i) + 1] == Ptr(Hdr(i)) {
      forall q | q in s
        ensures s[q].bin != i
      {
        assert GapAt(s, lo, Hdr(i), q);
      }
    }
  }
}
