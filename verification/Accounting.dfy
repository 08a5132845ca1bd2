/** Nothing is lost: the chunks and markers add up to the memory from the system. */
module Accounting {
  import opened Memory
  import opened BinLists
  import opened Chunks
  import opened FastLists
  import opened Layout
  import opened State
  import opened Arenas
  import opened Sorting
  import opened Searching

  // ---- sums over parts of the heap

  lemma SomeChunk(d: map<int, Chunk>) returns (p: int)
    requires d != map[]
    ensures p in d
  {
    assert (forall q {:trigger q in d} :: q !in d) ==> d == map[];
    p :| p in d;
  }

  lemma PickFromSum(c: map<int, Chunk>, d: map<int, Chunk>, p: int)
    requires p in d && p !in c
    ensures (c + d) - {p} == c + (d - {p}) && p in c + d && (c + d)[p] == d[p]
  {
  }

  lemma {:induction false} TotalSum(c: map<int, Chunk>, d: map<int, Chunk>)
    requires c.Keys !! d.Keys
    ensures Total(c + d) == Total(c) + Total(d)
    decreases |d|
  {
    hide Total;
    if d == map[] {
      TotalNone();
      assert c + d == c;
    } else {
      var p := SomeChunk(d);
      TotalPick(d, p);
      TotalPick(c + d, p);
      PickFromSum(c, d, p);
      TotalSum(c, d - {p});
    }
  }

  lemma TotalNone()
    ensures Total(map[]) == 0
  {
  }

  lemma TotalAdd(c: map<int, Chunk>, d: map<int, Chunk>, p: int)
    requires p in d && p !in c && d == c[p := d[p]]
    ensures Total(d) == Total(c) + d[p].size
  {
    hide Total;
    TotalPick(d, p);
    assert d - {p} == c;
  }

  // The chunks of region h from p on, and those of the regions before h.
  ghost function From(c: map<int, Chunk>, h: int, p: int): map<int, Chunk> { map q | q in c && c[q].home == h && q >= p :: c[q] }

  ghost function Before(c: map<int, Chunk>, h: int): map<int, Chunk> { map q | q in c && c[q].home < h :: c[q] }

  // From any chunk on, the chunks of a region fill it up to its end.
  lemma {:induction false} FillsToEnd(x: St, g: int, nm: bool, p: int)
    requires Good(x, g, nm) && p in x.c
    ensures 0 <= x.c[p].home < |x.rs| && Total(From(x.c, x.c[p].home, p)) == x.rs[x.c[p].home].end - p
    decreases if p in x.c && 0 <= x.c[p].home < |x.rs| then x.rs[x.c[p].home].end - p else 0
  {
    hide Good, Total;
    TotalNone();
    var h := x.c[p].home;
    ChunkEnds(x, g, nm, p);
    var n := p + x.c[p].size;
    if Ends(x.c[p].tag) {
      assert From(x.c, h, p) == map[p := x.c[p]] by { LastOne(x, g, nm, p); }
      TotalAdd(map[], map[p := x.c[p]], p);
    } else {
      ChunkEnds(x, g, nm, n);
      FillsToEnd(x, g, nm, n);
      assert From(x.c, h, p) == From(x.c, h, n)[p := x.c[p]] by { OneMore(x, g, nm, p); }
      TotalAdd(From(x.c, h, n), From(x.c, h, p), p);
    }
  }

  lemma ChunkEnds(x: St, g: int, nm: bool, p: int)
    requires Good(x, g, nm) && p in x.c
    ensures 0 <= x.c[p].home < |x.rs| && x.c[p].size >= 1 && p + x.c[p].size <= x.rs[x.c[p].home].end
    ensures Ends(x.c[p].tag) ==> p + x.c[p].size == x.rs[x.c[p].home].end
    ensures !Ends(x.c[p].tag) ==> p + x.c[p].size in x.c && x.c[p + x.c[p].size].home == x.c[p].home
  {
    hide Linked, FastLinked, Indexed, FastIndexed, RegionsOk, Tagged;
    assert ChunkAt(x.c, p) && PlacedAt(x.c, x.rs, p);
    if x.c[p].tag == Top { assert CornerAt(x.c, x.rs, x.top, |x.rs| - 1); }
  }

  lemma LastOne(x: St, g: int, nm: bool, p: int)
    requires Good(x, g, nm) && p in x.c && Ends(x.c[p].tag)
    ensures forall q :: q in x.c && x.c[q].home == x.c[p].home && q >= p ==> q == p
  {
    hide Linked, FastLinked, Indexed, FastIndexed, RegionsOk, Tagged;
    ChunkEnds(x, g, nm, p);
    forall q | q in x.c && x.c[q].home == x.c[p].home && q >= p
      ensures q == p
    {
      ChunkEnds(x, g, nm, q);
      assert Apart(x.c, p, q);
    }
  }

  lemma OneMore(x: St, g: int, nm: bool, p: int)
    requires Good(x, g, nm) && p in x.c && x.c[p].size >= 1
    ensures forall q :: q in x.c && q >= p ==> q == p || q >= p + x.c[p].size
  {
    hide Linked, FastLinked, Indexed, FastIndexed, RegionsOk, Tagged;
    assert forall q :: q in x.c ==> Apart(x.c, p, q);
  }

  lemma BeforeNone(c: map<int, Chunk>)
    requires forall q {:trigger q in c} :: q in c ==> 0 <= c[q].home
    ensures Before(c, 0) == map[]
  {
    forall q {:trigger q in Before(c, 0)}
      ensures q !in Before(c, 0)
    {
    }
  }

  lemma BeforeAll(c: map<int, Chunk>, h: int)
    requires forall q {:trigger q in c} :: q in c ==> c[q].home < h
    ensures Before(c, h) == c
  {
    assert forall q {:trigger q in c} :: q in c ==> q in Before(c, h);
  }

  lemma {:induction false} RegionsFilled(x: St, g: int, nm: bool, h: int)
    requires Good(x, g, nm) && 0 <= h <= |x.rs|
    ensures Total(Before(x.c, h)) == Capacity(x.rs[..h])
  {
    hide Good, Total;
    TotalNone();
    if h == 0 {
      NoHomeBelow(x, g, nm);
      BeforeNone(x.c);
    } else {
      var r := x.rs[h - 1];
      FirstChunk(x, g, nm, h - 1);
      RegionsFilled(x, g, nm, h - 1);
      FillsToEnd(x, g, nm, r.first);
      assert Before(x.c, h) == Before(x.c, h - 1) + From(x.c, h - 1, r.first);
      TotalSum(Before(x.c, h - 1), From(x.c, h - 1, r.first));
      assert x.rs[..h][..h - 1] == x.rs[..h - 1];
    }
  }

  lemma NoHomeBelow(x: St, g: int, nm: bool)
    requires Good(x, g, nm)
    ensures forall q {:trigger q in x.c} :: q in x.c ==> 0 <= x.c[q].home < |x.rs|
  {
    forall q | q in x.c
      ensures 0 <= x.c[q].home < |x.rs|
    {
      ChunkEnds(x, g, nm, q);
    }
  }

  lemma FirstChunk(x: St, g: int, nm: bool, h: int)
    requires Good(x, g, nm) && 0 <= h < |x.rs|
    ensures x.rs[h].first in x.c && x.c[x.rs[h].first].home == h
    ensures forall q :: q in x.c && x.c[q].home == h ==> q >= x.rs[h].first
  {
    hide Linked, FastLinked, Indexed, FastIndexed, RegionsOk, Tagged, Tiled;
    assert CornerAt(x.c, x.rs, x.top, h);
    assert forall q :: q in x.c ==> PlacedAt(x.c, x.rs, q);
  }

  // Nothing is lost: the chunks fill every region from its first usable granule to its end.
  lemma NothingLost(x: St, g: int, nm: bool)
    requires Good(x, g, nm)
    ensures Total(x.c) == Capacity(x.rs)
  {
    hide Good, Total, Capacity;
    NoHomeBelow(x, g, nm);
    RegionsFilled(x, g, nm, |x.rs|);
    BeforeAll(x.c, |x.rs|);
    assert x.rs[..|x.rs|] == x.rs;
  }

  // ---- the parts by use

  ghost function ChunksTagged(c: map<int, Chunk>, t: Tag): map<int, Chunk> { map q | q in c && c[q].tag == t :: c[q] }

  lemma ByTag(c: map<int, Chunk>)
    ensures Total(c) == Total(ChunksTagged(c, Live)) + Total(ChunksTagged(c, Fast)) + Total(ChunksTagged(c, Binned)) + Total(ChunksTagged(c, Top))
                      + Total(ChunksTagged(c, Fence)) + Total(ChunksTagged(c, Last))
  {
    hide Total;
    var a := ChunksTagged(c, Live) + ChunksTagged(c, Fast);
    var b := a + ChunksTagged(c, Binned);
    var d := b + ChunksTagged(c, Top);
    var e := d + ChunksTagged(c, Fence);
    assert forall q {:trigger q in c} :: q in c ==> c[q].tag == Last || q in e;
    assert c.Keys == (e + ChunksTagged(c, Last)).Keys;
    assert c == e + ChunksTagged(c, Last);
    TotalSum(ChunksTagged(c, Live), ChunksTagged(c, Fast));
    TotalSum(a, ChunksTagged(c, Binned));
    TotalSum(b, ChunksTagged(c, Top));
    TotalSum(d, ChunksTagged(c, Fence));
    TotalSum(e, ChunksTagged(c, Last));
  }

  // heap_info structures and the arena itself
  ghost function Headers(rs: seq<Region>): int {
    if |rs| == 0 then 0 else Headers(rs[..|rs| - 1]) + rs[|rs| - 1].first - rs[|rs| - 1].base
  }

  lemma {:induction false} SystemParts(rs: seq<Region>)
    ensures SystemSize(rs) == Headers(rs) + Capacity(rs)
  {
    if |rs| > 0 { SystemParts(rs[..|rs| - 1]); }
  }

  // ---- what the walks over the lists have met

  ghost function FastBelow(x: St, i: int): map<int, Chunk> { map q | q in x.c && q in x.f && x.f[q].cls < i :: x.c[q] }

  // ... before p in class i
  ghost function FastSeen(x: St, i: int, p: int): map<int, Chunk> {
    map q | q in x.c && q in x.f && (x.f[q].cls < i || (x.f[q].cls == i && (p !in x.f || x.f[p].depth < x.f[q].depth))) :: x.c[q]
  }

  lemma FastStart(x: St, g: int, nm: bool, i: int)
    requires Good(x, g, nm) && 0 <= i < |x.heads|
    ensures FastSeen(x, i, x.heads[i]) == FastBelow(x, i)
    ensures x.heads[i] != 0 ==> x.heads[i] in x.f && x.f[x.heads[i]].cls == i
  {
    hide Linked, Indexed, RegionsOk, Tagged, Placed, Tiled;
    assert FastHead(x.f, x.heads, i);
    forall q | q in x.f
      ensures x.f[q].depth >= 0 && q > 0
    {
      assert FastAt(x.f, x.lo, q);
    }
  }

  lemma FastStep(x: St, g: int, nm: bool, i: int, p: int)
    requires Good(x, g, nm) && p in x.f && x.f[p].cls == i
    ensures p in x.c && p != 0 && p + 1 in x.lo && p in x.hi && x.hi[p].Size? && x.hi[p].n == x.c[p].size
    ensures p !in FastSeen(x, i, p) && FastSeen(x, i, x.lo[p + 1]) == FastSeen(x, i, p)[p := x.c[p]]
    ensures x.lo[p + 1] != 0 ==> x.lo[p + 1] in x.f && x.f[x.lo[p + 1]] == FastSlot(i, x.f[p].depth - 1)
    ensures x.f[p].depth >= 0
  {
    hide Linked, Indexed, RegionsOk, Placed;
    assert FastAt(x.f, x.lo, p) && FastFits(x.f, x.c, g, p) && HeadAt(x.c, x.lo, x.hi, nm, p);
    var n := x.lo[p + 1];
    assert n !in x.f ==> n == 0;
    forall q | q in x.f
      ensures q > 0 && x.f[q].depth >= 0 && (x.f[q] == x.f[p] ==> q == p)
    {
      assert FastAt(x.f, x.lo, q) && Alone(x.f, p, q);
    }
  }

  lemma FastStop(x: St, g: int, nm: bool, i: int)
    requires Good(x, g, nm)
    ensures FastSeen(x, i, 0) == FastBelow(x, i + 1)
    ensures FastBelow(x, |x.heads|) == ChunksTagged(x.c, Fast) && FastBelow(x, 0) == map[]
  {
    hide Linked, Indexed, RegionsOk, Placed, Tagged, Tiled;
    forall q | q in x.f
      ensures q > 0 && 0 <= x.f[q].cls < |x.heads| && q in x.c && x.c[q].tag == Fast
    {
      assert FastAt(x.f, x.lo, q) && FastFits(x.f, x.c, g, q);
    }
    forall q | q in x.c && x.c[q].tag == Fast
      ensures q in x.f
    {
      var _ := q in x.f;
    }
  }

  ghost function BinsBelow(x: St, i: int): map<int, Chunk> { map q | q in x.c && q in x.s && x.s[q].bin < i :: x.c[q] }

  // ... after v in bin i
  ghost function BinSeen(x: St, i: int, v: int): map<int, Chunk> {
    map q | q in x.c && q in x.s && (x.s[q].bin < i || (x.s[q].bin == i && (v !in x.s || x.s[v].key < x.s[q].key))) :: x.c[q]
  }

  lemma BinStart(x: St, g: int, nm: bool, i: int)
    requires Good(x, g, nm) && 1 <= i <= 127
    ensures Hdr(i) + 1 in x.hi && x.hi[Hdr(i) + 1].Ptr?
    ensures var v := x.hi[Hdr(i) + 1].to; BinSeen(x, i, v) == BinsBelow(x, i) && (v != Hdr(i) ==> v in x.s && x.s[v].bin == i)
  {
    hide Indexed, RegionsOk, Tagged, Placed, Tiled, FastLinked, FastIndexed, GapAt;
    EmptyBin(x.s, x.lo, x.hi, i);
    var v := x.hi[Hdr(i) + 1].to;
    if v != Hdr(i) {
      NotHeader(x.s, x.lo, x.hi, i);
      LastOf(x.s, x.lo, x.hi, i, v);
      assert forall q {:trigger q in x.s} :: q in x.s && x.s[q].bin == i ==> !(x.s[v].key < x.s[q].key);
    } else {
      assert forall q {:trigger q in x.s} :: q in x.s ==> x.s[q].bin != i;
    }
  }

  lemma NotHeader(s: map<int, Slot>, lo: map<int, int>, hi: map<int, Word>, i: int)
    requires Linked(s, lo, hi) && 1 <= i <= 127 && Hdr(i) + 1 in hi && hi[Hdr(i) + 1].Ptr? && hi[Hdr(i) + 1].to != Hdr(i)
    ensures i <= 126
  {
    assert LinkAt(s, lo, hi, Hdr(i));
  }

  lemma BinStep(x: St, g: int, nm: bool, i: int, v: int)
    requires Good(x, g, nm) && v in x.s && x.s[v].bin == i
    ensures v in x.c && v in x.hi && x.hi[v].Size? && x.hi[v].n == x.c[v].size && v + 1 in x.hi && x.hi[v + 1].Ptr?
    ensures v !in BinSeen(x, i, v) && BinSeen(x, i, x.hi[v + 1].to) == BinSeen(x, i, v)[v := x.c[v]]
    ensures Hdr(i) !in x.s
    ensures x.hi[v + 1].to != Hdr(i) ==> x.hi[v + 1].to in x.s && x.s[x.hi[v + 1].to].bin == i && x.s[x.hi[v + 1].to].key < x.s[v].key
  {
    hide Indexed, RegionsOk, Tagged, Placed, Tiled, FastLinked, FastIndexed;
    SlotIs(x, g, nm, v);
    LinkOf(x.s, x.lo, x.hi, v);
    var b := x.hi[v + 1].to;
    LinkOf(x.s, x.lo, x.hi, b);
    assert IsHdr(b) ==> b == Hdr(i);
    forall q | q in x.s && x.s[q].bin == i
      ensures q == v || x.s[v].key < x.s[q].key || (b in x.s && x.s[q].key <= x.s[b].key)
    {
      assert GapAt(x.s, x.lo, b, q) && GapAt(x.s, x.lo, v, q);
    }
  }

  lemma BinStop(x: St, g: int, nm: bool, i: int)
    requires Good(x, g, nm) && 1 <= i <= 127
    ensures BinSeen(x, i, Hdr(i)) == BinsBelow(x, i + 1)
    ensures BinsBelow(x, 128) == ChunksTagged(x.c, Binned) && BinsBelow(x, 1) == map[]
  {
    hide RegionsOk, Tagged, Placed, Tiled, FastLinked, FastIndexed;
    forall q | q in x.s
      ensures q > 0 && 1 <= x.s[q].bin <= 126 && q in x.c && x.c[q].tag == Binned
    {
      assert SlotFits(x.s, x.c, g, q);
    }
    forall q | q in x.c && x.c[q].tag == Binned
      ensures q in x.s
    {
      var _ := q in x.s;
    }
  }
}
