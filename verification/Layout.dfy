/** Where chunks lie in the regions obtained from the system: from the first chunk to the top or the end marker. */
module Layout {
  import opened Memory
  import opened Sizes
  import opened BinLists
  import opened Chunks
  import opened FastLists

  // ---- which list a free chunk is on

  ghost predicate SlotFits(s: map<int, Slot>, c: map<int, Chunk>, g: int, p: int)
    requires p in s
  {
    && p in c && c[p].tag == Binned
    && (s[p].bin >= 2 ==> BinIndex(Bytes(g, c[p].size)) == s[p].bin)
  }

  // Larger chunks come first in the bins that hold several sizes.
  ghost predicate SortedAt(s: map<int, Slot>, c: map<int, Chunk>, p: int, q: int)
    requires p in s && q in s && p in c && q in c
  { s[p].bin == s[q].bin >= 64 && s[p].key < s[q].key ==> c[p].size >= c[q].size }

  ghost predicate Indexed(s: map<int, Slot>, c: map<int, Chunk>, g: int) {
    && (forall p {:trigger SlotFits(s, c, g, p)} :: p in s ==> SlotFits(s, c, g, p))
    && (forall p {:trigger p in s} :: p in c && c[p].tag == Binned ==> p in s)
    && (forall p, q {:trigger SortedAt(s, c, p, q)} :: p in s && q in s && p in c && q in c ==> SortedAt(s, c, p, q))
  }

  ghost predicate FastFits(f: map<int, FastSlot>, c: map<int, Chunk>, g: int, p: int)
    requires p in f
  {
    && p in c && c[p].tag == Fast
    && f[p].cls == FastbinIndex(Bytes(g, c[p].size))
  }

  ghost predicate FastIndexed(f: map<int, FastSlot>, c: map<int, Chunk>, g: int) {
    && (forall p {:trigger FastFits(f, c, g, p)} :: p in f ==> FastFits(f, c, g, p))
    && (forall p {:trigger p in f} :: p in c && c[p].tag == Fast ==> p in f)
  }

  // ---- the regions obtained from the system

  datatype Region = Region(base: int, first: int, end: int)

  ghost predicate PlacedAt(c: map<int, Chunk>, rs: seq<Region>, p: int)
    requires p in c
  {
    && 0 <= c[p].home < |rs|
    && rs[c[p].home].first <= p && p + c[p].size <= rs[c[p].home].end
    && (c[p].tag == Last ==> c[p].home + 1 < |rs| && p + 1 == rs[c[p].home].end)
  }

  ghost predicate CornerAt(c: map<int, Chunk>, rs: seq<Region>, top: int, i: int)
    requires 0 <= i < |rs|
  {
    && rs[i].first in c && c[rs[i].first].home == i
    && (if i + 1 < |rs| then rs[i].end - 1 in c && c[rs[i].end - 1].tag == Last && c[rs[i].end - 1].home == i
        else top in c && c[top].tag == Top && c[top].home == i && top + c[top].size == rs[i].end)
  }

  ghost predicate Placed(c: map<int, Chunk>, rs: seq<Region>, top: int) {
    && (forall p {:trigger PlacedAt(c, rs, p)} :: p in c ==> PlacedAt(c, rs, p))
    && (forall p {:trigger p in c} :: p in c && c[p].tag == Top ==> p == top)
    && (forall i {:trigger CornerAt(c, rs, top, i)} :: 0 <= i < |rs| ==> CornerAt(c, rs, top, i))
  }

  predicate RegionsApart(r: Region, t: Region) { r.end <= t.base || t.end <= r.base }

  ghost predicate RegionsOk(rs: seq<Region>, lo: map<int, int>, hi: map<int, Word>) {
    && (forall i {:trigger rs[i]} :: 0 <= i < |rs| ==> 0 < rs[i].base <= rs[i].first < rs[i].end)
    && (forall i, j :: 0 <= i < j < |rs| ==> RegionsApart(rs[i], rs[j]))
    && (forall i, k {:trigger rs[i], k in lo} :: 0 <= i < |rs| && rs[i].base <= k < rs[i].end ==> k in lo)
    && (forall i, k {:trigger rs[i], k in hi} :: 0 <= i < |rs| && rs[i].base <= k < rs[i].end ==> k in hi)
  }

  // ---- bytes accounted for

  ghost function Total(c: map<int, Chunk>): int {
    if exists p :: p in c then var p :| p in c; c[p].size + Total(c - {p}) else 0
  }

  lemma TotalPick(c: map<int, Chunk>, p: int)
    requires p in c
    ensures Total(c) == c[p].size + Total(c - {p})
  {
    var q :| q in c.Keys && Total(c) == c[q].size + Total(c - {q});
    if q != p {
      TotalPick(c - {q}, p);
      TotalPick(c - {p}, q);
      assert c - {q} - {p} == c - {p} - {q};
    }
  }

  ghost function Capacity(rs: seq<Region>): int {
    if |rs| == 0 then 0 else Capacity(rs[..|rs| - 1]) + rs[|rs| - 1].end - rs[|rs| - 1].first
  }

  // ---- what a new cut of [b, e) keeps

  ghost predicate SlotsRecut(s: map<int, Slot>, s': map<int, Slot>, d: map<int, Chunk>, b: int, e: int) {
    && (forall q {:trigger q in s'} :: q < b || e <= q ==> (q in s <==> q in s'))
    && (forall q {:trigger s'[q]} :: (q < b || e <= q) && q in s && q in s' ==> s'[q] == s[q])
    && (forall q {:trigger s'[q]} :: b <= q < e && q in s' ==> q in d && d[q].tag == Binned && s'[q].bin == 1)
    && (forall q {:trigger d[q]} :: b <= q < e && q in d && d[q].tag == Binned ==> q in s')
  }

  lemma IndexedRecut(s: map<int, Slot>, s': map<int, Slot>, c: map<int, Chunk>, d: map<int, Chunk>, g: int, b: int, e: int)
    requires Indexed(s, c, g) && Recut(c, d, b, e) && SlotsRecut(s, s', d, b, e)
    ensures Indexed(s', d, g)
  {
    forall p | p in s'
      ensures SlotFits(s', d, g, p)
    {
      if p < b || e <= p { assert SlotFits(s, c, g, p); }
    }
    forall p, q | p in s' && q in s' && p in d && q in d
      ensures SortedAt(s', d, p, q)
    {
      if (p < b || e <= p) && (q < b || e <= q) {
        assert SlotFits(s, c, g, p) && SlotFits(s, c, g, q);
        assert SortedAt(s, c, p, q);
      }
    }
    forall p | p in d && d[p].tag == Binned
      ensures p in s'
    {
      if p < b || e <= p { assert p in c && p in s; }
    }
  }

  lemma FastIndexedRecut(f: map<int, FastSlot>, f': map<int, FastSlot>, c: map<int, Chunk>, d: map<int, Chunk>, g: int, b: int, e: int)
    requires FastIndexed(f, c, g) && Recut(c, d, b, e)
    requires forall q :: (q in f' <==> q in f && (q < b || e <= q)) && (q in f' ==> f'[q] == f[q])
    requires forall q :: q in d && b <= q < e ==> d[q].tag != Fast
    ensures FastIndexed(f', d, g)
  {
    forall p | p in f'
      ensures FastFits(f', d, g, p)
    {
      assert FastFits(f, c, g, p);
    }
    forall p | p in d && d[p].tag == Fast
      ensures p in f'
    {
      assert p in c && p in f;
    }
  }

  lemma PlacedRecut(c: map<int, Chunk>, d: map<int, Chunk>, rs: seq<Region>, top: int, top': int, b: int, e: int)
    requires Placed(c, rs, top) && Recut(c, d, b, e) && 0 <= c[b].home < |rs| && e <= rs[c[b].home].end
    requires if b <= top < e then b <= top' < e && top' in d && d[top'].tag == Top && top' + d[top'].size == e == rs[c[b].home].end
             else top' == top && forall q :: q in d && b <= q < e ==> d[q].tag != Top
    requires forall q :: q in d && b <= q < e ==> d[q].tag != Last && (d[q].tag == Top ==> q == top')
    requires forall q :: q in c && b <= q < e ==> c[q].tag != Last
    ensures Placed(d, rs, top')
  {
    assert PlacedAt(c, rs, b);
    forall p | p in d
      ensures PlacedAt(d, rs, p)
    {
      if p < b || e <= p { assert PlacedAt(c, rs, p); } else { assert PieceAt(d, c[b].home, e, p); }
    }
    forall i | 0 <= i < |rs|
      ensures CornerAt(d, rs, top', i)
    {
      PlacedCorner(c, d, rs, top, top', b, e, i);
    }
  }

  lemma PlacedCorner(c: map<int, Chunk>, d: map<int, Chunk>, rs: seq<Region>, top: int, top': int, b: int, e: int, i: int)
    requires Placed(c, rs, top) && Recut(c, d, b, e) && 0 <= i < |rs| && 0 <= c[b].home < |rs| && e <= rs[c[b].home].end
    requires if b <= top < e then b <= top' < e && top' in d && d[top'].tag == Top && top' + d[top'].size == e == rs[c[b].home].end
             else top' == top && forall q :: q in d && b <= q < e ==> d[q].tag != Top
    requires forall q :: q in c && b <= q < e ==> c[q].tag != Last
    ensures CornerAt(d, rs, top', i)
  {
    assert CornerAt(c, rs, top, i) && PlacedAt(c, rs, b);
    var x := rs[i].first;
    assert b <= x < e ==> x == b by {
      if b <= x < e { assert PieceAt(c, c[b].home, e, x); }
    }
    if i + 1 < |rs| {
      var y := rs[i].end - 1;
      assert y in c;
    } else if b <= top < e {
      assert PieceAt(c, c[b].home, e, top) && PieceAt(d, c[b].home, e, top');
    }
  }
}
