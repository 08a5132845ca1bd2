/** A heap as a tiling by chunks: sizes, neighbours, borders, and the tag each boundary tag must show. */
module Chunks {
  import opened Memory

  datatype Tag = Live | Fast | Binned | Top | Fence | Last
  datatype Chunk = Chunk(size: int, tag: Tag, home: int)

  ghost predicate Ends(t: Tag) { t == Top || t == Last }

  ghost predicate ChunkAt(c: map<int, Chunk>, p: int) {
    && p in c && p > 0
    && (if c[p].tag == Last then c[p].size == 1
        else if c[p].tag == Fence then 1 <= c[p].size <= 2
        else c[p].size >= 2)
    && (!Ends(c[p].tag) ==>
        && p + c[p].size in c
        && c[p + c[p].size].home == c[p].home
        && (c[p + c[p].size].tag == Last ==> c[p].tag == Fence)
        && (c[p].tag == Fence ==> c[p + c[p].size].tag == Fence || c[p + c[p].size].tag == Last)
        && (c[p].tag == Binned ==> c[p + c[p].size].tag != Binned && c[p + c[p].size].tag != Top))
  }

  ghost predicate Apart(c: map<int, Chunk>, p: int, q: int)
    requires p in c && q in c
  { p < q ==> p + c[p].size <= q }

  ghost predicate Tiled(c: map<int, Chunk>) {
    && (forall p {:trigger ChunkAt(c, p)} :: p in c ==> ChunkAt(c, p))
    && (forall p, q {:trigger Apart(c, p, q)} :: p in c && q in c ==> Apart(c, p, q))
  }

  ghost predicate HeadAt(c: map<int, Chunk>, lo: map<int, int>, hi: map<int, Word>, nm: bool, p: int) {
    && p in c && p in lo && p in hi && hi[p].Size?
    && hi[p].n == (if c[p].tag == Last && nm then 0 else c[p].size)
    && (if c[p].tag == Live || c[p].tag == Fast then hi[p].a == nm else !hi[p].a)
    && (nm && c[p].tag == Last ==> p - lo[p] in c && c[p - lo[p]].tag == Fence && c[p - lo[p]].size == lo[p])
    && (!hi[p].p ==> p - lo[p] in c && c[p - lo[p]].tag == Binned && c[p - lo[p]].size == lo[p])
    && (!Ends(c[p].tag) ==>
        var e := p + c[p].size;
        && e in hi && hi[e].Size? && hi[e].p == (c[p].tag != Binned)
        && (c[p].tag == Binned ==> e in lo && lo[e] == c[p].size)
        && (nm && c[p].tag == Fence ==> e in c && c[e].tag == Last))
  }

  ghost predicate Tagged(c: map<int, Chunk>, lo: map<int, int>, hi: map<int, Word>, nm: bool) {
    forall p {:trigger HeadAt(c, lo, hi, nm, p)} :: p in c ==> HeadAt(c, lo, hi, nm, p)
  }

  // ---- cutting the stretch [b, e) anew

  function Retag(c: map<int, Chunk>, p: int, t: Tag): map<int, Chunk>
    requires p in c
  { c[p := c[p].(tag := t)] }

  function Split(c: map<int, Chunk>, p: int, n: int, t: Tag, u: Tag): map<int, Chunk>
    requires p in c
  { c[p := Chunk(n, t, c[p].home)][p + n := Chunk(c[p].size - n, u, c[p].home)] }

  ghost function Fuse(c: map<int, Chunk>, b: int, e: int, t: Tag): map<int, Chunk>
    requires b in c
  { (map q | q in c && (q < b || e <= q) :: c[q])[b := Chunk(e - b, t, c[b].home)] }

  ghost predicate NoBinnedBefore(c: map<int, Chunk>, p: int) {
    forall q {:trigger c[q]} :: q in c && q + c[q].size == p ==> c[q].tag != Binned
  }

  ghost predicate NoFenceBefore(c: map<int, Chunk>, p: int) {
    forall q {:trigger c[q]} :: q in c && q + c[q].size == p ==> c[q].tag != Fence
  }

  lemma NoFence(c: map<int, Chunk>, p: int)
    requires Tiled(c) && p in c && c[p].tag != Fence && c[p].tag != Last
    ensures NoFenceBefore(c, p)
  {
    forall q | q in c && q + c[q].size == p
      ensures c[q].tag != Fence
    {
      assert ChunkAt(c, q);
    }
  }

  ghost predicate SameOutside(c: map<int, Chunk>, d: map<int, Chunk>, b: int, e: int) {
    && (forall q {:trigger q in d} :: q < b || e <= q ==> (q in c <==> q in d))
    && (forall q {:trigger d[q]} :: (q < b || e <= q) && q in c && q in d ==> d[q] == c[q])
  }

  ghost predicate PieceAt(c: map<int, Chunk>, h: int, e: int, q: int)
    requires q in c
  { q + c[q].size <= e && c[q].home == h }

  ghost predicate Pieces(c: map<int, Chunk>, h: int, b: int, e: int) {
    forall q {:trigger c[q]} {:trigger q in c} :: q in c && b <= q < e ==> PieceAt(c, h, e, q)
  }

  // c and d agree outside [b, e), and both cut it without leaving it.
  ghost predicate Recut(c: map<int, Chunk>, d: map<int, Chunk>, b: int, e: int) {
    && b in c && b in d && 0 < b < e
    && SameOutside(c, d, b, e)
    && d[b].tag != Last && NoFenceBefore(c, b)
    && Pieces(c, c[b].home, b, e) && Pieces(d, c[b].home, b, e)
  }

  lemma RecutChunk(c: map<int, Chunk>, d: map<int, Chunk>, b: int, e: int, q: int)
    requires Tiled(c) && Recut(c, d, b, e)
    requires q in c && (q < b || e <= q)
    requires d[b].tag == Live || d[b].tag == Fast || NoBinnedBefore(c, b)
    ensures ChunkAt(d, q)
  {
    assert ChunkAt(c, q) && Apart(c, q, b) && ChunkAt(c, b);
    if !Ends(c[q].tag) {
      var n := q + c[q].size;
      assert n in c;
      assert n == b || n < b || e <= n;
    }
  }

  lemma RecutApart(c: map<int, Chunk>, d: map<int, Chunk>, b: int, e: int, q: int, r: int)
    requires Tiled(c) && Recut(c, d, b, e)
    requires q in d && r in d && (q < b || e <= q || r < b || e <= r)
    ensures Apart(d, q, r)
  {
    assert q in c && r in c ==> Apart(c, q, r);
    assert q in c ==> Apart(c, q, b);
  }

  lemma RecutTiled(c: map<int, Chunk>, d: map<int, Chunk>, b: int, e: int)
    requires Tiled(c) && Recut(c, d, b, e)
    requires d[b].tag == Live || d[b].tag == Fast || NoBinnedBefore(c, b)
    requires forall q {:trigger ChunkAt(d, q)} :: q in d && b <= q < e ==> ChunkAt(d, q)
    requires forall q, r {:trigger Apart(d, q, r)} :: q in d && r in d && b <= q < e && b <= r < e ==> Apart(d, q, r)
    ensures Tiled(d)
  {
    hide ChunkAt, Apart;
    forall q | q in d
      ensures ChunkAt(d, q)
    {
      if q < b || e <= q { RecutChunk(c, d, b, e, q); }
    }
    forall q, r | q in d && r in d
      ensures Apart(d, q, r)
    {
      if q < b || e <= q || r < b || e <= r { RecutApart(c, d, b, e, q, r); }
    }
  }

  // ---- the boundary tags after that

  ghost predicate HeadsKept(c: map<int, Chunk>, lo: map<int, int>, hi: map<int, Word>, lo': map<int, int>, hi': map<int, Word>, b: int, e: int) {
    forall q :: q in c && (q < b || e < q) ==>
      q in lo && q in hi && q in lo' && q in hi' && lo'[q] == lo[q] && hi'[q] == hi[q]
  }

  // What the words at b say of the chunk before b.
  ghost predicate SameBefore(lo: map<int, int>, hi: map<int, Word>, lo': map<int, int>, hi': map<int, Word>, b: int) {
    && b in hi && hi[b].Size? && b in hi' && hi'[b].Size? && hi'[b].p == hi[b].p
    && (!hi[b].p ==> b in lo && b in lo' && lo'[b] == lo[b])
  }

  lemma HeadOutside(c: map<int, Chunk>, d: map<int, Chunk>, lo: map<int, int>, hi: map<int, Word>, lo': map<int, int>, hi': map<int, Word>,
                    nm: bool, b: int, e: int, q: int)
    requires Tiled(c) && Recut(c, d, b, e)
    requires HeadsKept(c, lo, hi, lo', hi', b, e)
    requires q in c && (q < b || e < q) && HeadAt(c, lo, hi, nm, q)
    requires SameBefore(lo, hi, lo', hi', b)
    ensures HeadAt(d, lo', hi', nm, q)
  {
    assert Apart(c, q, b) && ChunkAt(c, q) && ChunkAt(c, b);
    if !hi[q].p {
      var r := q - lo[q];
      assert ChunkAt(c, r);
      assert r < b || e <= r;
    }
    if nm && c[q].tag == Last {
      var f := q - lo[q];
      assert ChunkAt(c, f);
      assert f < b || e <= f;
    }
    if !Ends(c[q].tag) {
      var n := q + c[q].size;
      assert n <= b || e < n;
      assert n in c;
    }
  }

  lemma RecutTagged(c: map<int, Chunk>, d: map<int, Chunk>, lo: map<int, int>, hi: map<int, Word>, lo': map<int, int>, hi': map<int, Word>,
              nm: bool, b: int, e: int)
    requires Tiled(c) && Tagged(c, lo, hi, nm) && Recut(c, d, b, e)
    requires HeadsKept(c, lo, hi, lo', hi', b, e)
    requires SameBefore(lo, hi, lo', hi', b)
    requires forall q :: q in d && b <= q <= e ==> HeadAt(d, lo', hi', nm, q)
    ensures Tagged(d, lo', hi', nm)
  {
    hide HeadAt, Tiled;
    forall q | q in d
      ensures HeadAt(d, lo', hi', nm, q)
    {
      if q < b || e < q {
        HeadOutside(c, d, lo, hi, lo', hi', nm, b, e, q);
      }
    }
  }

  // The chunk that follows the stretch: only its in-use bit for the chunk before it may change.
  lemma HeadEnd(c: map<int, Chunk>, d: map<int, Chunk>, lo: map<int, int>, hi: map<int, Word>, lo': map<int, int>, hi': map<int, Word>,
                nm: bool, b: int, e: int, r: int)
    requires Tiled(c) && Recut(c, d, b, e)
    requires HeadsKept(c, lo, hi, lo', hi', b, e)
    requires e in c && HeadAt(c, lo, hi, nm, e) && c[e].tag != Last
    requires e in lo' && e in hi' && hi'[e].Size? && hi'[e] == hi[e].(p := hi'[e].p)
    requires r in d && r + d[r].size == e && hi'[e].p == (d[r].tag != Binned)
    requires d[r].tag == Binned ==> lo'[e] == d[r].size
    ensures HeadAt(d, lo', hi', nm, e)
  {
    assert ChunkAt(c, e);
  }

  lemma BinnedHasLivePrev(c: map<int, Chunk>, lo: map<int, int>, hi: map<int, Word>, nm: bool, p: int)
    requires Tiled(c) && Tagged(c, lo, hi, nm) && p in c && (c[p].tag == Binned || c[p].tag == Top)
    ensures p in hi && hi[p].Size? && hi[p].p && NoBinnedBefore(c, p)
  {
    assert HeadAt(c, lo, hi, nm, p);
    if !hi[p].p {
      assert ChunkAt(c, p - lo[p]);
    }
    forall q | q in c && q + c[q].size == p
      ensures c[q].tag != Binned
    {
      assert ChunkAt(c, q);
    }
  }

  lemma PrevInUse(c: map<int, Chunk>, lo: map<int, int>, hi: map<int, Word>, nm: bool, p: int)
    requires Tiled(c) && Tagged(c, lo, hi, nm) && p in c && p in hi && hi[p].Size? && hi[p].p
    ensures NoBinnedBefore(c, p)
  {
    forall q | q in c && q + c[q].size == p
      ensures c[q].tag != Binned
    {
      assert HeadAt(c, lo, hi, nm, q);
    }
  }
}
