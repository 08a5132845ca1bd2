/** What stays as it was when a stretch of the heap is cut anew. */
module Frames {
  import opened Memory
  import opened BinLists
  import opened Chunks

  // Outside the link words of the nodes of s, only the words at xs changed.
  ghost predicate WroteLo(s: map<int, Slot>, xs: set<int>, m: map<int, int>, m': map<int, int>) {
    && (forall k {:trigger k in m'} :: k in m' <==> k in m)
    && (forall k {:trigger m'[k]} :: k in m && k in m' && !Node(s, k - 1) && k !in xs ==> m'[k] == m[k])
  }

  ghost predicate WroteHi(s: map<int, Slot>, xs: set<int>, m: map<int, Word>, m': map<int, Word>) {
    && (forall k {:trigger k in m'} :: k in m' <==> k in m)
    && (forall k {:trigger m'[k]} :: k in m && k in m' && !Node(s, k - 1) && k !in xs ==> m'[k] == m[k])
  }

  // Outside the link words of the nodes of s, only words of the stretch [b, e) and the
  // foot and head at e changed. The word pair at b starts with the last word of the chunk before.
  ghost predicate WithinLo(s: map<int, Slot>, b: int, e: int, m: map<int, int>, m': map<int, int>) {
    && (forall k {:trigger k in m'} :: k in m' <==> k in m)
    && (forall k {:trigger m'[k]} :: k in m && k in m' && !Node(s, k - 1) && !(b < k <= e) ==> m'[k] == m[k])
  }

  ghost predicate WithinHi(s: map<int, Slot>, b: int, e: int, m: map<int, Word>, m': map<int, Word>) {
    && (forall k {:trigger k in m'} :: k in m' <==> k in m)
    && (forall k {:trigger m'[k]} :: k in m && k in m' && !Node(s, k - 1) && !(b <= k <= e) ==> m'[k] == m[k])
  }

  // The words a chunk of n granules at x gives to its user: up to and including
  // the prev_size word of the chunk after it.
  ghost predicate SameBody(lo: map<int, int>, hi: map<int, Word>, lo': map<int, int>, hi': map<int, Word>, x: int, n: int) {
    && (forall k {:trigger lo'[k]} {:trigger k in lo'} :: x < k <= x + n && k in lo ==> k in lo' && lo'[k] == lo[k])
    && (forall k {:trigger hi'[k]} {:trigger k in hi'} :: x < k < x + n && k in hi ==> k in hi' && hi'[k] == hi[k])
  }

  ghost predicate Used(t: Tag) { t == Live || t == Fast }

  ghost predicate BodiesKept(c: map<int, Chunk>, lo: map<int, int>, hi: map<int, Word>, lo': map<int, int>, hi': map<int, Word>, b: int, e: int) {
    forall x {:trigger SameBody(lo, hi, lo', hi', x, c[x].size)} ::
      x in c && Used(c[x].tag) && (x < b || e <= x) ==> SameBody(lo, hi, lo', hi', x, c[x].size)
  }

  // Link words lie inside chunks that are not in use (or in the bin headers).
  ghost predicate Idle(c: map<int, Chunk>, s: map<int, Slot>, b: int) {
    forall x {:trigger x in s} :: x in s ==> x in c && (c[x].tag == Binned || x == b)
  }

  lemma NoLinkAtStart(c: map<int, Chunk>, s: map<int, Slot>, b: int, q: int)
    requires Tiled(c) && Idle(c, s, b) && q in c
    requires b in c && (b in s ==> c[b].size >= 2)
    ensures !Node(s, q - 1)
  {
    assert ChunkAt(c, q);
    assert q - 1 in c ==> ChunkAt(c, q - 1) && Apart(c, q - 1, q);
  }

  lemma HeadsKeptBy(c: map<int, Chunk>, s: map<int, Slot>, lo: map<int, int>, hi: map<int, Word>, lo': map<int, int>, hi': map<int, Word>,
                    nm: bool, b: int, e: int)
    requires Tiled(c) && Tagged(c, lo, hi, nm) && Idle(c, s, b) && b in c && (b in s ==> c[b].size >= 2)
    requires WithinLo(s, b, e, lo, lo') && WithinHi(s, b, e, hi, hi')
    requires b < e
    ensures HeadsKept(c, lo, hi, lo', hi', b, e)
  {
    forall q | q in c && (q < b || e < q)
      ensures q in lo && q in hi && q in lo' && q in hi' && lo'[q] == lo[q] && hi'[q] == hi[q]
    {
      NoLinkAtStart(c, s, b, q);
      assert HeadAt(c, lo, hi, nm, q);
    }
  }

  lemma NoLinkInBody(c: map<int, Chunk>, s: map<int, Slot>, b: int, x: int, k: int)
    requires Tiled(c) && Idle(c, s, b) && x in c && Used(c[x].tag) && x != b && x < k <= x + c[x].size
    ensures !Node(s, k - 1)
  {
    assert ChunkAt(c, x);
    assert k - 1 in c ==> ChunkAt(c, k - 1) && Apart(c, x, k - 1) && Apart(c, k - 1, x);
  }

  lemma BodiesKeptBy(c: map<int, Chunk>, s: map<int, Slot>, lo: map<int, int>, hi: map<int, Word>, lo': map<int, int>, hi': map<int, Word>,
                     b: int, e: int)
    requires Tiled(c) && Idle(c, s, b) && b in c && b < e
    requires WithinLo(s, b, e, lo, lo') && WithinHi(s, b, e, hi, hi')
    ensures BodiesKept(c, lo, hi, lo', hi', b, e)
  {
    hide Tiled, Idle;
    forall x | x in c && Used(c[x].tag) && (x < b || e <= x)
      ensures SameBody(lo, hi, lo', hi', x, c[x].size)
    {
      BodyKeptBy(c, s, lo, hi, lo', hi', b, e, x);
    }
  }

  lemma BodyKeptBy(c: map<int, Chunk>, s: map<int, Slot>, lo: map<int, int>, hi: map<int, Word>, lo': map<int, int>, hi': map<int, Word>,
                   b: int, e: int, x: int)
    requires Tiled(c) && Idle(c, s, b) && b in c && b < e
    requires x in c && Used(c[x].tag) && (x < b || e <= x)
    requires WithinLo(s, b, e, lo, lo') && WithinHi(s, b, e, hi, hi')
    ensures SameBody(lo, hi, lo', hi', x, c[x].size)
  {
    assert Apart(c, x, b);
    forall k | x < k <= x + c[x].size && k in lo
      ensures k in lo' && lo'[k] == lo[k]
    {
      NoLinkInBody(c, s, b, x, k);
    }
    forall k | x < k < x + c[x].size && k in hi
      ensures k in hi' && hi'[k] == hi[k]
    {
      NoLinkInBody(c, s, b, x, k);
    }
  }

  lemma WroteLoTrans(s: map<int, Slot>, xs: set<int>, s1: map<int, Slot>, xs1: set<int>, s2: map<int, Slot>, xs2: set<int>,
                     m0: map<int, int>, m1: map<int, int>, m2: map<int, int>)
    requires WroteLo(s1, xs1, m0, m1) && WroteLo(s2, xs2, m1, m2)
    requires s1.Keys <= s.Keys && s2.Keys <= s.Keys && xs1 <= xs && xs2 <= xs
    ensures WroteLo(s, xs, m0, m2)
  {
    forall k | k in m0 && k in m2 && !Node(s, k - 1) && k !in xs
      ensures m2[k] == m0[k]
    {
      assert k in m1 && m1[k] == m0[k];
    }
  }

  lemma WroteHiTrans(s: map<int, Slot>, xs: set<int>, s1: map<int, Slot>, xs1: set<int>, s2: map<int, Slot>, xs2: set<int>,
                     m0: map<int, Word>, m1: map<int, Word>, m2: map<int, Word>)
    requires WroteHi(s1, xs1, m0, m1) && WroteHi(s2, xs2, m1, m2)
    requires s1.Keys <= s.Keys && s2.Keys <= s.Keys && xs1 <= xs && xs2 <= xs
    ensures WroteHi(s, xs, m0, m2)
  {
    forall k | k in m0 && k in m2 && !Node(s, k - 1) && k !in xs
      ensures m2[k] == m0[k]
    {
      assert k in m1 && m1[k] == m0[k];
    }
  }

  // Words that no link and no listed write touches keep Linked.
  lemma LinkedFrame(s: map<int, Slot>, lo: map<int, int>, hi: map<int, Word>, lo': map<int, int>, hi': map<int, Word>)
    requires Linked(s, lo, hi)
    requires forall x {:trigger Node(s, x)} :: Node(s, x) && x + 1 in lo && x + 1 in hi ==>
      x + 1 in lo' && lo'[x + 1] == lo[x + 1] && x + 1 in hi' && hi'[x + 1] == hi[x + 1]
    ensures Linked(s, lo', hi')
  {
    forall x | Node(s, x)
      ensures LinkAt(s, lo', hi', x)
    {
      assert LinkAt(s, lo, hi, x);
      assert LinkAt(s, lo, hi, lo[x + 1]) && LinkAt(s, lo, hi, hi[x + 1].to);
    }
    forall x, q | Node(s, x) && q in s
      ensures GapAt(s, lo', x, q)
    {
      assert LinkAt(s, lo, hi, x) && GapAt(s, lo, x, q);
    }
  }
}
