/** A whole heap as one value, the invariant of such a value, and how a local rewrite keeps it. */
module State {
  import opened Memory
  import opened Sizes
  import opened BinLists
  import opened Chunks
  import opened Frames
  import opened FastLists
  import opened Layout

  // Everything a heap is made of, as one value.
  datatype St = St(lo: map<int, int>, hi: map<int, Word>, top: int, heads: seq<int>, rs: seq<Region>,
                   c: map<int, Chunk>, s: map<int, Slot>, f: map<int, FastSlot>)

  ghost predicate Base(x: St, g: int, nm: bool) {
    && IsGrain(g)
    && Tiled(x.c) && Tagged(x.c, x.lo, x.hi, nm)
    && Linked(x.s, x.lo, x.hi) && Indexed(x.s, x.c, g)
    && FastLinked(x.f, x.lo, x.heads) && FastIndexed(x.f, x.c, g)
    && RegionsOk(x.rs, x.lo, x.hi)
  }

  ghost predicate Good(x: St, g: int, nm: bool) {
    Base(x, g, nm) && Placed(x.c, x.rs, x.top)
  }

  ghost function WithNode(s: map<int, Slot>, b: int): map<int, Slot> { s[b := Slot(1, 0.5)] }

  // From x to y the stretch [b, e) is cut anew.
  ghost predicate Rewrote(x: St, y: St, b: int, e: int) {
    && WithinLo(x.s, b, e, x.lo, y.lo) && WithinHi(x.s, b, e, x.hi, y.hi)
    && y.heads == x.heads && y.rs == x.rs
  }

  lemma RewroteBy(x: St, y: St, s: map<int, Slot>, b: int, e: int)
    requires s == x.s || (s == WithNode(x.s, b) && b + 1 <= e)
    requires WroteLo(s, {e}, x.lo, y.lo) && WroteHi(s, {b, e}, x.hi, y.hi) && b < e
    requires y.heads == x.heads && y.rs == x.rs && b > 0
    ensures Rewrote(x, y, b, e)
  {
  }

  lemma WithNodeIdle(s: map<int, Slot>, c: map<int, Chunk>, g: int, b: int)
    requires Indexed(s, c, g) && b in c
    ensures Idle(c, WithNode(s, b), b)
  {
    forall q | q in s
      ensures q in c && c[q].tag == Binned
    {
      assert SlotFits(s, c, g, q);
    }
  }

  lemma SlotsIdle(x: St, g: int, b: int)
    requires Tiled(x.c) && Indexed(x.s, x.c, g) && b in x.c
    ensures Idle(x.c, x.s, b) && (b in x.s ==> x.c[b].size >= 2)
  {
    WithNodeIdle(x.s, x.c, g, b);
    forall q | q in x.s
      ensures q in x.c && x.c[q].tag == Binned
    {
      assert SlotFits(x.s, x.c, g, q);
    }
    if b in x.s { assert ChunkAt(x.c, b); }
  }

  lemma TiledAt(c: map<int, Chunk>, p: int)
    requires Tiled(c) && p in c
    ensures ChunkAt(c, p)
  {
  }

  lemma RegionsKept(rs: seq<Region>, s: map<int, Slot>, b: int, e: int,
                    lo: map<int, int>, hi: map<int, Word>, lo': map<int, int>, hi': map<int, Word>)
    requires RegionsOk(rs, lo, hi) && WithinLo(s, b, e, lo, lo') && WithinHi(s, b, e, hi, hi')
    ensures RegionsOk(rs, lo', hi')
  {
  }

  ghost predicate Settled(x: St, y: St, nm: bool, b: int, e: int) {
    && Recut(x.c, y.c, b, e) && Rewrote(x, y, b, e)
    && SlotsRecut(x.s, y.s, y.c, b, e) && Linked(y.s, y.lo, y.hi)
    && y.f == x.f
    && (forall q {:trigger x.c[q]} :: q in x.c && b <= q < e ==> x.c[q].tag != Fast)
    && (forall q {:trigger y.c[q]} :: q in y.c && b <= q < e ==> y.c[q].tag != Fast)
    && SameBefore(x.lo, x.hi, y.lo, y.hi, b)
    && (forall q {:trigger HeadAt(y.c, y.lo, y.hi, nm, q)} :: q in y.c && b <= q <= e ==> HeadAt(y.c, y.lo, y.hi, nm, q))
    && Tiled(y.c) && Placed(y.c, y.rs, y.top)
  }

  lemma Settle(x: St, y: St, g: int, nm: bool, b: int, e: int)
    requires Base(x, g, nm) && Settled(x, y, nm, b, e)
    ensures Good(y, g, nm)
    ensures BodiesKept(x.c, x.lo, x.hi, y.lo, y.hi, b, e)
  {
    hide Tiled, Tagged, Linked, Indexed, FastLinked, FastIndexed, RegionsOk, Placed, HeadAt, SlotsRecut, Idle,
      WithinLo, WithinHi, BodiesKept, HeadsKept;
    SlotsIdle(x, g, b);
    HeadsKeptBy(x.c, x.s, x.lo, x.hi, y.lo, y.hi, nm, b, e);
    BodiesKeptBy(x.c, x.s, x.lo, x.hi, y.lo, y.hi, b, e);
    RecutTagged(x.c, y.c, x.lo, x.hi, y.lo, y.hi, nm, b, e);
    IndexedRecut(x.s, y.s, x.c, y.c, g, b, e);
    RegionsKept(x.rs, x.s, b, e, x.lo, x.hi, y.lo, y.hi);
    SettleFast(x, y, g, nm, b, e);
  }

  lemma SettleFast(x: St, y: St, g: int, nm: bool, b: int, e: int)
    requires Base(x, g, nm) && Recut(x.c, y.c, b, e) && y.f == x.f && y.heads == x.heads
    requires (forall q {:trigger x.c[q]} :: q in x.c && b <= q < e ==> x.c[q].tag != Fast)
    requires (forall q {:trigger y.c[q]} :: q in y.c && b <= q < e ==> y.c[q].tag != Fast)
    requires BodiesKept(x.c, x.lo, x.hi, y.lo, y.hi, b, e)
    ensures FastLinked(y.f, y.lo, y.heads) && FastIndexed(y.f, y.c, g)
  {
    hide Linked, Indexed, RegionsOk, Placed, Tagged;
    forall p | p in x.f
      ensures p + 1 in x.lo && p + 1 in y.lo && y.lo[p + 1] == x.lo[p + 1] && (p < b || e <= p)
    {
      assert FastFits(x.f, x.c, g, p) && FastAt(x.f, x.lo, p) && ChunkAt(x.c, p);
      assert SameBody(x.lo, x.hi, y.lo, y.hi, p, x.c[p].size);
    }
    FastFrame(x.f, x.lo, y.lo, x.heads);
    FastIndexedRecut(x.f, y.f, x.c, y.c, g, b, e);
  }

  // Heads are not link words.
  lemma HeadsAfterLinks(x: St, g: int, nm: bool, lo: map<int, int>, hi: map<int, Word>, q: int)
    requires Base(x, g, nm) && q in x.c
    requires WroteLo(x.s, {}, x.lo, lo) && WroteHi(x.s, {}, x.hi, hi)
    ensures q in x.lo && q in x.hi && q in lo && q in hi && lo[q] == x.lo[q] && hi[q] == x.hi[q]
  {
    hide Linked, FastLinked, FastIndexed, RegionsOk, Placed;
    assert HeadAt(x.c, x.lo, x.hi, nm, q) && ChunkAt(x.c, q);
    if c :| c in x.c && x.c[c].tag == Binned {
      assert ChunkAt(x.c, c);
      WithNodeIdle(x.s, x.c, g, c);
      NoLinkAtStart(x.c, WithNode(x.s, c), c, q);
    } else {
      assert forall p :: p in x.s ==> SlotFits(x.s, x.c, g, p);
    }
  }

  // Writing a head or a foot of chunk q leaves the lists alone.
  lemma LinksAfterHead(x: St, g: int, s: map<int, Slot>, b: int, q: int,
                       lo: map<int, int>, hi: map<int, Word>, lo': map<int, int>, hi': map<int, Word>)
    requires Tiled(x.c) && Indexed(x.s, x.c, g) && b in x.c && x.c[b].size >= 2 && q in x.c
    requires s.Keys <= x.s.Keys + {b} && Linked(s, lo, hi)
    requires forall k :: k in lo && k != q ==> k in lo' && lo'[k] == lo[k]
    requires forall k :: k in hi && k != q ==> k in hi' && hi'[k] == hi[k]
    ensures Linked(s, lo', hi')
  {
    hide Indexed, Linked;
    WithNodeIdle(x.s, x.c, g, b);
    NoLinkAtStart(x.c, WithNode(x.s, b), b, q);
    LinkedFrame(s, lo, hi, lo', hi');
  }
}
