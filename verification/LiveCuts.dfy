/** Chunks in use that are cut, joined or extended. */
module LiveCuts {
  import opened Memory
  import opened Sizes
  import opened BinLists
  import opened Chunks
  import opened Frames
  import opened FastLists
  import opened Layout
  import opened State
  import opened Arenas
  import opened Release
  import opened Freeing
  import opened LiveView
  import opened Trimming
  import opened Taking
  import opened Splitting

  // A chunk in use is cut in two chunks in use.
  ghost predicate CutInTwo(x: St, y: St, nm: bool, v: int, k: int) {
    && v in x.c && x.c[v].tag == Live && 2 <= k && k + 2 <= x.c[v].size && v in x.hi && x.hi[v].Size?
    && y == x.(c := Split(x.c, v, k, Live, Live), hi := x.hi[v := Size(k, x.hi[v].p, nm)][v + k := Size(x.c[v].size - k, true, nm)])
  }

  // Two adjacent chunks in use become one.
  ghost predicate Joined(x: St, y: St, nm: bool, v: int) {
    && v in x.c && x.c[v].tag == Live && v in x.hi && x.hi[v].Size?
    && var n := v + x.c[v].size;
      && n in x.c && x.c[n].tag == Live
      && y == x.(c := (x.c - {n})[v := Chunk(x.c[v].size + x.c[n].size, Live, x.c[v].home)],
                 hi := x.hi[v := Size(x.c[v].size + x.c[n].size, x.hi[v].p, nm)])
  }

  // A chunk in use absorbs the free chunk after it, which is off its list.
  ghost predicate Absorbed(x: St, y: St, nm: bool, v: int) {
    && v in x.c && x.c[v].tag == Live && v in x.hi && x.hi[v].Size?
    && var n := v + x.c[v].size;
      && n in x.c && x.c[n].tag == Binned
      && var e := n + x.c[n].size;
        && y == x.(c := (x.c - {n})[v := Chunk(x.c[v].size + x.c[n].size, Live, x.c[v].home)],
                   s := x.s - {n}, lo := y.lo, hi := y.hi)
        && Linked(y.s, y.lo, y.hi)
        && WroteLo(x.s, {}, x.lo, y.lo) && WroteHi(x.s, {v, e}, x.hi, y.hi)
        && v in y.hi && y.hi[v] == Size(e - v, x.hi[v].p, nm)
        && e in x.hi && x.hi[e].Size? && e in y.hi && y.hi[e] == x.hi[e].(p := true)
  }

  // A chunk in use takes granules from the top after it.
  ghost predicate TookFromTop(x: St, y: St, nm: bool, v: int, k: int) {
    && v in x.c && x.c[v].tag == Live && v in x.hi && x.hi[v].Size? && x.rs != []
    && x.top == v + x.c[v].size && x.top in x.c && x.c[v].size < k && k + 2 <= x.c[v].size + x.c[x.top].size
    && var m := x.c[v].size + x.c[x.top].size;
      y == x.(c := (x.c - {x.top})[v := Chunk(k, Live, x.c[v].home)][v + k := Chunk(m - k, Top, x.c[v].home)], top := v + k,
              hi := x.hi[v := Size(k, x.hi[v].p, nm)][v + k := Size(m - k, true, false)])
  }

  // ---- facts about a chunk in use and the one after it

  lemma LiveIs(x: St, g: int, nm: bool, v: int)
    requires Good(x, g, nm) && v in x.c && x.c[v].tag == Live
    ensures v > 0 && x.c[v].size >= 2 && v in x.hi && x.hi[v].Size? && x.hi[v] == Size(x.c[v].size, x.hi[v].p, nm) && v in x.lo
    ensures 0 <= x.c[v].home < |x.rs| && NoFenceBefore(x.c, v) && v !in x.s
    ensures var n := v + x.c[v].size;
      && n in x.c && x.c[n].home == x.c[v].home && x.c[n].tag != Last && x.c[n].size >= 1
      && n + x.c[n].size <= x.rs[x.c[v].home].end
      && n in x.hi && x.hi[n].Size? && x.hi[n].p && n in x.lo
    ensures forall q :: q in x.c && v <= q < v + x.c[v].size ==> q == v
  {
    hide Linked, FastLinked, FastIndexed;
    var n := v + x.c[v].size;
    NextIs(x, g, nm, v);
    LiveHasRoom(x, g, nm, v);
    NoFence(x.c, v);
    OnlyBinnedListed(x, g, nm, v);
    assert ChunkAt(x.c, v) && HeadAt(x.c, x.lo, x.hi, nm, v) && PlacedAt(x.c, x.rs, v);
    assert ChunkAt(x.c, n) && HeadAt(x.c, x.lo, x.hi, nm, n) && PlacedAt(x.c, x.rs, n);
    forall q | q in x.c && v <= q < n
      ensures q == v
    {
      assert Apart(x.c, v, q);
    }
  }

  // ---- cutting

  lemma CutRecut(x: St, y: St, g: int, nm: bool, v: int, k: int, e: int)
    requires Good(x, g, nm) && CutInTwo(x, y, nm, v, k) && e == v + x.c[v].size
    ensures Recut(x.c, y.c, v, e) && Tiled(y.c) && Placed(y.c, y.rs, y.top)
    ensures forall q :: q in y.c && v <= q < e ==> q == v || q == v + k
  {
    hide Linked, FastLinked, FastIndexed, RegionsOk, Tagged, Indexed;
    LiveIs(x, g, nm, v);
    assert Recut(x.c, y.c, v, e);
    assert ChunkAt(y.c, v) && ChunkAt(y.c, v + k);
    RecutTiled(x.c, y.c, v, e);
    assert CornerAt(x.c, x.rs, x.top, |x.rs| - 1);
    PlacedRecut(x.c, y.c, x.rs, x.top, x.top, v, e);
  }

  // Heads in a stretch in use are not link words.
  lemma LinksStay(x: St, g: int, nm: bool, v: int, e: int, hi': map<int, Word>)
    requires Good(x, g, nm) && v in x.c && x.c[v].tag == Live && v < e
    requires forall q :: q in x.c && v < q < e ==> x.c[q].tag != Binned
    requires forall k :: k in x.hi && !(v <= k < e) ==> k in hi' && hi'[k] == x.hi[k]
    requires forall k :: k in x.hi ==> k in hi'
    requires forall q :: q in x.c && q >= v && q < e ==> q + x.c[q].size <= e
    ensures Linked(x.s, x.lo, hi')
  {
    hide Linked, FastLinked, FastIndexed, RegionsOk, Placed, Tagged;
    assert ChunkAt(x.c, v);
    forall q | q in x.s
      ensures q in x.c && (q + 1 < v || e <= q)
    {
      assert SlotFits(x.s, x.c, g, q) && ChunkAt(x.c, q) && Apart(x.c, q, v);
    }
    LinkedFrame(x.s, x.lo, x.hi, x.lo, hi');
  }

  lemma CutSettles(x: St, y: St, g: int, nm: bool, v: int, k: int, e: int)
    requires Good(x, g, nm) && CutInTwo(x, y, nm, v, k) && e == v + x.c[v].size
    ensures Settled(x, y, nm, v, e)
  {
    hide Linked, FastLinked, FastIndexed, RegionsOk, Tagged, Indexed, Tiled, Placed, Recut;
    LiveIs(x, g, nm, v);
    CutRecut(x, y, g, nm, v, k, e);
    CutHeads(x, y, g, nm, v, k, e);
    InsideMapped(x, v, v + k);
    LinksStay(x, g, nm, v, e, y.hi);
    SlotsOutside(x, g, nm, v, e, y.c);
  }

  lemma SlotsOutside(x: St, g: int, nm: bool, v: int, e: int, d: map<int, Chunk>)
    requires Good(x, g, nm)
    requires forall q :: q in x.c && v <= q < e ==> x.c[q].tag != Binned
    requires forall q :: q in d && v <= q < e ==> d[q].tag != Binned
    ensures SlotsRecut(x.s, x.s, d, v, e)
  {
    hide Linked, FastLinked, FastIndexed, RegionsOk, Tagged, Tiled, Placed;
    forall q | q in x.s
      ensures q in x.c && x.c[q].tag == Binned
    {
      assert SlotFits(x.s, x.c, g, q);
    }
  }

  lemma CutHeads(x: St, y: St, g: int, nm: bool, v: int, k: int, e: int)
    requires Good(x, g, nm) && CutInTwo(x, y, nm, v, k) && e == v + x.c[v].size && Recut(x.c, y.c, v, e)
    ensures HeadAt(y.c, y.lo, y.hi, nm, v) && HeadAt(y.c, y.lo, y.hi, nm, v + k) && HeadAt(y.c, y.lo, y.hi, nm, e)
  {
    hide Linked, FastLinked, FastIndexed, Placed, Indexed, RegionsOk;
    LiveIs(x, g, nm, v);
    assert HeadAt(x.c, x.lo, x.hi, nm, v) && HeadAt(x.c, x.lo, x.hi, nm, e);
    assert ChunkAt(x.c, v);
    InsideMapped(x, v, v + k);
    if !x.hi[v].p { assert ChunkAt(x.c, v - x.lo[v]); }
    KeptHeads(x, y, g, nm, v, e);
    HeadEnd(x.c, y.c, x.lo, x.hi, y.lo, y.hi, nm, v, e, v + k);
  }

  lemma KeptHeads(x: St, y: St, g: int, nm: bool, v: int, e: int)
    requires Good(x, g, nm) && y.lo == x.lo && forall k :: k in x.hi && !(v <= k <= e) ==> k in y.hi && y.hi[k] == x.hi[k]
    ensures HeadsKept(x.c, x.lo, x.hi, y.lo, y.hi, v, e)
  {
    hide Linked, FastLinked, FastIndexed, Indexed, Placed, RegionsOk, Tiled;
    forall q | q in x.c && (q < v || e < q)
      ensures q in x.lo && q in x.hi
    {
      assert HeadAt(x.c, x.lo, x.hi, nm, q);
    }
  }

  // What of the client's view changes when live chunks inside [v, e) are cut anew.
  lemma LiveRecutData(x: St, y: St, g: int, nm: bool, v: int, e: int)
    requires Good(x, g, nm) && Recut(x.c, y.c, v, e) && BodiesKept(x.c, x.lo, x.hi, y.lo, y.hi, v, e)
    ensures forall q {:trigger q in LiveOf(y.c)} {:trigger q in LiveOf(x.c)} :: !(v <= q < e) ==> (q in LiveOf(y.c) <==> q in LiveOf(x.c))
    ensures forall q {:trigger LiveOf(y.c)[q]} :: !(v <= q < e) && q in LiveOf(y.c) && q in LiveOf(x.c) ==> LiveOf(y.c)[q] == LiveOf(x.c)[q]
    ensures forall q {:trigger SameBody(x.lo, x.hi, y.lo, y.hi, q, x.c[q].size)} ::
      q in x.c && x.c[q].tag == Live && !(v <= q < e) ==> SameBody(x.lo, x.hi, y.lo, y.hi, q, x.c[q].size)
  {
  }

  lemma CutLive(x: St, y: St, g: int, nm: bool, v: int, k: int)
    requires Good(x, g, nm) && CutInTwo(x, y, nm, v, k)
    ensures Good(y, g, nm)
    ensures LiveOf(y.c) == LiveOf(x.c)[v := k][v + k := x.c[v].size - k]
    ensures DataKept(x.c, x.lo, x.hi, y.lo, y.hi, v)
  {
    hide Linked, FastLinked, FastIndexed, RegionsOk, Tagged, Indexed, Tiled, Placed, Settled, BodiesKept, SameBody;
    var e := v + x.c[v].size;
    LiveIs(x, g, nm, v);
    CutRecut(x, y, g, nm, v, k, e);
    CutSettles(x, y, g, nm, v, k, e);
    Settle(x, y, g, nm, v, e);
    assert BodiesKept(x.c, x.lo, x.hi, y.lo, y.hi, v, e);
    LiveRecutData(x, y, g, nm, v, e);
  }

  // ---- joining two chunks in use

  ghost predicate OneChunk(x: St, y: St, v: int, n: int, e: int) {
    && v in x.c && n in x.c && v < n < e && n == v + x.c[v].size && e == n + x.c[n].size && x.c[n].home == x.c[v].home
    && y.c == (x.c - {n})[v := Chunk(e - v, Live, x.c[v].home)]
  }

  lemma JoinRecut(x: St, y: St, g: int, nm: bool, v: int, n: int, e: int)
    requires Good(x, g, nm) && OneChunk(x, y, v, n, e) && x.c[v].tag == Live && (x.c[n].tag == Live || x.c[n].tag == Binned)
    ensures Recut(x.c, y.c, v, e) && Tiled(y.c) && Placed(y.c, x.rs, x.top)
    ensures forall q :: q in x.c && v <= q < e ==> q == v || q == n
    ensures forall q :: q in y.c && v <= q < e ==> q == v
    ensures e in x.c && x.c[e].tag != Last && x.c[e].home == x.c[v].home
  {
    hide Linked, FastLinked, FastIndexed, RegionsOk, Tagged, Indexed;
    LiveIs(x, g, nm, v);
    assert ChunkAt(x.c, n) && ChunkAt(x.c, n + x.c[n].size);
    forall q | q in x.c && v <= q < e
      ensures q == v || q == n
    {
      assert Apart(x.c, n, q);
    }
    assert Recut(x.c, y.c, v, e);
    assert ChunkAt(y.c, v) && Apart(y.c, v, v);
    RecutTiled(x.c, y.c, v, e);
    assert PlacedAt(x.c, x.rs, n);
    assert CornerAt(x.c, x.rs, x.top, |x.rs| - 1);
    PlacedRecut(x.c, y.c, x.rs, x.top, x.top, v, e);
  }

  lemma JoinHeads(x: St, y: St, g: int, nm: bool, v: int, n: int, e: int)
    requires Good(x, g, nm) && OneChunk(x, y, v, n, e) && x.c[v].tag == Live && Recut(x.c, y.c, v, e)
    requires HeadsKept(x.c, x.lo, x.hi, y.lo, y.hi, v, e) && e in x.c && x.c[e].tag != Last
    requires v in x.hi && x.hi[v].Size? && v in x.lo && v in y.lo && y.lo[v] == x.lo[v] && v in y.hi && y.hi[v] == Size(e - v, x.hi[v].p, nm)
    requires e in x.hi && x.hi[e].Size? && e in y.hi && y.hi[e] == x.hi[e].(p := true) && e in y.lo
    ensures HeadAt(y.c, y.lo, y.hi, nm, v) && HeadAt(y.c, y.lo, y.hi, nm, e)
  {
    hide Linked, FastLinked, FastIndexed, Placed, Indexed, RegionsOk;
    assert HeadAt(x.c, x.lo, x.hi, nm, v) && HeadAt(x.c, x.lo, x.hi, nm, e);
    assert ChunkAt(x.c, v);
    if !x.hi[v].p { assert ChunkAt(x.c, v - x.lo[v]); }
    HeadEnd(x.c, y.c, x.lo, x.hi, y.lo, y.hi, nm, v, e, v);
  }

  lemma JoinSettles(x: St, y: St, g: int, nm: bool, v: int, n: int, e: int)
    requires Good(x, g, nm) && Joined(x, y, nm, v) && n == v + x.c[v].size && e == n + x.c[n].size
    ensures Settled(x, y, nm, v, e)
  {
    hide Linked, FastLinked, FastIndexed, RegionsOk, Tagged, Indexed, Tiled, Placed, Recut;
    LiveIs(x, g, nm, v);
    LiveIs(x, g, nm, n);
    JoinRecut(x, y, g, nm, v, n, e);
    KeptHeads(x, y, g, nm, v, e);
    JoinHeads(x, y, g, nm, v, n, e);
    LinksStay(x, g, nm, v, e, y.hi);
    SlotsOutside(x, g, nm, v, e, y.c);
  }

  lemma JoinLive(x: St, y: St, g: int, nm: bool, v: int)
    requires Good(x, g, nm) && Joined(x, y, nm, v)
    ensures Good(y, g, nm)
    ensures var n := v + x.c[v].size; LiveOf(y.c) == (LiveOf(x.c) - {n})[v := x.c[v].size + x.c[n].size]
    ensures var n := v + x.c[v].size;
      forall q {:trigger SameBody(x.lo, x.hi, y.lo, y.hi, q, x.c[q].size)} ::
        q in x.c && x.c[q].tag == Live && q != v && q != n ==> SameBody(x.lo, x.hi, y.lo, y.hi, q, x.c[q].size)
  {
    hide Linked, FastLinked, FastIndexed, RegionsOk, Tagged, Indexed, Tiled, Placed, Settled, BodiesKept, SameBody;
    var n := v + x.c[v].size;
    var e := n + x.c[n].size;
    LiveIs(x, g, nm, v);
    JoinRecut(x, y, g, nm, v, n, e);
    JoinSettles(x, y, g, nm, v, n, e);
    Settle(x, y, g, nm, v, e);
    assert BodiesKept(x.c, x.lo, x.hi, y.lo, y.hi, v, e);
    LiveRecutData(x, y, g, nm, v, e);
  }

  // ---- absorbing a free chunk

  lemma AbsorbSettles(x: St, y: St, g: int, nm: bool, v: int, n: int, e: int)
    requires Good(x, g, nm) && Absorbed(x, y, nm, v) && n == v + x.c[v].size && e == n + x.c[n].size
    ensures Settled(x, y, nm, v, e)
  {
    hide Linked, FastLinked, FastIndexed, RegionsOk, Tagged, Tiled, Placed, Recut, WithinLo, WithinHi, WroteLo,
      WroteHi, Indexed;
    LiveIs(x, g, nm, v);
    JoinRecut(x, y, g, nm, v, n, e);
    AbsorbWrites(x, y, g, nm, v, n, e);
    JoinHeads(x, y, g, nm, v, n, e);
    AbsorbSlots(x, y, g, nm, v, n, e);
  }

  lemma AbsorbWrites(x: St, y: St, g: int, nm: bool, v: int, n: int, e: int)
    requires Good(x, g, nm) && Absorbed(x, y, nm, v) && n == v + x.c[v].size && e == n + x.c[n].size && e in x.c && v > 0 && v < e
    ensures Rewrote(x, y, v, e) && HeadsKept(x.c, x.lo, x.hi, y.lo, y.hi, v, e)
    ensures v in x.lo && v in y.lo && y.lo[v] == x.lo[v] && e in y.lo
    ensures v in x.hi && x.hi[v].Size? && SameBefore(x.lo, x.hi, y.lo, y.hi, v)
  {
    hide Linked, FastLinked, FastIndexed, RegionsOk, Placed, Indexed;
    RewroteBy(x, y, x.s, v, e) by { assert WroteLo(x.s, {e}, x.lo, y.lo); }
    SlotsIdle(x, g, v);
    HeadsKeptBy(x.c, x.s, x.lo, x.hi, y.lo, y.hi, nm, v, e);
    NoLinkAtStart(x.c, x.s, v, v);
    NoLinkAtStart(x.c, x.s, v, e);
    assert HeadAt(x.c, x.lo, x.hi, nm, v) && HeadAt(x.c, x.lo, x.hi, nm, e);
  }

  lemma AbsorbSlots(x: St, y: St, g: int, nm: bool, v: int, n: int, e: int)
    requires Good(x, g, nm) && Absorbed(x, y, nm, v) && n == v + x.c[v].size && e == n + x.c[n].size
    requires forall q :: q in x.c && v <= q < e ==> q == v || q == n
    requires forall q :: q in y.c && v <= q < e ==> q == v
    ensures SlotsRecut(x.s, y.s, y.c, v, e)
  {
    hide Linked, FastLinked, FastIndexed, RegionsOk, Tagged, Tiled, Placed, WroteLo, WroteHi;
    LiveIs(x, g, nm, v);
    assert ChunkAt(x.c, n) by { TiledAt(x.c, n); }
    forall q | q in x.s && v <= q < e
      ensures q == n
    {
      assert SlotFits(x.s, x.c, g, q);
    }
  }

  lemma AbsorbNext(x: St, y: St, g: int, nm: bool, v: int)
    requires Good(x, g, nm) && Absorbed(x, y, nm, v)
    ensures Good(y, g, nm)
    ensures LiveOf(y.c) == LiveOf(x.c)[v := x.c[v].size + x.c[v + x.c[v].size].size]
    ensures DataKept(x.c, x.lo, x.hi, y.lo, y.hi, v)
    ensures SameBody(x.lo, x.hi, y.lo, y.hi, v, x.c[v].size)
  {
    hide Linked, FastLinked, FastIndexed, RegionsOk, Tagged, Indexed, Tiled, Placed, Settled, BodiesKept, SameBody,
      WroteLo, WroteHi;
    var n := v + x.c[v].size;
    var e := n + x.c[n].size;
    LiveIs(x, g, nm, v);
    JoinRecut(x, y, g, nm, v, n, e);
    AbsorbSettles(x, y, g, nm, v, n, e);
    Settle(x, y, g, nm, v, e);
    LiveRecutData(x, y, g, nm, v, e);
    AbsorbBody(x, y, g, nm, v, n, e);
  }

  lemma AbsorbBody(x: St, y: St, g: int, nm: bool, v: int, n: int, e: int)
    requires Good(x, g, nm) && Absorbed(x, y, nm, v) && n == v + x.c[v].size && e == n + x.c[n].size
    ensures SameBody(x.lo, x.hi, y.lo, y.hi, v, x.c[v].size)
  {
    hide Linked, FastLinked, FastIndexed, RegionsOk, Tagged, Placed;
    BinnedIs(x, g, nm, n);
    SlotsIdle(x, g, n);
    OnlyBinnedListed(x, g, nm, v);
    forall j | v <= j < n
      ensures !Node(x.s, j)
    {
      NoLinkInBody(x.c, x.s, n, v, j + 1);
    }
  }

  // ---- taking from the top

  lemma TopRecut(x: St, y: St, g: int, nm: bool, v: int, k: int, e: int)
    requires Good(x, g, nm) && TookFromTop(x, y, nm, v, k) && e == x.top + x.c[x.top].size
    ensures Recut(x.c, y.c, v, e) && Tiled(y.c) && Placed(y.c, y.rs, y.top)
    ensures forall q :: q in x.c && v <= q < e ==> q == v || q == x.top
    ensures forall q :: q in y.c && v <= q < e ==> q == v || q == v + k
    ensures x.c[x.top].tag == Top
  {
    hide Linked, FastLinked, FastIndexed, RegionsOk, Tagged, Indexed;
    LiveIs(x, g, nm, v);
    TopIsTop(x, g, nm);
    forall q | q in x.c && v <= q < e
      ensures q == v || q == x.top
    {
      assert Apart(x.c, x.top, q);
    }
    assert Recut(x.c, y.c, v, e);
    assert ChunkAt(y.c, v) && ChunkAt(y.c, v + k);
    RecutTiled(x.c, y.c, v, e);
    PlacedRecut(x.c, y.c, x.rs, x.top, y.top, v, e);
  }

  lemma TopHeads(x: St, y: St, g: int, nm: bool, v: int, k: int, e: int)
    requires Good(x, g, nm) && TookFromTop(x, y, nm, v, k) && e == x.top + x.c[x.top].size && Recut(x.c, y.c, v, e) && x.c[x.top].tag == Top
    requires forall q :: q in x.c && v <= q < e ==> q == v || q == x.top
    ensures HeadAt(y.c, y.lo, y.hi, nm, v) && HeadAt(y.c, y.lo, y.hi, nm, v + k)
    ensures e in y.c ==> HeadAt(y.c, y.lo, y.hi, nm, e)
  {
    hide Linked, FastLinked, FastIndexed, Placed, Indexed, RegionsOk;
    LiveIs(x, g, nm, v);
    assert HeadAt(x.c, x.lo, x.hi, nm, v) && ChunkAt(x.c, v);
    InsideMapped(x, x.top, v + k);
    if !x.hi[v].p { assert ChunkAt(x.c, v - x.lo[v]); }
    if e in y.c {
      KeptHeads(x, y, g, nm, v, e);
      TopHeadAfter(x, y, g, nm, v, k, e);
    }
  }

  lemma TopHeadAfter(x: St, y: St, g: int, nm: bool, v: int, k: int, e: int)
    requires Good(x, g, nm) && TookFromTop(x, y, nm, v, k) && e == x.top + x.c[x.top].size && Recut(x.c, y.c, v, e) && x.c[x.top].tag == Top
    requires HeadsKept(x.c, x.lo, x.hi, y.lo, y.hi, v, e) && e in y.c
    requires forall q :: q in x.c && v <= q < e ==> q == v || q == x.top
    ensures HeadAt(y.c, y.lo, y.hi, nm, e)
  {
    hide Linked, FastLinked, FastIndexed, Placed, Indexed, RegionsOk;
    assert HeadAt(x.c, x.lo, x.hi, nm, e) && ChunkAt(x.c, x.top);
    HeadAfterTop(x, y, g, nm, v, e);
  }

  lemma TakeFromTop(x: St, y: St, g: int, nm: bool, v: int, k: int)
    requires Good(x, g, nm) && TookFromTop(x, y, nm, v, k)
    ensures Good(y, g, nm)
    ensures LiveOf(y.c) == LiveOf(x.c)[v := k]
    ensures DataKept(x.c, x.lo, x.hi, y.lo, y.hi, v)
    ensures SameBody(x.lo, x.hi, y.lo, y.hi, v, x.c[v].size)
  {
    hide Linked, FastLinked, FastIndexed, RegionsOk, Tagged, Indexed, Tiled, Placed, Settled, BodiesKept;
    var e := x.top + x.c[x.top].size;
    LiveIs(x, g, nm, v);
    TopRecut(x, y, g, nm, v, k, e);
    TopSettles(x, y, g, nm, v, k, e);
    Settle(x, y, g, nm, v, e);
    LiveRecutData(x, y, g, nm, v, e);
  }

  lemma TopSettles(x: St, y: St, g: int, nm: bool, v: int, k: int, e: int)
    requires Good(x, g, nm) && TookFromTop(x, y, nm, v, k) && e == x.top + x.c[x.top].size
    ensures Settled(x, y, nm, v, e)
  {
    hide Linked, FastLinked, FastIndexed, RegionsOk, Tagged, Indexed, Tiled, Placed, Recut;
    LiveIs(x, g, nm, v);
    TopRecut(x, y, g, nm, v, k, e);
    TopHeads(x, y, g, nm, v, k, e);
    InsideMapped(x, x.top, v + k);
    LinksStay(x, g, nm, v, e, y.hi);
    SlotsOutside(x, g, nm, v, e, y.c);
  }

  // Heads for the two parts of a chunk in use: the second one first.
  method CutChunk(a: Arena, v: int, k: int, size: int)
    requires a.Valid() && v in a.chunks && a.chunks[v].tag == Live && a.chunks[v].size == size && 2 <= k && k + 2 <= size
    modifies a`hi, a`chunks
    ensures a.Valid() && CutInTwo(old(a.Now()), a.Now(), a.nonMain, v, k)
    ensures LiveOf(a.chunks) == LiveOf(old(a.chunks))[v := k][v + k := size - k]
    ensures v + k in a.chunks && a.chunks[v + k].tag == Live && v in a.chunks && a.chunks[v].tag == Live
  {
    hide Good, MapOk, HeapsOk, PageEnds, SystemSize, FastbinIndex, NFastbins, Bytes, WithinLimit, UnitsOk, DataKept,
      LiveOf, KnownTo;
    ghost var y := a.Now();
    LiveIs(y, a.g, a.nonMain, v);
    ChunksInRegions(y, a.g, a.nonMain, v);
    a.hi := a.hi[v + k := Size(size - k, true, a.nonMain)];
    a.hi := a.hi[v := a.hi[v].(n := k, a := a.hi[v].a || a.nonMain)];
    a.chunks := Split(a.chunks, v, k, Live, Live);
    CutLive(y, a.Now(), a.g, a.nonMain, v, k);
  }
}
