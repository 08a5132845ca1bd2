/** The tests of mem2chunk_check on a chunk of heap memory, before it walks to the magic byte. */
module HookTests {
  import opened Memory
  import opened Sizes
  import opened Chunks
  import opened FastLists
  import opened Layout
  import opened State
  import opened Arenas
  import opened Release
  import opened IntFree
  import opened LiveCuts
  import opened MappedChunks
  import opened Pages
  import opened Aligning

  // A live chunk passes all tests. The hooks take all chunks from main_arena, and once that has a chunk
  // it is no longer contiguous, so the tests on addresses do not apply.
  method PassesTests(a: Arena, p: int) returns (ok: bool)
    requires a.Valid() && p in a.chunks && a.chunks[p].tag == Live
    ensures ok
  {
    hide Good, MapOk, HeapsOk, PageEnds, SystemSize, FastbinIndex, NFastbins, Bytes, WithinLimit, UnitsOk, TopKnown, KnownTo, LowEdge;
    ghost var x := a.Now();
    LiveIs(x, a.g, a.nonMain, p);
    LowEdgeIs(x, a.g, a.nonMain, p);
    ChunksInRegions(x, a.g, a.nonMain, p);
    var contig := a.contiguous;
    var sz := a.hi[p].n;
    if contig || sz < 2 || !a.hi[p + sz].p { return false; }
    if !a.hi[p].p {
      var prev := p - a.lo[p];
      ReadsSize(x, a.g, a.nonMain, prev);
      if !a.hi[prev].Size? || prev + a.hi[prev].n != p { return false; }
    }
    ok := true;
  }

  lemma ReadsSize(x: St, g: int, nm: bool, q: int)
    requires Good(x, g, nm) && q in x.c && x.c[q].tag == Binned
    ensures q in x.hi && x.hi[q].Size? && x.hi[q].n == x.c[q].size
  {
    assert HeadAt(x.c, x.lo, x.hi, nm, q);
  }

  // The offsets in a page that are accepted.
  predicate OffsetOk(word: int, offset: int) {
    || offset in {0, 2 * word, 0x10, 0x20, 0x40, 0x80, 0x100, 0x200, 0x400, 0x800, 0x1000}
    || offset >= 0x2000
  }

  // The other tests on a mapped chunk, for the two words of its header.
  predicate HeaderOk(page: int, p: int, prevSize: int, head: int)
    requires page > 0
  { IsMapped(head) && head % 2 == 0 && (p - prevSize) % page == 0 && (prevSize + ChunkSize(head)) % page == 0 }

  // A chunk that is mapped on its own passes them too, the one on the offset if its start has not been moved.
  lemma MappedPasses(m: Mapper, i: int)
    requires m.Valid() && 0 <= i < |m.areas|
    ensures var p := m.areas[i].chunk; m.page > 0 && p in m.mem && p + m.word in m.mem && HeaderOk(m.page, p, m.mem[p], m.mem[p + m.word])
    ensures var a := m.areas[i]; m.page > 0 && (a.chunk == a.base ==> OffsetOk(m.word, (a.chunk + 2 * m.word) % m.page))
  {
    hide AreasOk, Sum, HeaderOk;
    AreaIs(m.mem, m.word, m.page, m.space, m.areas, i);
    var a := m.areas[i];
    HeaderIs(m.page, a.base, a.total, a.chunk);
    OffsetIs(a.base, 2 * m.word, m.page);
  }

  lemma HeaderIs(page: int, base: int, total: int, p: int)
    requires page > 0 && base % page == 0 && total % page == 0 && (base + total - p) % 8 == 0
    ensures HeaderOk(page, p, p - base, base + total - p + 2)
  {
    HeadIs(base + total - p);
  }

  lemma OffsetIs(b: int, k: int, page: int)
    requires page > 0 && b % page == 0 && 0 <= k < page
    ensures (b + k) % page == k
  {
    DivMod(b + k, page);
    DivMod(b, page);
    var d := (b + k) / page - b / page;
    assert d * page == k - (b + k) % page;
    MulAtLeast(d, page);
  }

  // ---- a mapped chunk whose start memalign has moved

  // Between a power of two and its double there is no other.
  lemma Pow2Gap(x: int, b: int)
    requires IsPow2(x) && IsPow2(b) && b <= x
    ensures x == b || x >= 2 * b
  {
    hide IsPow2;
    Pow2Divides(x, b);
    DivMod(x, b);
    MulAtLeast(x / b - 2, b);
    MulAtLeast(-(x / b), b);
  }

  lemma {:induction false} Pow2Accepted(word: int, x: int, b: int)
    requires IsPow2(x) && IsPow2(b) && 16 <= b <= x && OffsetOk(word, b) && b in {0x10, 0x20, 0x40, 0x80, 0x100, 0x200, 0x400, 0x800, 0x1000}
    ensures OffsetOk(word, x)
    decreases 0x2000 - b
  {
    Pow2Gap(x, b);
    if x != b && 2 * b < 0x2000 {
      assert IsPow2(2 * b);
      Pow2Accepted(word, x, 2 * b);
    }
  }

  // The aligned spot is the first or, for the smallest alignment, the second one after the start.
  lemma SpotNear(base: int, word: int, alignment: int)
    requires (word == 4 || word == 8) && IsPow2(alignment) && alignment >= 4 * word && base % alignment == 0
    requires (base + 2 * word) % alignment != 0
    ensures var d := Spot(base, 2 * word, alignment) + 2 * word - base; d == alignment || d == 2 * alignment
  {
    var d := Spot(base, 2 * word, alignment) + 2 * word - base;
    SpotIs(base, 2 * word, alignment);
    assert base + d == Spot(base, 2 * word, alignment) + 2 * word;
    hide Spot;
    SumMod(base + d, base, alignment);
    GrainPow2(2 * word);
    Pow2Gap(alignment, 4 * word);
    hide IsPow2;
    OneOrTwo(d, alignment, word);
  }

  lemma OneOrTwo(d: int, alignment: int, word: int)
    requires word > 0 && 6 * word <= d < alignment + 6 * word && (alignment == 4 * word || alignment >= 8 * word) && d % alignment == 0
    ensures d == alignment || d == 2 * alignment
  {
    DivMod(d, alignment);
    var k := d / alignment;
    MulAtLeast(k - 2, alignment);
    MulAtLeast(k, alignment);
    assert k >= 1;
    assert k <= 2;
  }

  // When memalign moves the start of a fresh mapping, the test on the offset passes as well.
  lemma MovedPasses(base: int, word: int, page: int, alignment: int)
    requires (word == 4 || word == 8) && IsPow2(page) && base % page == 0
    requires IsPow2(alignment) && alignment >= 4 * word && (base + 2 * word) % alignment != 0
    ensures page > 0 && OffsetOk(word, (Spot(base, 2 * word, alignment) + 2 * word) % page)
  {
    Pow2Positive(page);
    SpotIs(base, 2 * word, alignment);
    var at := Spot(base, 2 * word, alignment) + 2 * word;
    if alignment >= page {
      Pow2Divides(alignment, page);
      MultipleTrans(at, alignment, page);
    } else {
      Pow2Divides(page, alignment);
      MultipleTrans(base, page, alignment);
      SpotNear(base, word, alignment);
      Pow2Gap(page, alignment);
      MovedOffset(base, word, page, alignment, at - base);
    }
  }

  lemma Pow2Double(x: int)
    requires IsPow2(x)
    ensures IsPow2(2 * x)
  {
    assert 2 * x / 2 == x;
  }

  lemma MovedOffset(base: int, word: int, page: int, alignment: int, d: int)
    requires IsPow2(page) && IsPow2(alignment) && 16 <= alignment && 2 * alignment <= page && base % page == 0
    requires d == alignment || d == 2 * alignment
    ensures OffsetOk(word, (base + d) % page)
  {
    assert IsPow2(16);
    hide IsPow2;
    Pow2Double(alignment);
    if d == page {
      ModFull(page);
      SumMod(base, page, page);
    } else {
      OffsetIs(base, d, page);
      Pow2Accepted(word, d, 16);
    }
  }
}
