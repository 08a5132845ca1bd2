/** Chunks that are mapped on their own: how sYSMALLOc makes them, memalign moves their start, and free unmaps them. */
module MappedChunks {
  import opened Pages

  // A mapping, and the chunk in it.
  datatype Area = Area(chunk: int, base: int, total: int)

  function Sum(areas: seq<Area>): int { if |areas| == 0 then 0 else Sum(areas[..|areas| - 1]) + areas[|areas| - 1].total }

  // (nb + SIZE_SZ + MALLOC_ALIGN_MASK + pagemask) & ~pagemask in a size_t
  function MappedSize(word: int, page: int, space: int, nb: int): int
    requires page > 0 && space > 0
  {
    var sum := (nb + word + (2 * word - 1) + (page - 1)) % space;
    sum - sum % page
  }

  // The sum has wrapped around exactly when the test says so; if it has not, the mapping is made of whole pages and
  // has room for nb bytes and one more size word.
  lemma MappedSizeIs(word: int, page: int, space: int, nb: int)
    requires word > 0 && page > 0 && 0 <= nb < space && 3 * word + page <= space
    ensures MappedSize(word, page, space, nb) % page == 0
    ensures MappedSize(word, page, space, nb) > nb <==> nb + 3 * word + page - 2 < space
    ensures MappedSize(word, page, space, nb) > nb ==> nb + word <= MappedSize(word, page, space, nb) < nb + 3 * word + page
  {
    var sum := nb + 3 * word + page - 2;
    if sum < space {
      assert sum % space == sum by { ModSmall(sum, space); }
      Floor(sum, page);
    } else {
      assert sum % space == sum - space by { OnceMod(sum, space); }
      Floor(sum - space, page);
    }
  }

  lemma OnceMod(a: int, b: int)
    requires 0 < b <= a < 2 * b
    ensures a % b == a - b
  {
    assert a == b * 1 + (a - b);
    ModOf(1, b, a - b);
  }

  lemma ModOf(q: int, b: int, r: int)
    requires 0 <= r < b
    ensures (b * q + r) % b == r
  {
    var a := b * q + r;
    assert a == b * (a / b) + a % b;
    if a / b > q { assert b * (a / b) >= b * (q + 1) by { MulLe(b, q + 1, a / b); } }
    if a / b < q { assert b * q >= b * (a / b + 1) by { MulLe(b, a / b + 1, q); } }
    assert a / b == q;
  }

  lemma MulLe(b: int, x: int, y: int)
    requires b > 0 && x <= y
    ensures b * x <= b * y
  {
  }

  lemma Floor(a: int, b: int)
    requires 0 <= a && b > 0
    ensures (a - a % b) % b == 0 && 0 <= a % b < b
  {
    assert a - a % b == b * (a / b) + 0;
    ModOf(a / b, b, 0);
  }

  // ---- the size word of a mapped chunk: IS_MMAPPED is bit 1

  function ChunkSize(w: int): int { w - w % 8 }
  predicate IsMapped(w: int) { (w / 2) % 2 == 1 }

  lemma HeadIs(size: int)
    requires size % 8 == 0
    ensures ChunkSize(size + 2) == size && IsMapped(size + 2)
  {
    var k := size / 8;
    assert size == 8 * k;
    ModOf(k, 8, 2);
    assert (8 * k + 2) / 2 == 2 * (2 * k) + 1;
    ModOf(2 * k, 2, 1);
  }

  ghost predicate AreaAt(mem: map<int, int>, word: int, page: int, space: int, a: Area) {
    && page > 0 && word > 0 && a.base > 0 && a.base % page == 0 && a.total % page == 0 && a.base + a.total <= space
    && a.base <= a.chunk && a.chunk + 2 * word < a.base + a.total && a.chunk % (2 * word) == 0
    && (a.base + a.total - a.chunk) % 8 == 0
    && (forall k {:trigger k in mem} :: Inside(a, k) ==> k in mem)
    && a.chunk in mem && mem[a.chunk] == a.chunk - a.base
    && a.chunk + word in mem && mem[a.chunk + word] == a.base + a.total - a.chunk + 2
  }

  ghost predicate Separate(a: Area, b: Area) { a.base + a.total <= b.base || b.base + b.total <= a.base }

  ghost predicate Inside(a: Area, k: int) { a.base <= k < a.base + a.total }

  ghost predicate InSome(areas: seq<Area>, k: int) { exists i :: 0 <= i < |areas| && Inside(areas[i], k) }

  // Memory is what the mappings give; each holds its chunk.
  ghost predicate AreasOk(mem: map<int, int>, word: int, page: int, space: int, areas: seq<Area>) {
    && (forall i {:trigger areas[i]} :: 0 <= i < |areas| ==> AreaAt(mem, word, page, space, areas[i]))
    && (forall i, j {:trigger areas[i], areas[j]} :: 0 <= i < j < |areas| ==> Separate(areas[i], areas[j]))
    && forall k {:trigger k in mem} :: k in mem ==> InSome(areas, k)
  }

  // [base, base + total) meets no mapping.
  ghost predicate Unmapped(mem: map<int, int>, base: int, total: int) {
    forall k {:trigger k in mem} :: base <= k < base + total ==> k !in mem
  }

  // mem' is mem outside a.
  ghost predicate SameOutside(mem: map<int, int>, mem': map<int, int>, a: Area) {
    forall k {:trigger k in mem'} {:trigger k in mem} :: !Inside(a, k) ==> (k in mem' <==> k in mem) && (k in mem ==> mem'[k] == mem[k])
  }

  lemma AreaFramed(mem: map<int, int>, mem': map<int, int>, word: int, page: int, space: int, a: Area, b: Area)
    requires SameOutside(mem, mem', a) && AreaAt(mem, word, page, space, b) && Separate(a, b)
    ensures AreaAt(mem', word, page, space, b)
  {
    assert Inside(b, b.chunk) && Inside(b, b.chunk + word);
  }

  lemma AddArea(mem: map<int, int>, mem': map<int, int>, word: int, page: int, space: int, areas: seq<Area>, a: Area)
    requires AreasOk(mem, word, page, space, areas) && AreaAt(mem', word, page, space, a)
    requires Unmapped(mem, a.base, a.total) && SameOutside(mem, mem', a) && a.total > 0
    ensures AreasOk(mem', word, page, space, areas + [a])
  {
    hide AreaAt;
    forall i | 0 <= i < |areas|
      ensures Separate(areas[i], a) && AreaAt(mem', word, page, space, areas[i])
    {
      ApartFromNew(mem, word, page, space, areas[i], a);
      AreaFramed(mem, mem', word, page, space, a, areas[i]);
    }
    forall k {:trigger k in mem'} | k in mem'
      ensures InSome(areas + [a], k)
    {
      if Inside(a, k) {
        assert Inside((areas + [a])[|areas|], k);
      } else {
        assert k in mem && InSome(areas, k);
        var i :| 0 <= i < |areas| && Inside(areas[i], k);
        assert Inside((areas + [a])[i], k);
      }
    }
  }

  lemma ApartFromNew(mem: map<int, int>, word: int, page: int, space: int, b: Area, a: Area)
    requires AreaAt(mem, word, page, space, b) && Unmapped(mem, a.base, a.total) && a.total > 0
    ensures Separate(a, b) && Separate(b, a)
  {
    assert b.base in mem <== Inside(b, b.base);
    assert a.base in mem <== Inside(b, a.base);
  }

  function Without(areas: seq<Area>, i: int): seq<Area>
    requires 0 <= i < |areas|
  { areas[..i] + areas[i + 1..] }

  lemma {:induction false} SumWithout(areas: seq<Area>, i: int)
    requires 0 <= i < |areas|
    ensures Sum(Without(areas, i)) == Sum(areas) - areas[i].total
  {
    var n := |areas| - 1;
    if i == n {
      assert Without(areas, i) == areas[..n];
    } else {
      SumWithout(areas[..n], i);
      assert Without(areas, i)[..n - 1] == Without(areas[..n], i);
      assert Without(areas, i)[n - 1] == areas[n];
    }
  }

  lemma {:induction false} SumUpdated(areas: seq<Area>, i: int, a: Area)
    requires 0 <= i < |areas| && a.total == areas[i].total
    ensures Sum(areas[i := a]) == Sum(areas)
  {
    var n := |areas| - 1;
    if i < n {
      SumUpdated(areas[..n], i, a);
      assert areas[i := a][..n] == areas[..n][i := a];
    } else {
      assert areas[i := a][..n] == areas[..n];
    }
  }

  lemma SumMore(areas: seq<Area>, a: Area)
    ensures Sum(areas + [a]) == Sum(areas) + a.total
  {
    assert (areas + [a])[..|areas|] == areas;
  }

  predicate Multiple(x: int, b: int) { b > 0 && x % b == 0 }

  class Mapper {
    const word: int      // SIZE_SZ
    const page: int      // bytes in a page
    const space: int     // bytes in the address space
    var mem: map<int, int>
    var nMmaps: int
    var nMmapsMax: int
    var mmapThreshold: int
    var mmappedMem: int
    ghost var areas: seq<Area>

    ghost predicate Valid()
      reads this
    {
      && (word == 4 || word == 8) && page > 0 && page % (2 * word) == 0 && page % 8 == 0 && 4 * word < page && 3 * word + page <= space
      && nMmaps == |areas| && mmappedMem == Sum(areas)
      && AreasOk(mem, word, page, space, areas)
    }

    // The mmap branch of sYSMALLOc; mm is what the system answers, 0 for MAP_FAILED.
    method Map(nb: int, mm: int) returns (p: int)
      requires Valid() && 4 * word <= nb < space
      requires mm != 0 ==> mm > 0 && mm % page == 0 && mm + MappedSize(word, page, space, nb) <= space
      requires mm != 0 ==> Unmapped(mem, mm, MappedSize(word, page, space, nb))
      modifies this`mem, this`nMmaps, this`mmappedMem, this`areas
      ensures Valid()
      ensures p == 0 ==> mem == old(mem) && areas == old(areas)
      ensures p == 0 <==> nb < mmapThreshold || old(nMmaps) >= nMmapsMax || nb + 3 * word + page - 2 >= space || mm == 0
      ensures p != 0 ==> p == mm && areas == old(areas) + [Area(p, p, MappedSize(word, page, space, nb))]
      ensures p != 0 ==> SameOutside(old(mem), mem, areas[|areas| - 1]) && Fresh(mem, areas[|areas| - 1], p + word)
    {
      hide MappedSize, AreasOk, Sum;
      p := 0;
      if nb >= mmapThreshold && nMmaps < nMmapsMax {
        MappedSizeIs(word, page, space, nb);
        var size := MappedSize(word, page, space, nb);
        if size > nb {
          if mm != 0 {
            p := mm;
            mem := mem + Zeros(mm, size);
            mem := mem[p + word := size + 2];
            nMmaps := nMmaps + 1;
            SumMore(areas, Area(p, mm, size));
            mmappedMem := mmappedMem + size;
            NewArea(old(mem), mem, word, page, space, areas, mm, size);
            areas := areas + [Area(p, mm, size)];
          }
        }
      }
    }

    // memalign on a mapped chunk: just adjust the offset
    method AlignWithin(p: int, alignment: int, nb: int, ghost i: int) returns (newp: int)
      requires Valid() && 0 <= i < |areas| && areas[i].chunk == p && nb >= 4 * word
      requires alignment >= 4 * word && Multiple(alignment, 2 * word) && Multiple(alignment, 8)
      requires p + nb + alignment + 4 * word + word <= areas[i].base + areas[i].total
      modifies this`mem, this`areas
      ensures Valid() && Multiple(newp + 2 * word, alignment)
      ensures areas == old(areas)[i := old(areas)[i].(chunk := newp)]
      ensures newp + nb + word <= areas[i].base + areas[i].total
      ensures SameOutside(old(mem), mem, areas[i])
    {
      hide AreasOk, Sum, Spot, AreaAt;
      if (p + 2 * word) % alignment == 0 {
        assert areas == areas[i := areas[i]];
        newp := p;
      } else {
        ghost var a := areas[i];
        AreaIs(mem, word, page, space, areas, i);
        AlignedSpot(mem, word, page, space, a, alignment, nb);
        hide Multiple;
        newp := Spot(p, 2 * word, alignment);
        AreaKeys(mem, word, page, space, a);
        var leadsize := newp - p;
        var newsize := ChunkSize(mem[p + word]) - leadsize;
        mem := mem[newp := mem[p] + leadsize];
        mem := mem[newp + word := newsize + 2];
        AreaMoved(old(mem), mem, word, page, space, a, newp);
        MovedArea(old(mem), mem, word, page, space, areas, i, a.(chunk := newp));
        SumUpdated(areas, i, a.(chunk := newp));
        areas := areas[i := a.(chunk := newp)];
      }
    }

    // munmap_chunk
    method Unmap(p: int, ghost i: int) returns (base: int, total: int, ok: bool)
      requires Valid() && 0 <= i < |areas| && areas[i].chunk == p
      modifies this`mem, this`nMmaps, this`mmappedMem, this`areas
      ensures ok && Valid()
      ensures base == old(areas)[i].base && total == old(areas)[i].total && areas == Without(old(areas), i)
      ensures Unmapped(mem, base, total) && SameOutside(old(mem), mem, old(areas)[i])
    {
      hide AreasOk, Sum;
      AreaIs(mem, word, page, space, areas, i);
      HeadIs(areas[i].base + areas[i].total - p);
      var size := ChunkSize(mem[p + word]);
      ok := IsMapped(mem[p + word]) && (mem[p] + size) % page == 0;
      nMmaps := nMmaps - 1;
      SumWithout(areas, i);
      mmappedMem := mmappedMem - (size + mem[p]);
      base, total := p - mem[p], size + mem[p];
      mem := mem - Zeros(base, total).Keys;
      DropArea(old(mem), mem, word, page, space, areas, i);
      areas := Without(areas, i);
    }

    // What malloc or memalign mapped, free gives back whole: memory and counters are as before.
    method ThereAndBack(nb: int, mm: int, alignment: int) returns (served: bool)
      requires Valid() && nb >= 4 * word
      requires alignment >= 4 * word && Multiple(alignment, 2 * word) && Multiple(alignment, 8) && nb + alignment + 4 * word < space
      requires mm != 0 ==> mm > 0 && mm % page == 0 && mm + MappedSize(word, page, space, nb + alignment + 4 * word) <= space
      requires mm != 0 ==> Unmapped(mem, mm, MappedSize(word, page, space, nb + alignment + 4 * word))
      modifies this`mem, this`nMmaps, this`mmappedMem, this`areas
      ensures Valid() && mem == old(mem) && nMmaps == old(nMmaps) && mmappedMem == old(mmappedMem) && areas == old(areas)
    {
      hide AreasOk, Sum, MappedSize, Multiple;
      var padded := nb + alignment + 4 * word;
      MappedSizeIs(word, page, space, padded);
      var p := Map(padded, mm);
      served := p != 0;
      if served {
        ghost var n, m1, a := |areas| - 1, mem, areas[|areas| - 1];
        var newp := AlignWithin(p, alignment, nb, n);
        ghost var m2, b := mem, areas[n];
        var base, total, ok := Unmap(newp, n);
        assert areas == old(areas);
        BackAgain(old(mem), m1, m2, mem, a, b);
      }
    }
  }

  lemma AreaIs(mem: map<int, int>, word: int, page: int, space: int, areas: seq<Area>, i: int)
    requires AreasOk(mem, word, page, space, areas) && 0 <= i < |areas|
    ensures AreaAt(mem, word, page, space, areas[i])
  {
  }

  // The aligned spot leaves a leader of at least MINSIZE, and room for nb bytes and one more size word after it.
  lemma AlignedSpot(mem: map<int, int>, word: int, page: int, space: int, a: Area, alignment: int, nb: int)
    requires AreaAt(mem, word, page, space, a) && (word == 4 || word == 8) && nb >= 4 * word
    requires alignment >= 4 * word && Multiple(alignment, 2 * word) && Multiple(alignment, 8) && !Multiple(a.chunk + 2 * word, alignment)
    requires a.chunk + nb + alignment + 4 * word + word <= a.base + a.total
    ensures var s := Spot(a.chunk, 2 * word, alignment);
      && Multiple(s + 2 * word, alignment) && a.chunk + 4 * word <= s && s + nb + word <= a.base + a.total
      && Multiple(s, 2 * word) && Multiple(a.base + a.total - s, 8) && Inside(a, s) && Inside(a, s + word)
      && Inside(a, a.chunk) && Inside(a, a.chunk + word)
      && ChunkSize(mem[a.chunk + word]) == a.base + a.total - a.chunk && mem[a.chunk] == a.chunk - a.base
  {
    SpotIs(a.chunk, 2 * word, alignment);
    HeadIs(a.base + a.total - a.chunk);
    var s := Spot(a.chunk, 2 * word, alignment);
    SpotAligned(word, a.chunk, s, alignment);
    SumMod(a.base + a.total - a.chunk, s - a.chunk, 8);
  }

  lemma SpotAligned(word: int, p: int, newp: int, alignment: int)
    requires (word == 4 || word == 8) && p % (2 * word) == 0 && alignment > 0 && (newp + 2 * word) % alignment == 0
    requires alignment % (2 * word) == 0
    ensures newp % (2 * word) == 0 && (newp - p) % 8 == 0
  {
    MultipleTrans(newp + 2 * word, alignment, 2 * word);
    ModOf(1, 2 * word, 0);
    SumMod(newp + 2 * word, 2 * word, 2 * word);
    SumMod(newp, p, 2 * word);
    MultipleTrans(newp - p, 2 * word, 8);
  }

  lemma BackAgain(m0: map<int, int>, m1: map<int, int>, m2: map<int, int>, m3: map<int, int>, a: Area, b: Area)
    requires Unmapped(m0, a.base, a.total) && Unmapped(m3, b.base, b.total) && a.base == b.base && a.total == b.total
    requires SameOutside(m0, m1, a) && SameOutside(m1, m2, b) && SameOutside(m2, m3, b)
    ensures m3 == m0
  {
    forall k {:trigger k in m0} {:trigger k in m3}
      ensures (k in m0 <==> k in m3) && (k in m0 ==> m3[k] == m0[k])
    {
      if !Inside(a, k) { assert !Inside(b, k) && (k in m1 <==> k in m2); }
    }
  }

  lemma AreaKeys(mem: map<int, int>, word: int, page: int, space: int, a: Area)
    requires AreaAt(mem, word, page, space, a)
    ensures a.chunk in mem && a.chunk + word in mem
  {
  }

  lemma AreaMoved(mem: map<int, int>, mem': map<int, int>, word: int, page: int, space: int, a: Area, p: int)
    requires AreaAt(mem, word, page, space, a) && a.base <= p && p + 2 * word < a.base + a.total
    requires Multiple(p, 2 * word) && Multiple(a.base + a.total - p, 8)
    requires mem' == mem[p := p - a.base][p + word := a.base + a.total - p + 2]
    ensures AreaAt(mem', word, page, space, a.(chunk := p)) && SameOutside(mem, mem', a.(chunk := p))
  {
    assert forall k :: Inside(a.(chunk := p), k) == Inside(a, k);
  }

  lemma MovedArea(mem: map<int, int>, mem': map<int, int>, word: int, page: int, space: int, areas: seq<Area>, i: int, b: Area)
    requires AreasOk(mem, word, page, space, areas) && 0 <= i < |areas| && b.base == areas[i].base && b.total == areas[i].total
    requires AreaAt(mem', word, page, space, b) && SameOutside(mem, mem', b)
    ensures AreasOk(mem', word, page, space, areas[i := b])
  {
    hide AreaAt;
    forall j {:trigger areas[j]} | 0 <= j < |areas|
      ensures AreaAt(mem', word, page, space, areas[i := b][j])
    {
      if j != i {
        assert if i < j then Separate(areas[i], areas[j]) else Separate(areas[j], areas[i]);
        AreaFramed(mem, mem', word, page, space, b, areas[j]);
      }
    }
    forall k {:trigger k in mem'} | k in mem'
      ensures InSome(areas[i := b], k)
    {
      if Inside(b, k) {
        assert Inside(areas[i := b][i], k);
      } else {
        assert k in mem && InSome(areas, k);
        var j :| 0 <= j < |areas| && Inside(areas[j], k);
        assert Inside(areas[i := b][j], k);
      }
    }
  }

  lemma DropArea(mem: map<int, int>, mem': map<int, int>, word: int, page: int, space: int, areas: seq<Area>, i: int)
    requires AreasOk(mem, word, page, space, areas) && 0 <= i < |areas|
    requires mem' == mem - Zeros(areas[i].base, areas[i].total).Keys
    ensures AreasOk(mem', word, page, space, Without(areas, i)) && SameOutside(mem, mem', areas[i])
  {
    hide AreaAt;
    var rest := Without(areas, i);
    forall j | 0 <= j < |rest|
      ensures AreaAt(mem', word, page, space, rest[j])
    {
      var j' := if j < i then j else j + 1;
      assert if i < j' then Separate(areas[i], areas[j']) else Separate(areas[j'], areas[i]);
      AreaFramed(mem, mem', word, page, space, areas[i], areas[j']);
    }
    forall k {:trigger k in mem'} | k in mem'
      ensures InSome(rest, k)
    {
      assert k in mem && InSome(areas, k);
      var j :| 0 <= j < |areas| && Inside(areas[j], k);
      assert j != i;
      assert Inside(rest[if j < i then j else j - 1], k);
    }
  }

  function Zero(k: int): int { 0 }

  function Zeros(base: int, total: int): map<int, int> { map k | base <= k < base + total :: Zero(k) }

  // A new mapping is all zero, but for the size word.
  ghost predicate Fresh(mem: map<int, int>, a: Area, head: int) {
    forall k {:trigger k in mem} :: Inside(a, k) && k != head ==> k in mem && mem[k] == 0
  }

  lemma NewArea(mem: map<int, int>, mem': map<int, int>, word: int, page: int, space: int, areas: seq<Area>, mm: int, size: int)
    requires AreasOk(mem, word, page, space, areas) && mem' == (mem + Zeros(mm, size))[mm + word := size + 2]
    requires (word == 4 || word == 8) && page > 0 && page % (2 * word) == 0 && page % 8 == 0
    requires mm > 0 && mm % page == 0 && size % page == 0 && 2 * word < size && mm + size <= space && Unmapped(mem, mm, size)
    ensures AreasOk(mem', word, page, space, areas + [Area(mm, mm, size)])
    ensures SameOutside(mem, mem', Area(mm, mm, size)) && Fresh(mem', Area(mm, mm, size), mm + word)
  {
    hide AreasOk;
    var a := Area(mm, mm, size);
    MultipleTrans(mm, page, 2 * word);
    MultipleTrans(size, page, 8);
    assert AreaAt(mem', word, page, space, a);
    AddArea(mem, mem', word, page, space, areas, a);
  }
}
