/** Rounding to pages. */
module Pages {
  lemma MulAtLeast(j: int, m: int)
    requires m > 0
    ensures j >= 1 ==> j * m >= m
    ensures j <= -1 ==> j * m <= -m
  {
  }

  lemma DivMod(t: int, m: int)
    requires m > 0
    ensures t == (t / m) * m + t % m && 0 <= t % m < m
  {
  }

  lemma MulMod(k: int, m: int)
    requires m > 0
    ensures (k * m) % m == 0
  {
    var t := k * m;
    DivMod(t, m);
    var j := k - t / m;
    assert j * m == t % m;
    MulAtLeast(j, m);
  }

  lemma SumMod(x: int, y: int, m: int)
    requires m > 0 && x % m == 0 && y % m == 0
    ensures (x + y) % m == 0 && (x - y) % m == 0
  {
    DivMod(x, m);
    DivMod(y, m);
    assert x + y == (x / m + y / m) * m;
    assert x - y == (x / m - y / m) * m;
    MulMod(x / m + y / m, m);
    MulMod(x / m - y / m, m);
  }

  // (x + page_mask) & ~page_mask
  function RoundUp(x: int, m: int): int
    requires m > 0
  { ((x + m - 1) / m) * m }

  lemma RoundUpIs(x: int, m: int)
    requires m > 0
    ensures RoundUp(x, m) % m == 0 && x <= RoundUp(x, m) < x + m
  {
    DivMod(x + m - 1, m);
    MulMod((x + m - 1) / m, m);
  }

  // The pages above the top that heap_trim gives back.
  function Extra(topSize: int, pad: int, m: int): int
    requires m > 0
  { ((topSize - pad - 2 + (m - 1)) / m - 1) * m }

  lemma BelowOne(x: int, m: int)
    requires m > 0 && x % m == 0 && x < m
    ensures x <= 0
  {
    DivMod(x, m);
    MulAtLeast(x / m, m);
  }

  lemma ExtraIs(topSize: int, pad: int, m: int)
    requires m > 0
    ensures Extra(topSize, pad, m) % m == 0
    ensures topSize - pad - 2 - m <= Extra(topSize, pad, m) < topSize - pad - 2
  {
    var t := topSize - pad - 2 + (m - 1);
    DivMod(t, m);
    assert Extra(topSize, pad, m) == (t / m) * m - m;
    MulMod(t / m - 1, m);
  }

  lemma MultipleTrans(x: int, y: int, m: int)
    requires m > 0 && y > 0 && y % m == 0 && x % y == 0
    ensures x % m == 0
  {
    DivMod(x, y);
    DivMod(y, m);
    var k, j := x / y, y / m;
    assert x == k * y && y == j * m;
    assert k * (j * m) == (k * j) * m;
    MulMod(k * j, m);
  }

  lemma ModSmall(x: int, m: int)
    requires 0 <= x < m
    ensures x % m == x
  {
  }

  lemma ModFull(m: int)
    requires m > 0
    ensures m % m == 0 && 0 % m == 0
  {
  }

  lemma ModRange(x: int, m: int)
    requires m > 0
    ensures 0 <= x % m < m
  {
  }

  // ---- the aligned spot of memalign

  // The first chunk after p whose memory, head further on, is aligned, and that leaves room for a
  // chunk of twice head before it.
  function Spot(p: int, head: int, al: int): int
    requires al > 0
  {
    var brk := RoundUp(p + head, al) - head;
    if brk - p < 2 * head then brk + al else brk
  }

  lemma SpotIs(p: int, head: int, al: int)
    requires head > 0 && al >= 2 * head && (p + head) % al != 0
    ensures (Spot(p, head, al) + head) % al == 0 && 2 * head <= Spot(p, head, al) - p < al + 2 * head
  {
    RoundUpIs(p + head, al);
    ModFull(al);
    SumMod(RoundUp(p + head, al), al, al);
  }

  // ---- the heap of an address

  // heap_for_ptr
  function HeapForPtr(p: int, hm: int): int
    requires hm > 0
  { p - p % hm }

  lemma WithinArea(p: int, b: int, hm: int)
    requires hm > 0 && b % hm == 0 && b <= p < b + hm
    ensures HeapForPtr(p, hm) == b
  {
    DivMod(p, hm);
    DivMod(b, hm);
    var d := p / hm - b / hm;
    assert d * hm == p - p % hm - b;
    MulAtLeast(d, hm);
    if d == 0 { assert d * hm == 0; }
  }
}
