/** Chunk sizes, bin indices and fastbin indices. */
module Sizes {
  predicate IsGrain(g: int) { g == 8 || g == 16 }

  function Bytes(g: int, n: int): int { if g == 8 then 8 * n else 16 * n }

  function SmallbinIndex(sz: int): int { sz / 8 }

  function LargebinIndex(sz: int): int {
    if sz / 64 <= 32 then 56 + sz / 64
    else if sz / 512 <= 20 then 91 + sz / 512
    else if sz / 4096 <= 10 then 110 + sz / 4096
    else if sz / 32768 <= 4 then 119 + sz / 32768
    else if sz / 262144 <= 2 then 124 + sz / 262144
    else 126
  }

  predicate InSmallbinRange(sz: int) { sz < 512 }

  function BinIndex(sz: int): int {
    if InSmallbinRange(sz) then SmallbinIndex(sz) else LargebinIndex(sz)
  }

  function FastbinIndex(sz: int): int { sz / 8 - 2 }

  lemma LargeMonotone(x: int, y: int)
    requires 512 <= x <= y
    ensures LargebinIndex(x) <= LargebinIndex(y)
  {
    assert x / 64 <= y / 64 && x / 512 <= y / 512 && x / 4096 <= y / 4096;
    assert x / 32768 <= y / 32768 && x / 262144 <= y / 262144;
  }

  lemma BinIndexMonotone(x: int, y: int)
    requires 0 <= x <= y
    ensures BinIndex(x) <= BinIndex(y)
  {
    if 512 <= x { LargeMonotone(x, y); }
  }

  lemma BinIndexRange(g: int, n: int)
    requires IsGrain(g) && n >= 2
    ensures 2 <= BinIndex(Bytes(g, n)) <= 126
    ensures BinIndex(Bytes(g, n)) < 64 <==> InSmallbinRange(Bytes(g, n))
  {
  }

  // A bin above the one of a request holds larger chunks only.
  lemma HigherBinIsLarger(g: int, m: int, n: int)
    requires IsGrain(g) && m >= 0 && n >= 0
    requires BinIndex(Bytes(g, m)) < BinIndex(Bytes(g, n))
    ensures m < n
  {
    if n <= m { BinIndexMonotone(Bytes(g, n), Bytes(g, m)); }
  }

  // How far apart the sizes of one bin can be.
  function Spacing(i: int): int {
    if i < 64 then 8 else if i <= 88 then 64 else if i <= 111 then 512 else if i <= 119 then 4096 else if i <= 123 then 32768 else 262144
  }

  lemma SameBinClose(x: int, y: int)
    requires 0 <= x <= y && BinIndex(x) == BinIndex(y) < 126
    ensures y - x < Spacing(BinIndex(x))
  {
    if 512 <= x {
      LargeMonotone(x, y);
    }
  }

  // The sizes that a large bin holds.
  lemma LargeBinHolds(x: int)
    requires 512 <= x
    ensures var i := BinIndex(x);
      if x < 2112 then 64 <= i <= 88 && 64 * (i - 56) <= x < 64 * (i - 55)
      else if x < 10752 then 95 <= i <= 111 && 512 * (i - 91) <= x < 512 * (i - 90)
      else if x < 45056 then 112 <= i <= 120 && 4096 * (i - 110) <= x < 4096 * (i - 109)
      else if x < 163840 then 120 <= i <= 123 && 32768 * (i - 119) <= x < 32768 * (i - 118)
      else if x < 786432 then 124 <= i <= 126 && 262144 * (i - 124) <= x < 262144 * (i - 123)
      else i == 126
  {
  }

  lemma SmallBinExact(g: int, m: int, n: int)
    requires IsGrain(g) && m >= 0 && n >= 0
    requires BinIndex(Bytes(g, m)) == BinIndex(Bytes(g, n)) < 64
    ensures m == n
  {
  }
}
