/** The words of the bitmap. */
module BitMaps {
  // 1U << k in 32 bits; the bit is lost when k == 32.
  function Bit(k: nat): bv32 { if k == 0 then 1 else Bit(k - 1) << 1 }

  lemma LastBit()
    ensures Bit(31) == 0x8000_0000 && Bit(32) == 0
  {
    assert Bit(2) == 4; assert Bit(4) == 16; assert Bit(6) == 64; assert Bit(8) == 0x100;
    assert Bit(10) == 0x400; assert Bit(12) == 0x1000; assert Bit(14) == 0x4000; assert Bit(16) == 0x1_0000;
    assert Bit(18) == 0x4_0000; assert Bit(20) == 0x10_0000; assert Bit(22) == 0x40_0000; assert Bit(24) == 0x100_0000;
    assert Bit(26) == 0x400_0000; assert Bit(28) == 0x1000_0000; assert Bit(30) == 0x4000_0000;
  }

  lemma {:induction false} AtMostOneBit(k: nat)
    ensures Bit(k) & (Bit(k) - 1) == 0
  {
    if k > 0 {
      AtMostOneBit(k - 1);
      OneBitDouble(Bit(k - 1));
    }
  }

  lemma OneBitDouble(b: bv32)
    requires b & (b - 1) == 0
    ensures (b << 1) & ((b << 1) - 1) == 0
    ensures b << 1 != 0 ==> b != 0 && b < b << 1
  {
  }

  lemma {:induction false} BitsDiffer(j: nat, k: nat)
    requires j <= k < 32
    ensures Bit(j) != 0 && Bit(k) != 0 && Bit(j) <= Bit(k)
    ensures j < k ==> Bit(j) < Bit(k) && Bit(j) & Bit(k) == 0
    decreases 64 - j - k
  {
    hide Bit;
    AtMostOneBit(j);
    AtMostOneBit(k);
    if j < k {
      BitsDiffer(j + 1, k);
      BitStep(j);
      OneBitDouble(Bit(j));
      SingleBitsDisjoint(Bit(j), Bit(k));
    } else if k < 31 {
      BitsDiffer(j, k + 1);
    } else {
      LastBit();
    }
  }

  lemma BitStep(j: nat)
    ensures Bit(j + 1) == Bit(j) << 1
  {
  }

  lemma SingleBitsDisjoint(a: bv32, b: bv32)
    requires a & (a - 1) == 0 && b & (b - 1) == 0 && a < b && a != 0
    ensures a & b == 0
  {
  }

  // ---- the walk over one word of the map

  lemma NoBitsAbove(bit: bv32, w: bv32)
    requires bit & (bit - 1) == 0 && bit > w
    ensures w & bit == 0
  {
  }

  // Skip the rest of a block: no bit at or above the current one is set.
  lemma BlockDone(w: bv32, j: nat, i: nat)
    requires j <= i < 32 && Bit(j) > w
    ensures w & Bit(i) == 0
  {
    hide Bit;
    BitsDiffer(j, i);
    AtMostOneBit(i);
    NoBitsAbove(Bit(i), w);
  }

  // While the bit is not above the map there is a set bit to come.
  lemma BitToCome(w: bv32, j: nat)
    requires j < 32 && Bit(j) <= w && w & Bit(j) == 0
    ensures j < 31 && Bit(j + 1) <= w && Bit(j + 1) != 0
  {
    hide Bit;
    AtMostOneBit(j);
    BitsDiffer(j, j);
    BitStep(j);
    if j == 31 { LastBit(); }
    if j < 31 { BitsDiffer(j, j + 1); AtMostOneBit(j + 1); }
    DoubleBelow(Bit(j), w);
  }

  lemma DoubleBelow(b: bv32, w: bv32)
    requires b & (b - 1) == 0 && b != 0 && b <= w && w & b == 0
    ensures b << 1 != 0 && b << 1 <= w && b != 0x8000_0000
  {
  }

  function And(w: bv32, b: bv32): bv32 { w & b }

  function Or(w: bv32, b: bv32): bv32 { w | b }

  function Without(w: bv32, b: bv32): bv32 { w & !b }

  predicate NonZero(w: bv32) { w != 0 }

  predicate TestBit(w: bv32, k: nat) { NonZero(And(w, Bit(k))) }

  lemma OrTests(w: bv32, b: bv32, c: bv32)
    requires b & c == 0
    ensures (w | b) & c == w & c && (w & !b) & c == w & c
  {
  }

  lemma OrTest(w: bv32, b: bv32)
    ensures (w | b) & b == b && (w & !b) & b == 0
  {
  }

  lemma AndIs(w: bv32, b: bv32)
    ensures And(w, b) == w & b
  {
  }

  lemma OrIs(w: bv32, b: bv32)
    ensures Or(w, b) == w | b
  {
  }

  lemma WithoutIs(w: bv32, b: bv32)
    ensures Without(w, b) == w & !b
  {
  }

  lemma OrOther(w: bv32, b: bv32, c: bv32)
    requires b & c == 0
    ensures And(Or(w, b), c) == And(w, c)
  {
    hide And, Or;
    var u := Or(w, b);
    assert u & c == w & c by { OrIs(w, b); OrTests(w, b, c); }
    AndIs(w, c);
    AndIs(u, c);
  }

  lemma WithoutOther(w: bv32, b: bv32, c: bv32)
    requires b & c == 0
    ensures And(Without(w, b), c) == And(w, c)
  {
    hide And, Without;
    var u := Without(w, b);
    assert u & c == w & c by { WithoutIs(w, b); OrTests(w, b, c); }
    AndIs(w, c);
    AndIs(u, c);
  }

  lemma TestsOfSame(w: bv32, b: bv32)
    requires b != 0
    ensures NonZero(And(Or(w, b), b)) && !NonZero(And(Without(w, b), b))
  {
    hide And, Or, Without;
    OrIs(w, b);
    WithoutIs(w, b);
    AndIs(w | b, b);
    AndIs(w & !b, b);
    OrTest(w, b);
  }

  lemma BitNonZero(j: nat)
    requires j < 32
    ensures Bit(j) != 0
  {
    hide Bit;
    BitsDiffer(j, j);
  }

  lemma BitsDisjoint(i: nat, j: nat)
    requires i < 32 && j < 32 && i != j
    ensures Bit(j) & Bit(i) == 0
  {
    hide Bit;
    if i < j { BitsDiffer(i, j); } else { BitsDiffer(j, i); }
    AndSwaps(Bit(i), Bit(j));
  }

  lemma AndSwaps(a: bv32, b: bv32)
    ensures a & b == b & a
  {
  }

  lemma TestSame(w: bv32, j: nat)
    requires j < 32
    ensures TestBit(Or(w, Bit(j)), j) && !TestBit(Without(w, Bit(j)), j)
  {
    hide Bit, And, Or, Without, NonZero;
    BitNonZero(j);
    TestsOfSame(w, Bit(j));
  }

  lemma TestOther(w: bv32, j: nat, i: nat)
    requires i < 32 && j < 32 && i != j
    ensures TestBit(Or(w, Bit(j)), i) == TestBit(w, i)
    ensures TestBit(Without(w, Bit(j)), i) == TestBit(w, i)
  {
    hide Bit, And, Or, Without, NonZero;
    var b, c := Bit(j), Bit(i);
    assert And(Or(w, b), c) == And(w, c) by { BitsDisjoint(i, j); OrOther(w, b, c); }
    assert And(Without(w, b), c) == And(w, c) by { BitsDisjoint(i, j); WithoutOther(w, b, c); }
  }

  // ---- the walk, on named operations

  function Double(b: bv32): bv32 { b << 1 }

  predicate Exceeds(b: bv32, w: bv32) { b > w }

  lemma BitBound(j: nat)
    requires j <= 32
    ensures NonZero(Bit(j)) <==> j < 32
  {
    hide Bit;
    if j < 32 { BitsDiffer(j, j); } else { LastBit(); }
  }

  lemma NextBitIs(j: nat)
    ensures Double(Bit(j)) == Bit(j + 1)
  {
    hide Bit;
    BitStep(j);
  }

  lemma TestIs(w: bv32, b: bv32)
    ensures NonZero(And(w, b)) <==> w & b != 0
    ensures And(w, b) == And(b, w)
  {
    AndSwaps(w, b);
  }

  lemma NoneAtOrAbove(w: bv32, j: nat, i: nat)
    requires j <= i < 32 && Exceeds(Bit(j), w)
    ensures !TestBit(w, i)
  {
    hide Bit, And, NonZero;
    BlockDone(w, j, i);
    TestIs(w, Bit(i));
  }

  lemma MoreToCome(w: bv32, j: nat)
    requires j < 32 && !Exceeds(Bit(j), w) && !TestBit(w, j)
    ensures j < 31 && !Exceeds(Bit(j + 1), w)
  {
    hide Bit, And, NonZero;
    TestIs(w, Bit(j));
    BitToCome(w, j);
  }

  lemma ZeroWord(w: bv32, k: nat)
    requires w == 0
    ensures !TestBit(w, k)
  {
    hide Bit, And, NonZero;
    TestIs(w, Bit(k));
    ZeroAnd(Bit(k));
  }

  lemma ZeroAnd(b: bv32)
    ensures 0 & b == 0
  {
  }

  lemma LowestBit(w: bv32)
    requires w != 0
    ensures Bit(0) == 1 && !Exceeds(Bit(0), w) && NonZero(Bit(0))
  {
  }

  lemma TestSwaps(w: bv32, j: nat)
    ensures NonZero(And(Bit(j), w)) <==> TestBit(w, j)
  {
    hide Bit, And, NonZero;
    TestIs(w, Bit(j));
  }
}
