/** The circular doubly linked lists of free chunks, one for each bin header, and what linking and unlinking do to them. */
module BinLists {
  import opened Memory

  datatype Slot = Slot(bin: int, key: real)

  function Hdr(i: int): int { i - 200 }
  predicate IsHdr(x: int) { -199 <= x <= -73 }

  ghost predicate Node(s: map<int, Slot>, x: int) { IsHdr(x) || (x > 0 && x in s) }

  ghost function BinOf(s: map<int, Slot>, x: int): int
    requires Node(s, x)
  { if IsHdr(x) then x + 200 else s[x].bin }

  ghost function KeyFrom(s: map<int, Slot>, x: int): real
    requires Node(s, x)
  { if IsHdr(x) then 0.0 else s[x].key }

  ghost function KeyTo(s: map<int, Slot>, x: int): real
    requires Node(s, x)
  { if IsHdr(x) then 1.0 else s[x].key }

  ghost predicate LinkAt(s: map<int, Slot>, lo: map<int, int>, hi: map<int, Word>, x: int)
  {
    && Node(s, x)
    && x + 1 in lo && x + 1 in hi && hi[x + 1].Ptr?
    && Node(s, lo[x + 1]) && BinOf(s, lo[x + 1]) == BinOf(s, x)
    && Node(s, hi[x + 1].to) && BinOf(s, hi[x + 1].to) == BinOf(s, x)
    && lo[x + 1] + 1 in hi && hi[lo[x + 1] + 1] == Ptr(x)
    && hi[x + 1].to + 1 in lo && lo[hi[x + 1].to + 1] == x
    && KeyFrom(s, x) < KeyTo(s, lo[x + 1])
  }

  ghost predicate GapAt(s: map<int, Slot>, lo: map<int, int>, x: int, q: int)
  {
    && Node(s, x) && x + 1 in lo && Node(s, lo[x + 1]) && q in s
    && (s[q].bin == BinOf(s, x) && q != x && q != lo[x + 1] ==>
      s[q].key < KeyFrom(s, x) || KeyTo(s, lo[x + 1]) < s[q].key)
  }

  ghost predicate Linked(s: map<int, Slot>, lo: map<int, int>, hi: map<int, Word>) {
    && (forall q :: q in s ==> q > 0 && 1 <= s[q].bin <= 126 && 0.0 < s[q].key < 1.0)
    && (forall x {:trigger LinkAt(s, lo, hi, x)} :: Node(s, x) ==> LinkAt(s, lo, hi, x))
    && (forall x, q {:trigger GapAt(s, lo, x, q)} :: Node(s, x) && q in s ==> GapAt(s, lo, x, q))
  }

  lemma LinkEnds(s: map<int, Slot>, lo: map<int, int>, hi: map<int, Word>, x: int)
    requires LinkAt(s, lo, hi, x)
    ensures Node(s, x) && x + 1 in lo && x + 1 in hi && hi[x + 1].Ptr?
    ensures Node(s, lo[x + 1]) && BinOf(s, lo[x + 1]) == BinOf(s, x)
    ensures Node(s, hi[x + 1].to) && BinOf(s, hi[x + 1].to) == BinOf(s, x)
  {
  }

  lemma UnlinkLink(s: map<int, Slot>, lo: map<int, int>, hi: map<int, Word>, p: int, fd: int, bk: int, x: int)
    requires !IsHdr(p) && LinkAt(s, lo, hi, p) && fd == lo[p + 1] && bk == hi[p + 1].to
    requires LinkAt(s, lo, hi, bk) && LinkAt(s, lo, hi, fd)
    requires Node(s - {p}, x) && LinkAt(s, lo, hi, x)
    ensures LinkAt(s - {p}, lo[bk + 1 := fd], hi[fd + 1 := Ptr(bk)], x)
  {
    assert bk != p && fd != p;
    assert lo[x + 1] == p ==> x == bk;
    assert hi[x + 1].to == p ==> x == fd;
  }

  lemma UnlinkGap(s: map<int, Slot>, lo: map<int, int>, hi: map<int, Word>, p: int, fd: int, bk: int, x: int, q: int)
    requires !IsHdr(p) && LinkAt(s, lo, hi, p) && fd == lo[p + 1] && bk == hi[p + 1].to
    requires LinkAt(s, lo, hi, bk) && LinkAt(s, lo, hi, fd)
    requires Node(s - {p}, x) && LinkAt(s, lo, hi, x) && q in s && q != p
    requires GapAt(s, lo, x, q) && GapAt(s, lo, p, q)
    ensures GapAt(s - {p}, lo[bk + 1 := fd], x, q)
  {
    UnlinkLink(s, lo, hi, p, fd, bk, x);
    assert lo[x + 1] == p ==> x == bk;
  }

  lemma UnlinkKeeps(s: map<int, Slot>, lo: map<int, int>, hi: map<int, Word>, p: int, fd: int, bk: int)
    requires Linked(s, lo, hi) && p in s
    requires LinkAt(s, lo, hi, p) && fd == lo[p + 1] && bk == hi[p + 1].to
    ensures Linked(s - {p}, lo[bk + 1 := fd], hi[fd + 1 := Ptr(bk)])
  {
    hide LinkAt, GapAt;
    var s', lo', hi' := s - {p}, lo[bk + 1 := fd], hi[fd + 1 := Ptr(bk)];
    assert Node(s, bk) && Node(s, fd) by { LinkEnds(s, lo, hi, p); }
    forall x | Node(s', x)
      ensures LinkAt(s', lo', hi', x)
    {
      assert Node(s, x);
      UnlinkLink(s, lo, hi, p, fd, bk, x);
    }
    forall x, q | Node(s', x) && q in s'
      ensures GapAt(s', lo', x, q)
    {
      assert Node(s, x);
      UnlinkGap(s, lo, hi, p, fd, bk, x, q);
    }
  }

  // ---- insertion of p between bk and its successor fd
  ghost predicate Between(s: map<int, Slot>, bk: int, fd: int, key: real) {
    Node(s, bk) && Node(s, fd) && KeyFrom(s, bk) < key < KeyTo(s, fd)
  }

  lemma InsertLink(s: map<int, Slot>, lo: map<int, int>, hi: map<int, Word>, p: int, bk: int, fd: int, key: real, x: int)
    requires p !in s && p > 0 && p + 1 in lo && p + 1 in hi && Between(s, bk, fd, key)
    requires LinkAt(s, lo, hi, bk) && LinkAt(s, lo, hi, fd) && fd == lo[bk + 1]
    requires x == p || LinkAt(s, lo, hi, x)
    ensures LinkAt(s[p := Slot(BinOf(s, bk), key)], lo[p + 1 := fd][bk + 1 := p], hi[p + 1 := Ptr(bk)][fd + 1 := Ptr(p)], x)
  {
    if x != p && x != bk && x != fd {
      assert lo[x + 1] != fd && hi[x + 1].to != bk;
    }
  }

  lemma InsertGap(s: map<int, Slot>, lo: map<int, int>, hi: map<int, Word>, p: int, bk: int, fd: int, key: real, x: int, q: int)
    requires p !in s && p > 0 && p + 1 in lo && Between(s, bk, fd, key)
    requires LinkAt(s, lo, hi, bk) && LinkAt(s, lo, hi, fd) && fd == lo[bk + 1]
    requires x == p || LinkAt(s, lo, hi, x)
    requires q != p ==> q > 0 && q in s && GapAt(s, lo, bk, q) && (x != p ==> GapAt(s, lo, x, q))
    requires x != p && !IsHdr(x) ==> GapAt(s, lo, bk, x)
    requires x != p && !IsHdr(lo[x + 1]) ==> GapAt(s, lo, bk, lo[x + 1])
    requires x != p && !IsHdr(bk) ==> GapAt(s, lo, x, bk)
    requires x != p && !IsHdr(x) ==> 0.0 < s[x].key
    requires !IsHdr(bk) ==> 0.0 < s[bk].key < 1.0
    ensures GapAt(s[p := Slot(BinOf(s, bk), key)], lo[p + 1 := fd][bk + 1 := p], x, q)
  {
    if x != p && x != bk && q == p {
      assert lo[x + 1] != fd by { assert hi[lo[x + 1] + 1] == Ptr(x); }
    }
  }

  lemma InsertKeeps(s: map<int, Slot>, lo: map<int, int>, hi: map<int, Word>, p: int, bk: int, fd: int, key: real)
    requires Linked(s, lo, hi) && p !in s && p > 0 && p + 1 in lo && p + 1 in hi
    requires Node(s, bk) && bk + 1 in lo && fd == lo[bk + 1] && Between(s, bk, fd, key) && BinOf(s, bk) <= 126
    ensures Linked(s[p := Slot(BinOf(s, bk), key)], lo[p + 1 := fd][bk + 1 := p], hi[p + 1 := Ptr(bk)][fd + 1 := Ptr(p)])
  {
    hide LinkAt, GapAt;
    var s' := s[p := Slot(BinOf(s, bk), key)];
    var lo', hi' := lo[p + 1 := fd][bk + 1 := p], hi[p + 1 := Ptr(bk)][fd + 1 := Ptr(p)];
    assert Node(s, fd);
    forall x | Node(s', x)
      ensures LinkAt(s', lo', hi', x)
    {
      assert x == p || Node(s, x);
      InsertLink(s, lo, hi, p, bk, fd, key, x);
    }
    forall x, q | Node(s', x) && q in s'
      ensures GapAt(s', lo', x, q)
    {
      assert x == p || Node(s, x);
      if x != p { LinkEnds(s, lo, hi, x); }
      InsertGap(s, lo, hi, p, bk, fd, key, x, q);
    }
    assert forall q :: q in s' ==> q > 0 && 1 <= s'[q].bin <= 126 && 0.0 < s'[q].key < 1.0 by {
      assert BinOf(s, bk) >= 1 && 0.0 <= KeyFrom(s, bk) && KeyTo(s, fd) <= 1.0;
    }
  }
}
