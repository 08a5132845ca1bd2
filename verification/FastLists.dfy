/** The singly linked lists of the fastbins. */
module FastLists {
  datatype FastSlot = FastSlot(cls: int, depth: int)

  ghost predicate FastAt(f: map<int, FastSlot>, lo: map<int, int>, p: int) {
    && p in f && p > 0 && p + 1 in lo && f[p].depth >= 0
    && (if f[p].depth == 0 then lo[p + 1] == 0
        else lo[p + 1] in f && f[lo[p + 1]] == FastSlot(f[p].cls, f[p].depth - 1))
  }

  ghost predicate Upper(f: map<int, FastSlot>, i: int, d: int) {
    forall q {:trigger q in f} :: q in f && f[q].cls == i ==> f[q].depth <= d
  }

  ghost predicate FastHead(f: map<int, FastSlot>, heads: seq<int>, i: int)
    requires 0 <= i < |heads|
  {
    if heads[i] == 0 then Upper(f, i, -1)
    else heads[i] in f && f[heads[i]].cls == i && Upper(f, i, f[heads[i]].depth)
  }

  ghost predicate Alone(f: map<int, FastSlot>, p: int, q: int)
    requires p in f && q in f
  { f[p] == f[q] ==> p == q }

  ghost predicate FastLinked(f: map<int, FastSlot>, lo: map<int, int>, heads: seq<int>) {
    && (forall p {:trigger FastAt(f, lo, p)} :: p in f ==> FastAt(f, lo, p) && 0 <= f[p].cls < |heads|)
    && (forall p, q {:trigger Alone(f, p, q)} :: p in f && q in f ==> Alone(f, p, q))
    && (forall i {:trigger FastHead(f, heads, i)} :: 0 <= i < |heads| ==> FastHead(f, heads, i))
  }

  ghost function PushedAt(f: map<int, FastSlot>, heads: seq<int>, i: int): FastSlot
    requires 0 <= i < |heads| && FastHead(f, heads, i)
  { if heads[i] == 0 then FastSlot(i, 0) else FastSlot(i, f[heads[i]].depth + 1) }

  lemma PushKeeps(f: map<int, FastSlot>, lo: map<int, int>, heads: seq<int>, i: int, p: int)
    requires FastLinked(f, lo, heads) && 0 <= i < |heads| && p !in f && p > 0 && p + 1 in lo
    requires FastHead(f, heads, i)
    ensures FastLinked(f[p := PushedAt(f, heads, i)], lo[p + 1 := heads[i]], heads[i := p])
  {
    var f', lo', heads' := f[p := PushedAt(f, heads, i)], lo[p + 1 := heads[i]], heads[i := p];
    assert heads[i] != 0 ==> FastAt(f, lo, heads[i]);
    forall q | q in f'
      ensures FastAt(f', lo', q) && 0 <= f'[q].cls < |heads'|
    {
      if q != p { assert FastAt(f, lo, q); }
    }
    forall q, r | q in f' && r in f'
      ensures Alone(f', q, r)
    {
      if q != p && r != p { assert Alone(f, q, r); }
    }
    forall j | 0 <= j < |heads'|
      ensures FastHead(f', heads', j)
    {
      assert FastHead(f, heads, j);
    }
  }

  lemma PopKeeps(f: map<int, FastSlot>, lo: map<int, int>, heads: seq<int>, i: int)
    requires FastLinked(f, lo, heads) && 0 <= i < |heads| && heads[i] != 0
    ensures heads[i] in f && f[heads[i]].cls == i && heads[i] + 1 in lo
    ensures FastLinked(f - {heads[i]}, lo, heads[i := lo[heads[i] + 1]])
  {
    var p := heads[i];
    assert FastHead(f, heads, i) && FastAt(f, lo, p);
    var f', heads' := f - {p}, heads[i := lo[p + 1]];
    forall q | q in f'
      ensures FastAt(f', lo, q) && 0 <= f'[q].cls < |heads'|
    {
      assert FastAt(f, lo, q);
    }
    forall q, r | q in f' && r in f'
      ensures Alone(f', q, r)
    {
      assert Alone(f, q, r);
    }
    forall j | 0 <= j < |heads'|
      ensures FastHead(f', heads', j)
    {
      assert FastHead(f, heads, j);
      assert 0 in f ==> FastAt(f, lo, 0);
      if j == i { PopHead(f, lo, heads, i); }
    }
  }

  lemma PopHead(f: map<int, FastSlot>, lo: map<int, int>, heads: seq<int>, i: int)
    requires 0 <= i < |heads| && heads[i] != 0 && FastHead(f, heads, i) && FastAt(f, lo, heads[i])
    requires forall p, q {:trigger Alone(f, p, q)} :: p in f && q in f ==> Alone(f, p, q)
    requires lo[heads[i] + 1] != 0 ==> FastAt(f, lo, lo[heads[i] + 1])
    requires 0 !in f
    ensures FastHead(f - {heads[i]}, heads[i := lo[heads[i] + 1]], i)
  {
    var p := heads[i];
    forall q | q in f && q != p && f[q].cls == i
      ensures f[q].depth <= f[p].depth - 1
    {
      assert Alone(f, p, q);
    }
  }

  lemma FastFrame(f: map<int, FastSlot>, lo: map<int, int>, lo': map<int, int>, heads: seq<int>)
    requires FastLinked(f, lo, heads)
    requires forall p :: p in f ==> p + 1 in lo && p + 1 in lo' && lo'[p + 1] == lo[p + 1]
    ensures FastLinked(f, lo', heads)
  {
    forall p | p in f
      ensures FastAt(f, lo', p) && 0 <= f[p].cls < |heads|
    {
      assert FastAt(f, lo, p);
    }
  }
}
