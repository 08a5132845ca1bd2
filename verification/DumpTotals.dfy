/** Sums over the packets in flight, and over the nodes. */
module DumpTotals {
  import opened DumpNet

  // ---- over packets

  function Total(f: seq<Hop>, v: Hop -> int): int { if |f| == 0 then 0 else Total(f[..|f| - 1], v) + v(f[|f| - 1]) }

  lemma {:induction false} TotalSum(f: seq<Hop>, g: seq<Hop>, v: Hop -> int)
    ensures Total(f + g, v) == Total(f, v) + Total(g, v)
  {
    if |g| == 0 {
      assert f + g == f;
    } else {
      assert (f + g)[..|f + g| - 1] == f + g[..|g| - 1];
      TotalSum(f, g[..|g| - 1], v);
    }
  }

  lemma TotalOne(h: Hop, v: Hop -> int)
    ensures Total([h], v) == v(h)
  {
    assert [h][..0] == [];
  }

  lemma TotalNone(v: Hop -> int)
    ensures Total([], v) == 0
  {
  }

  lemma TotalWithout(f: seq<Hop>, k: int, v: Hop -> int)
    requires 0 <= k < |f|
    ensures Total(Without(f, k), v) == Total(f, v) - v(f[k])
  {
    hide Total;
    assert f == f[..k] + ([f[k]] + f[k + 1..]);
    TotalSum(f[..k], [f[k]] + f[k + 1..], v);
    TotalSum([f[k]], f[k + 1..], v);
    TotalSum(f[..k], f[k + 1..], v);
    TotalOne(f[k], v);
  }

  lemma {:induction false} TotalAtMost(f: seq<Hop>, v: Hop -> int, m: int)
    requires forall i {:trigger f[i]} :: 0 <= i < |f| ==> v(f[i]) <= m
    ensures Total(f, v) <= m * |f|
  {
    if |f| > 0 {
      TotalAtMost(f[..|f| - 1], v, m);
      assert v(f[|f| - 1]) <= m;
      assert m * |f| == m * (|f| - 1) + m;
    }
  }

  lemma {:induction false} TotalNat(f: seq<Hop>, v: Hop -> int)
    requires forall h {:trigger v(h)} :: v(h) >= 0
    ensures Total(f, v) >= 0
  {
    if |f| > 0 { TotalNat(f[..|f| - 1], v); }
  }

  // ---- over nodes

  ghost function Sum(m: map<int, int>): int
    decreases |m|
  { if exists k :: k in m then var k :| k in m; m[k] + Sum(m - {k}) else 0 }

  lemma {:induction false} SumPick(m: map<int, int>, k: int)
    requires k in m
    ensures Sum(m) == m[k] + Sum(m - {k})
    decreases |m|
  {
    var j :| j in m && Sum(m) == m[j] + Sum(m - {j});
    if j != k {
      SumPick(m - {j}, k);
      SumPick(m - {k}, j);
      assert m - {j} - {k} == m - {k} - {j};
    }
  }

  lemma SumUpdate(m: map<int, int>, k: int, v: int)
    requires k in m
    ensures Sum(m[k := v]) == Sum(m) - m[k] + v
  {
    hide Sum;
    SumPick(m, k);
    SumPick(m[k := v], k);
    assert m[k := v] - {k} == m - {k};
  }

  lemma {:induction false} SumNat(m: map<int, int>)
    requires forall k :: k in m ==> m[k] >= 0
    ensures Sum(m) >= 0
    decreases |m|
  {
    if k :| k in m {
      SumPick(m, k);
      SumNat(m - {k});
    }
  }
}
