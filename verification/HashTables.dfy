/** The chained hash table whose bucket heads live in the table itself. */
module HashTables {
  import opened Options

  datatype Entry = Entry(key: string, data: int)

  // The first entry of a bucket is stored in line; a head without key is an empty bucket.
  datatype Bucket = Bucket(key: Option<string>, data: int, rest: seq<Entry>)

  const NULL := 0
  const EMPTY := Bucket(None, NULL, [])

  // The sum of the characters in an unsigned int.
  function KeySum(key: string): (s: int)
    ensures s >= 0
  { if |key| == 0 then 0 else (KeySum(key[..|key| - 1]) + key[|key| - 1] as int) % 0x1_0000_0000 }

  function Index(key: string, size: int): (i: int)
    requires size > 0
    ensures 0 <= i < size
  { KeySum(key) % size }

  function CharSum(key: string): int { if |key| == 0 then 0 else key[0] as int + CharSum(key[1..]) }

  lemma {:induction false} CharSumMore(key: string, c: char)
    ensures CharSum(key + [c]) == CharSum(key) + c as int
  {
    if |key| > 0 {
      CharSumMore(key[1..], c);
      assert (key + [c])[1..] == key[1..] + [c];
    }
  }

  // It is the sum of all characters, as far as it fits in an unsigned int.
  lemma {:induction false} KeySumIs(key: string)
    ensures KeySum(key) == CharSum(key) % 0x1_0000_0000
  {
    if |key| > 0 {
      var n := |key| - 1;
      KeySumIs(key[..n]);
      CharSumMore(key[..n], key[n]);
      assert key[..n] + [key[n]] == key;
    }
  }

  // The loop over the characters, and the bucket it leads to.
  method HashKey(key: string, size: int) returns (index: int)
    requires size > 0
    ensures index == Index(key, size) == CharSum(key) % 0x1_0000_0000 % size
  {
    index := 0;
    var backup := 0;
    while backup < |key|
      invariant 0 <= backup <= |key| && index == KeySum(key[..backup])
    {
      assert key[..backup + 1][..backup] == key[..backup];
      index := (index + key[backup] as int) % 0x1_0000_0000;
      backup := backup + 1;
    }
    assert key[..backup] == key;
    KeySumIs(key);
    index := index % size;
  }

  function Entries(b: Bucket): seq<Entry> {
    match b.key
    case None => []
    case Some(k) => [Entry(k, b.data)] + b.rest
  }

  ghost predicate DistinctKeys(es: seq<Entry>) { forall i, j :: 0 <= i < j < |es| ==> es[i].key != es[j].key }

  ghost predicate BucketOk(b: Bucket, i: int, size: int)
    requires size > 0
  {
    && (b.key == None ==> b == EMPTY)
    && DistinctKeys(Entries(b))
    && forall e {:trigger e in Entries(b)} :: e in Entries(b) ==> Index(e.key, size) == i && e.data != NULL
  }

  // The buckets hold exactly the pairs of m.
  ghost predicate Holds(bs: seq<Bucket>, m: map<string, int>) {
    && |bs| > 0
    && (forall i {:trigger bs[i]} :: 0 <= i < |bs| ==> BucketOk(bs[i], i, |bs|))
    && (forall k {:trigger k in m} :: k in m ==> Entry(k, m[k]) in Entries(bs[Index(k, |bs|)]))
    && forall i, e {:trigger e in Entries(bs[i])} :: 0 <= i < |bs| && e in Entries(bs[i]) ==> e.key in m && m[e.key] == e.data
  }

  // Where the walk along a bucket stops.
  function Find(es: seq<Entry>, key: string): (i: int)
    ensures 0 <= i <= |es| && (i < |es| ==> es[i].key == key) && forall j :: 0 <= j < i ==> es[j].key != key
  { if |es| == 0 then 0 else if es[0].key == key then 0 else 1 + Find(es[1..], key) }

  lemma Lookup(bs: seq<Bucket>, m: map<string, int>, key: string)
    requires Holds(bs, m)
    ensures var es := Entries(bs[Index(key, |bs|)]); var i := Find(es, key);
      && (i < |es| <==> key in m) && (i < |es| ==> es[i] == Entry(key, m[key]) && m[key] != NULL)
  {
    var j := Index(key, |bs|);
    var es := Entries(bs[j]);
    var i := Find(es, key);
    if i < |es| { assert es[i] in es; }
    if key in m { assert Entry(key, m[key]) in es; }
  }

  // One bucket is changed: the other ones keep what they hold.
  lemma OneBucket(bs: seq<Bucket>, m: map<string, int>, j: int, b: Bucket, m': map<string, int>)
    requires Holds(bs, m) && 0 <= j < |bs| && BucketOk(b, j, |bs|)
    requires forall k {:trigger k in m} {:trigger k in m'} :: Index(k, |bs|) != j ==> (k in m <==> k in m') && (k in m ==> m'[k] == m[k])
    requires forall k {:trigger k in m'} :: k in m' && Index(k, |bs|) == j ==> Entry(k, m'[k]) in Entries(b)
    requires forall e {:trigger e in Entries(b)} :: e in Entries(b) ==> e.key in m' && m'[e.key] == e.data
    ensures Holds(bs[j := b], m')
  {
    hide KeySum, Entries;
    var cs := bs[j := b];
    forall i, e {:trigger e in Entries(cs[i])} | 0 <= i < |cs| && e in Entries(cs[i])
      ensures e.key in m' && m'[e.key] == e.data
    {
      if i != j {
        assert e in Entries(bs[i]) && BucketOk(bs[i], i, |bs|);
        assert e.key in m;
      }
    }
  }

  // ---- sequences of distinct keys

  ghost predicate Distinct(ks: seq<string>) { forall i, j :: 0 <= i < j < |ks| ==> ks[i] != ks[j] }

  lemma {:induction false} DistinctFew(ks: seq<string>, s: set<string>)
    requires Distinct(ks) && forall k :: k in ks ==> k in s
    ensures |ks| <= |s|
    ensures (forall k :: k in s ==> k in ks) ==> |ks| == |s|
  {
    if |ks| > 0 {
      var n := |ks| - 1;
      var rest, k := ks[..n], ks[n];
      assert ks == rest + [k];
      assert k !in rest;
      assert forall x :: x in rest ==> x in s - {k};
      DistinctFew(rest, s - {k});
      if forall x :: x in s ==> x in ks { assert forall x :: x in s - {k} ==> x in rest; }
    } else if forall k :: k in s ==> k in ks {
      assert s == {};
    }
  }

  // ---- what the operations do to a bucket

  function Appended(b: Bucket, e: Entry): Bucket {
    if b.key == None then Bucket(Some(e.key), e.data, []) else b.(rest := b.rest + [e])
  }

  function Replaced(b: Bucket, i: int, data: int): Bucket
    requires 0 <= i < |Entries(b)|
  { if i == 0 then b.(data := data) else b.(rest := b.rest[i - 1 := b.rest[i - 1].(data := data)]) }

  // The successor of a deleted head moves into the table.
  function Removed(b: Bucket, i: int): Bucket
    requires 0 <= i < |Entries(b)|
  {
    if i > 0 then b.(rest := b.rest[..i - 1] + b.rest[i..])
    else if |b.rest| == 0 then EMPTY
    else Bucket(Some(b.rest[0].key), b.rest[0].data, b.rest[1..])
  }

  lemma AppendedIs(bs: seq<Bucket>, m: map<string, int>, key: string, data: int)
    requires Holds(bs, m) && key !in m && data != NULL
    ensures var j := Index(key, |bs|); Holds(bs[j := Appended(bs[j], Entry(key, data))], m[key := data])
  {
    var j := Index(key, |bs|);
    var b, e := bs[j], Entry(key, data);
    assert BucketOk(b, j, |bs|);
    assert Entries(Appended(b, e)) == Entries(b) + [e];
    forall i | 0 <= i < |Entries(b)|
      ensures Entries(b)[i].key != key
    {
      assert Entries(b)[i] in Entries(b);
    }
    OneBucket(bs, m, j, Appended(b, e), m[key := data]);
  }

  lemma DroppedAt(es: seq<Entry>, i: int)
    requires 0 <= i < |es| && DistinctKeys(es)
    ensures var fs := es[..i] + es[i + 1..]; DistinctKeys(fs) && forall e {:trigger e in fs} {:trigger e in es} :: e in fs <==> e in es && e.key != es[i].key
  {
    var fs := es[..i] + es[i + 1..];
    forall e {:trigger e in fs} {:trigger e in es}
      ensures e in fs <==> e in es && e.key != es[i].key
    {
      if e in es && e.key != es[i].key {
        var n :| 0 <= n < |es| && es[n] == e;
        assert fs[if n < i then n else n - 1] == e;
      }
      if e in fs {
        var n :| 0 <= n < |fs| && fs[n] == e;
        assert es[if n < i then n else n + 1] == e;
      }
    }
  }

  lemma ReplacedAt(es: seq<Entry>, i: int, f: Entry)
    requires 0 <= i < |es| && DistinctKeys(es) && f.key == es[i].key
    ensures var fs := es[i := f]; DistinctKeys(fs) && forall e {:trigger e in fs} {:trigger e in es} :: e in fs <==> e == f || (e in es && e.key != f.key)
  {
    var fs := es[i := f];
    assert fs[i] == f;
    forall e {:trigger e in fs} {:trigger e in es}
      ensures e in fs <==> e == f || (e in es && e.key != f.key)
    {
      if e in es && e.key != f.key {
        var n :| 0 <= n < |es| && es[n] == e;
        assert fs[n] == e;
      }
      if e in fs && e != f {
        var n :| 0 <= n < |fs| && fs[n] == e;
        assert es[n] == e && n != i;
      }
    }
  }

  lemma ReplacedIs(bs: seq<Bucket>, m: map<string, int>, key: string, data: int, i: int)
    requires Holds(bs, m) && key in m && data != NULL && i == Find(Entries(bs[Index(key, |bs|)]), key)
    ensures var j := Index(key, |bs|); i < |Entries(bs[j])| && Holds(bs[j := Replaced(bs[j], i, data)], m[key := data])
  {
    var j := Index(key, |bs|);
    var b := bs[j];
    Lookup(bs, m, key);
    assert BucketOk(b, j, |bs|);
    var es, fs := Entries(b), Entries(Replaced(b, i, data));
    assert fs == es[i := Entry(key, data)];
    ReplacedAt(es, i, Entry(key, data));
    BucketChanged(bs, m, j, Replaced(b, i, data), m[key := data], key);
  }

  lemma RemovedIs(bs: seq<Bucket>, m: map<string, int>, key: string, i: int)
    requires Holds(bs, m) && key in m && i == Find(Entries(bs[Index(key, |bs|)]), key)
    ensures var j := Index(key, |bs|); i < |Entries(bs[j])| && Holds(bs[j := Removed(bs[j], i)], m - {key})
  {
    var j := Index(key, |bs|);
    var b := bs[j];
    Lookup(bs, m, key);
    assert BucketOk(b, j, |bs|);
    RemovedEntries(b, i);
    DroppedAt(Entries(b), i);
    BucketChanged(bs, m, j, Removed(b, i), m - {key}, key);
  }

  lemma RemovedEntries(b: Bucket, i: int)
    requires 0 <= i < |Entries(b)|
    ensures Entries(Removed(b, i)) == Entries(b)[..i] + Entries(b)[i + 1..]
    ensures Removed(b, i).key == None ==> Removed(b, i) == EMPTY
  {
  }

  // The pairs of bucket j are as before, but for the one of key.
  lemma BucketChanged(bs: seq<Bucket>, m: map<string, int>, j: int, b: Bucket, m': map<string, int>, key: string)
    requires Holds(bs, m) && 0 <= j < |bs| && Index(key, |bs|) == j && m' - {key} == m - {key}
    requires (b.key == None ==> b == EMPTY) && DistinctKeys(Entries(b))
    requires forall e {:trigger e in Entries(b)} :: e in Entries(b) <==> (if e.key == key then key in m' && e.data == m'[key] else e in Entries(bs[j]))
    requires key in m' ==> m'[key] != NULL
    ensures Holds(bs[j := b], m')
  {
    hide KeySum, Entries;
    ChangedOk(bs, m, j, b, m', key);
    ElseSame(m, m', key);
    hide DistinctKeys, Holds, BucketOk;
    forall k {:trigger k in m'} | k in m' && Index(k, |bs|) == j
      ensures Entry(k, m'[k]) in Entries(b)
    {
      if k != key { PairIn(bs, m, k); }
    }
    forall e {:trigger e in Entries(b)} | e in Entries(b)
      ensures e.key in m' && m'[e.key] == e.data
    {
      if e.key != key { InPair(bs, m, j, e); }
    }
    OneBucket(bs, m, j, b, m');
  }

  lemma ChangedOk(bs: seq<Bucket>, m: map<string, int>, j: int, b: Bucket, m': map<string, int>, key: string)
    requires Holds(bs, m) && 0 <= j < |bs| && Index(key, |bs|) == j
    requires (b.key == None ==> b == EMPTY) && DistinctKeys(Entries(b))
    requires forall e {:trigger e in Entries(b)} :: e in Entries(b) <==> (if e.key == key then key in m' && e.data == m'[key] else e in Entries(bs[j]))
    requires key in m' ==> m'[key] != NULL
    ensures BucketOk(b, j, |bs|)
  {
    hide KeySum, Entries, DistinctKeys;
    assert BucketOk(bs[j], j, |bs|);
  }

  lemma ElseSame(m: map<string, int>, m': map<string, int>, key: string)
    requires m' - {key} == m - {key}
    ensures forall k {:trigger k in m} {:trigger k in m'} :: k != key ==> (k in m <==> k in m') && (k in m ==> m'[k] == m[k])
  {
    forall k {:trigger k in m} {:trigger k in m'} | k != key
      ensures (k in m <==> k in m') && (k in m ==> m'[k] == m[k])
    {
      assert k in m <==> k in m - {key};
      assert k in m' <==> k in m' - {key};
      if k in m { assert (m' - {key})[k] == (m - {key})[k]; }
    }
  }

  lemma PairIn(bs: seq<Bucket>, m: map<string, int>, k: string)
    requires Holds(bs, m) && k in m
    ensures Entry(k, m[k]) in Entries(bs[Index(k, |bs|)])
  {
  }

  lemma InPair(bs: seq<Bucket>, m: map<string, int>, j: int, e: Entry)
    requires Holds(bs, m) && 0 <= j < |bs| && e in Entries(bs[j])
    ensures e.key in m && m[e.key] == e.data
  {
  }

  lemma OneLess(m: map<string, int>, key: string)
    requires key in m
    ensures |m - {key}| == |m| - 1
  {
    assert (m - {key})[key := m[key]] == m;
  }

  lemma SameSize(m: map<string, int>, key: string, data: int)
    requires key in m
    ensures |m[key := data]| == |m|
  {
    assert m[key := data].Keys == m.Keys;
    assert |m[key := data]| == |m[key := data].Keys| == |m.Keys| == |m|;
  }

  // ---- the table

  class ListEnt {
    var key: Option<string>
    var data: int
    var next: ListEnt?

    constructor (key: Option<string>, data: int)
      ensures this.key == key && this.data == data && next == null
    {
      this.key, this.data, next := key, data, null;
    }
  }

  ghost predicate NoRepeat(chain: seq<ListEnt>) { forall i, j :: 0 <= i < j < |chain| ==> chain[i] != chain[j] }

  // The nodes of a bucket, head first, hold b.
  ghost predicate ChainOk(chain: seq<ListEnt>, b: Bucket)
    reads chain
  {
    && |chain| == 1 + |b.rest| && chain[0].key == b.key && chain[0].data == b.data && NoRepeat(chain)
    && (forall j {:trigger chain[j].next} :: 0 <= j < |chain| ==> chain[j].next == if j + 1 < |chain| then chain[j + 1] else null)
    && (forall j {:trigger chain[j].key} {:trigger chain[j].data} :: 0 < j < |chain| ==>
          chain[j].key == Some(b.rest[j - 1].key) && chain[j].data == b.rest[j - 1].data)
  }

  // Each node belongs to one bucket.
  ghost predicate Owned(chain: seq<ListEnt>, owner: map<ListEnt, int>, i: int) {
    && (forall n {:trigger n in owner} :: n in chain ==> n in owner)
    && forall j {:trigger chain[j]} :: 0 <= j < |chain| ==> chain[j] in owner && owner[chain[j]] == i
  }

  twostate predicate Same(n: ListEnt)
    reads n
  { n.key == old(n.key) && n.data == old(n.data) && n.next == old(n.next) }

  twostate lemma Untouched(chain: seq<ListEnt>, new b: Bucket)
    requires old(ChainOk(chain, b)) && forall j {:trigger chain[j]} :: 0 <= j < |chain| ==> Same(chain[j])
    ensures ChainOk(chain, b)
  {
  }

  twostate lemma Extended(chain: seq<ListEnt>, new b: Bucket, new newent: ListEnt, new e: Entry)
    requires old(ChainOk(chain, b)) && newent !in chain && newent.key == Some(e.key) && newent.data == e.data && newent.next == null
    requires forall j {:trigger chain[j]} :: 0 <= j < |chain| - 1 ==> Same(chain[j])
    requires chain[|chain| - 1].key == old(chain[|chain| - 1].key) && chain[|chain| - 1].data == old(chain[|chain| - 1].data)
    requires chain[|chain| - 1].next == newent
    ensures ChainOk(chain + [newent], b.(rest := b.rest + [e]))
  {
  }

  twostate lemma Overwritten(chain: seq<ListEnt>, new b: Bucket, new j: int, new data: int)
    requires old(ChainOk(chain, b)) && 0 <= j < |chain| && b.key != None
    requires forall k {:trigger chain[k]} :: 0 <= k < |chain| && k != j ==> Same(chain[k])
    requires chain[j].key == old(chain[j].key) && chain[j].next == old(chain[j].next) && chain[j].data == data
    ensures j < |Entries(b)| && ChainOk(chain, Replaced(b, j, data))
  {
  }

  ghost function DropAt(chain: seq<ListEnt>, j: int): seq<ListEnt>
    requires 0 <= j < |chain|
  { chain[..j] + chain[j + 1..] }

  // The node after j is taken out.
  twostate lemma Unlinked(chain: seq<ListEnt>, new b: Bucket, new j: int)
    requires old(ChainOk(chain, b)) && 0 <= j < |chain| - 1 && b.key != None
    requires forall k {:trigger chain[k]} :: 0 <= k < |chain| && k != j ==> Same(chain[k])
    requires chain[j].key == old(chain[j].key) && chain[j].data == old(chain[j].data) && chain[j].next == old(chain[j + 1].next)
    ensures j + 1 < |Entries(b)| && ChainOk(DropAt(chain, j + 1), Removed(b, j + 1))
  {
    var c, b' := DropAt(chain, j + 1), Removed(b, j + 1);
    DropNode(chain, j + 1);
    RemovedRest(b, j + 1);
    hide *;
    forall k {:trigger NodeAt(c, b', k)} | 0 <= k < |c|
      ensures NodeAt(c, b', k)
    {
      UnlinkedNode(chain, b, j, k);
    }
    Assembled(c, b');
  }

  twostate lemma UnlinkedNode(chain: seq<ListEnt>, new b: Bucket, new j: int, new k: int)
    requires old(ChainOk(chain, b)) && 0 <= j < |chain| - 1 && 0 <= k < |chain| - 1 && b.key != None
    requires forall k {:trigger chain[k]} :: 0 <= k < |chain| && k != j ==> Same(chain[k])
    requires chain[j].key == old(chain[j].key) && chain[j].data == old(chain[j].data) && chain[j].next == old(chain[j + 1].next)
    ensures |DropAt(chain, j + 1)| == 1 + |Removed(b, j + 1).rest| == |chain| - 1 && j + 1 < |Entries(b)|
    ensures NodeAt(DropAt(chain, j + 1), Removed(b, j + 1), k)
  {
    DropNode(chain, j + 1);
    RemovedRest(b, j + 1);
    UnlinkedAt(chain, b, j, if k <= j then k else k + 1);
    hide Same, NoRepeat, DropAt, Removed, Entries, ChainOk;
    PlacedNode(chain, DropAt(chain, j + 1), b, Removed(b, j + 1), j, k);
  }

  lemma PlacedNode(chain: seq<ListEnt>, c: seq<ListEnt>, b: Bucket, b': Bucket, j: int, k: int)
    requires |chain| == 1 + |b.rest| && |c| == |chain| - 1 == 1 + |b'.rest| && 0 <= j < |chain| - 1 && 0 <= k < |c|
    requires b'.key == b.key && b'.data == b.data
    requires forall i {:trigger c[i]} :: 0 <= i < |c| ==> c[i] == chain[if i < j + 1 then i else i + 1]
    requires forall i {:trigger b'.rest[i]} :: 0 <= i < |b'.rest| ==> b'.rest[i] == b.rest[if i < j then i else i + 1]
    requires var q := chain[if k <= j then k else k + 1];
      && q.next == (if k == j then (if j + 2 < |chain| then chain[j + 2] else null)
                    else if k < j then chain[k + 1] else if k + 2 < |chain| then chain[k + 2] else null)
      && if k == 0 then q.key == b.key && q.data == b.data
         else var e := b.rest[if k <= j then k - 1 else k]; q.key == Some(e.key) && q.data == e.data
    ensures NodeAt(c, b', k)
  {
    assert k + 1 < |c| ==> c[k + 1] == chain[if k < j then k + 1 else k + 2];
    assert k > 0 ==> b'.rest[k - 1] == b.rest[if k <= j then k - 1 else k];
  }

  ghost predicate NodeAt(chain: seq<ListEnt>, b: Bucket, k: int)
    requires 0 <= k < |chain| == 1 + |b.rest|
    reads chain[k]
  {
    && chain[k].next == (if k + 1 < |chain| then chain[k + 1] else null)
    && (if k == 0 then chain[0].key == b.key && chain[0].data == b.data
        else chain[k].key == Some(b.rest[k - 1].key) && chain[k].data == b.rest[k - 1].data)
  }

  lemma Assembled(chain: seq<ListEnt>, b: Bucket)
    requires |chain| == 1 + |b.rest| && NoRepeat(chain) && forall k {:trigger NodeAt(chain, b, k)} :: 0 <= k < |chain| ==> NodeAt(chain, b, k)
    ensures ChainOk(chain, b)
  {
    forall j {:trigger chain[j]} | 0 <= j < |chain|
      ensures NodeAt(chain, b, j)
    {
    }
  }

  lemma RemovedRest(b: Bucket, j: int)
    requires b.key != None && 0 < j <= |b.rest|
    ensures |Entries(b)| == 1 + |b.rest| && Removed(b, j).key == b.key && Removed(b, j).data == b.data && |Removed(b, j).rest| == |b.rest| - 1
    ensures forall k {:trigger Removed(b, j).rest[k]} :: 0 <= k < |b.rest| - 1 ==> Removed(b, j).rest[k] == b.rest[if k < j - 1 then k else k + 1]
  {
  }

  lemma DropNode(chain: seq<ListEnt>, j: int)
    requires NoRepeat(chain) && 0 <= j < |chain|
    ensures NoRepeat(DropAt(chain, j)) && |DropAt(chain, j)| == |chain| - 1
    ensures forall k {:trigger DropAt(chain, j)[k]} :: 0 <= k < |chain| - 1 ==> DropAt(chain, j)[k] == chain[if k < j then k else k + 1]
  {
  }

  twostate lemma UnlinkedAt(chain: seq<ListEnt>, new b: Bucket, new j: int, new k: int)
    requires old(ChainOk(chain, b)) && 0 <= j < |chain| - 1 && 0 <= k < |chain| && k != j + 1
    requires k != j ==> Same(chain[k])
    requires chain[j].key == old(chain[j].key) && chain[j].data == old(chain[j].data) && chain[j].next == old(chain[j + 1].next)
    ensures chain[k].next == if k == j then (if j + 2 < |chain| then chain[j + 2] else null) else if k + 1 < |chain| then chain[k + 1] else null
    ensures |chain| == 1 + |b.rest|
    ensures if k == 0 then chain[k].key == b.key && chain[k].data == b.data else chain[k].key == Some(b.rest[k - 1].key) && chain[k].data == b.rest[k - 1].data
  {
    assert old(chain[j + 1].next) == if j + 2 < |chain| then chain[j + 2] else null;
  }

  // The second node moves into the head.
  twostate lemma Shifted(chain: seq<ListEnt>, new b: Bucket)
    requires old(ChainOk(chain, b)) && |chain| > 1 && b.key != None
    requires forall k {:trigger chain[k]} :: 0 < k < |chain| ==> Same(chain[k])
    requires chain[0].key == old(chain[1].key) && chain[0].data == old(chain[1].data) && chain[0].next == old(chain[1].next)
    ensures ChainOk([chain[0]] + chain[2..], Removed(b, 0))
  {
  }

  class Hash {
    const ent: array<ListEnt>   // the heads of the buckets
    var elmnbr: int
    ghost var chains: seq<seq<ListEnt>>
    ghost var owner: map<ListEnt, int>
    ghost var buckets: seq<Bucket>
    ghost var contents: map<string, int>

    ghost predicate Linked()
      reads `chains, `owner, `buckets, ent, owner.Keys
    {
      && |chains| == |buckets| == ent.Length > 0
      && forall i {:trigger chains[i]} :: 0 <= i < |chains| ==>
        Owned(chains[i], owner, i) && ChainOk(chains[i], buckets[i]) && chains[i][0] == ent[i]
    }

    ghost predicate Valid()
      reads this, ent, owner.Keys
    { Linked() && Holds(buckets, contents) && elmnbr == |contents| }

    lemma LinkedAt(index: int)
      requires Linked()
      ensures |chains| == |buckets| == ent.Length > 0
      ensures 0 <= index < |chains| ==> Owned(chains[index], owner, index) && ChainOk(chains[index], buckets[index])
      ensures 0 <= index < |chains| ==> |chains[index]| > 0 && chains[index][0] == ent[index]
    {
    }

    lemma NodeOwned(index: int, j: int)
      requires Linked() && 0 <= index < |chains| && 0 <= j < |chains[index]|
      ensures chains[index][j] in owner && owner[chains[index][j]] == index
    {
    }

    // The chain of bucket index has been rewritten.
    twostate lemma Relinked(index: int, new chain: seq<ListEnt>, new b: Bucket)
      requires old(Linked()) && 0 <= index < |old(chains)| && ent[..] == old(ent[..])
      requires chains == old(chains)[index := chain] && buckets == old(buckets)[index := b]
      requires forall n {:trigger n in old(owner)} :: n in old(owner) ==> n in owner && owner[n] == old(owner)[n] && (owner[n] != index ==> Same(n))
      requires Owned(chain, owner, index) && ChainOk(chain, b) && chain[0] == ent[index]
      ensures Linked()
    {
      assert forall k :: 0 <= k < ent.Length ==> ent[k] == ent[..][k] == old(ent[..])[k] == old(ent[k]);
      forall k {:trigger chains[k]} | 0 <= k < |chains| && k != index
        ensures Owned(chains[k], owner, k) && ChainOk(chains[k], buckets[k]) && chains[k][0] == ent[k]
      {
        assert chains[k] == old(chains)[k] && buckets[k] == old(buckets)[k];
        assert old(Owned(chains[k], owner, k) && ChainOk(chains[k], buckets[k]) && chains[k][0] == ent[k]);
        Untouched(chains[k], buckets[k]);
      }
    }

    // hash_init
    constructor (size: int)
      requires size > 0
      ensures Valid() && fresh(ent) && fresh(owner.Keys) && contents == map[] && ent.Length == size
    {
      var first := new ListEnt(None, NULL);
      var heads := new ListEnt[size](_ => first);
      ghost var cs: seq<seq<ListEnt>>, own: map<ListEnt, int> := [], map[];
      var i := 0;
      while i < size
        invariant 0 <= i <= size && |cs| == i && fresh(heads) && fresh(own.Keys)
        invariant forall k {:trigger cs[k]} :: 0 <= k < i ==> cs[k] == [heads[k]] && heads[k] in own && Owned(cs[k], own, k) && ChainOk(cs[k], EMPTY)
      {
        var head := new ListEnt(None, NULL);
        heads[i] := head;
        own := own[head := i];
        cs := cs + [[head]];
        i := i + 1;
      }
      ent := heads;
      elmnbr := 0;
      chains, owner, buckets, contents := cs, own, seq(size, _ => EMPTY), map[];
    }

    // The walk of hash_get and hash_get_ent: it ends at the entry, past the chain, or at an empty head.
    method Walk(key: string) returns (index: int, actual: ListEnt?, ghost i: int)
      requires Valid()
      ensures index == Index(key, ent.Length) && i == Find(Entries(buckets[index]), key)
      ensures i < |Entries(buckets[index])| <==> key in contents
      ensures key in contents ==> buckets[index].key != None && i < |chains[index]| && actual == chains[index][i] && actual in owner
      ensures key in contents ==> actual != null && actual.key == Some(key) && actual.data == contents[key] != NULL
      ensures key !in contents ==> actual == null || (actual == ent[index] && actual.key == None && actual.data == NULL)
    {
      hide KeySum, Holds;
      index := HashKey(key, ent.Length);
      Lookup(buckets, contents, key);
      BucketIs(buckets, contents, index);
      ghost var chain, es := chains[index], Entries(buckets[index]);
      actual, i := ent[index], 0;
      if actual.key == None { return; }
      while actual != null && actual.key != None && actual.key.value != key
        invariant 0 <= i <= |es| == |chain| && actual == (if i < |chain| then chain[i] else null)
        invariant Find(es, key) == i + Find(es[i..], key)
        decreases |chain| - i
      {
        assert chain[i].next == if i + 1 < |chain| then chain[i + 1] else null;
        EntryIs(chain, buckets[index], i);
        assert es[i..][1..] == es[i + 1..];
        actual, i := actual.next, i + 1;
      }
      if i < |chain| { EntryIs(chain, buckets[index], i); }
    }

    // hash_get
    method Get(key: string) returns (data: int)
      requires Valid()
      ensures data == if key in contents then contents[key] else NULL
      ensures data != NULL <==> key in contents
    {
      var index, actual;
      ghost var i;
      index, actual, i := Walk(key);
      data := if actual != null then actual.data else NULL;
    }

    // hash_add
    method Add(key: string, data: int) returns (ret: int)
      requires Valid() && data != NULL
      modifies this, owner.Keys
      ensures Valid() && contents == old(contents)[key := data] && fresh(owner.Keys - old(owner.Keys))
      ensures ret == if key in old(contents) then 0 else Index(key, ent.Length)
      decreases if key in contents then 1 else 0
    {
      hide Holds, Appended, KeySum, ChainOk, Owned, Entries;
      var actual := Get(key);
      if actual != NULL {
        ret := Set(key, data);
      } else {
        ret := HashKey(key, ent.Length);
        AppendedIs(buckets, contents, key, data);
        BucketIs(buckets, contents, ret);
        Append(ret, key, data);
        elmnbr := elmnbr + 1;
        contents := contents[key := data];
      }
    }

    // A new entry goes into an empty head, or to the end of the chain.
    method Append(index: int, key: string, data: int)
      requires Linked() && 0 <= index < |buckets| && (buckets[index].key == None ==> buckets[index] == EMPTY)
      modifies this`chains, this`owner, this`buckets, owner.Keys
      ensures Linked() && buckets == old(buckets)[index := Appended(old(buckets)[index], Entry(key, data))]
      ensures fresh(owner.Keys - old(owner.Keys))
    {
      ghost var chain, b := chains[index], buckets[index];
      var head := ent[index];
      if head.key == None {
        head.key := Some(key);
        head.data := data;
        buckets := buckets[index := Appended(b, Entry(key, data))];
      } else {
        AppendLast(index, key, data);
        return;
      }
      Relinked(index, chains[index], buckets[index]);
    }

    method AppendLast(index: int, key: string, data: int)
      requires Linked() && 0 <= index < |buckets| && buckets[index].key != None
      modifies this`chains, this`owner, this`buckets, owner.Keys
      ensures Linked() && buckets == old(buckets)[index := Appended(old(buckets)[index], Entry(key, data))]
      ensures fresh(owner.Keys - old(owner.Keys))
    {
      hide Linked, Owned, ChainOk, NoRepeat, KeySum, Index, Entries, Appended, Removed, Find;
      LinkedAt(index);
      ghost var chain, b := chains[index], buckets[index];
      var last := Last(index);
      NodeOwned(index, |chain| - 1);
      var newent := LinkAfter(last, key, data, chain, b);
      OwnedMore(chain, owner, index, newent);
      assert forall n {:trigger n in old(owner)} :: n in old(owner) && n != last ==> Same(n);
      owner := owner[newent := index];
      ghost var longer, b' := chain + [newent], Appended(b, Entry(key, data));
      AppendedTail(b, Entry(key, data));
      chains := chains[index := longer];
      buckets := buckets[index := b'];
      Relinked(index, longer, b');
    }

    method LinkAfter(last: ListEnt, key: string, data: int, ghost chain: seq<ListEnt>, ghost b: Bucket) returns (newent: ListEnt)
      requires ChainOk(chain, b) && |chain| > 0 && last == chain[|chain| - 1]
      modifies last`next
      ensures fresh(newent) && ChainOk(chain + [newent], b.(rest := b.rest + [Entry(key, data)]))
    {
      newent := new ListEnt(Some(key), data);
      last.next := newent;
      Extended(chain, b, newent, Entry(key, data));
    }

    method Last(index: int) returns (last: ListEnt)
      requires Linked() && 0 <= index < |chains|
      ensures last == chains[index][|chains[index]| - 1]
    {
      ghost var chain := chains[index];
      last := ent[index];
      ghost var j := 0;
      while last.next != null
        invariant 0 <= j < |chain| && last == chain[j] && last.next == (if j + 1 < |chain| then chain[j + 1] else null)
        decreases |chain| - j
      {
        last, j := last.next, j + 1;
      }
    }

    // hash_set
    method Set(key: string, data: int) returns (ret: int)
      requires Valid() && data != NULL
      modifies this, owner.Keys
      ensures Valid() && contents == old(contents)[key := data] && fresh(owner.Keys - old(owner.Keys))
      ensures ret == if key in old(contents) then 0 else Index(key, ent.Length)
      decreases if key in contents then 0 else 1
    {
      hide Holds, Replaced, Find, KeySum, ChainOk, Owned, Entries;
      var index, actual;
      ghost var i;
      index, actual, i := Walk(key);
      if actual == null || (actual.key == None && actual.data == NULL) {
        ret := Add(key, data);
      } else {
        ReplacedIs(buckets, contents, key, data, i);
        Overwrite(index, actual, i, data);
        contents := contents[key := data];
        SameSize(old(contents), key, data);
        ret := 0;
      }
    }

    method Overwrite(index: int, actual: ListEnt, ghost i: int, data: int)
      requires Linked() && 0 <= index < |buckets| && buckets[index].key != None && 0 <= i < |chains[index]| && actual == chains[index][i]
      modifies actual`data, this`buckets
      ensures Linked() && i < |Entries(old(buckets)[index])| && buckets == old(buckets)[index := Replaced(old(buckets)[index], i, data)]
      ensures owner == old(owner)
    {
      ghost var b := buckets[index];
      actual.data := data;
      Overwritten(chains[index], b, i, data);
      buckets := buckets[index := Replaced(b, i, data)];
      Relinked(index, chains[index], buckets[index]);
    }

    // hash_del
    method Del(key: string) returns (ret: int)
      requires Valid()
      modifies this, owner.Keys
      ensures Valid() && contents == old(contents) - {key} && ret == (if key in old(contents) then 0 else -1) && owner == old(owner)
    {
      hide Holds, Removed, Find, KeySum, ChainOk, Owned, Entries, Linked, Index;
      LinkedAt(0);
      IndexIs(key, ent.Length);
      var index := HashKey(key, ent.Length);
      Lookup(buckets, contents, key);
      BucketIs(buckets, contents, index);
      if key in contents { RemovedIs(buckets, contents, key, Find(Entries(buckets[index]), key)); }
      ghost var i, found := Find(Entries(buckets[index]), key), key in contents;
      ret := Remove(index, key, i);
      if ret == 0 {
        OneLess(contents, key);
        elmnbr := elmnbr - 1;
      }
      assert !found ==> contents - {key} == contents;
      contents := contents - {key};
    }

    method Remove(index: int, key: string, ghost i: int) returns (ret: int)
      requires Linked() && 0 <= index < |buckets| && i == Find(Entries(buckets[index]), key) && (buckets[index].key == None ==> buckets[index] == EMPTY)
      modifies this`chains, this`buckets, owner.Keys
      ensures Linked() && ret == if i < |Entries(old(buckets)[index])| then 0 else -1
      ensures buckets == if i < |Entries(old(buckets)[index])| then old(buckets)[index := Removed(old(buckets)[index], i)] else old(buckets)
    {
      hide Linked, Owned, ChainOk, NoRepeat, KeySum, Index, Entries, Appended, Removed, Find;
      LinkedAt(index);
      ghost var chain, b := chains[index], buckets[index];
      var actual := ent[index];
      if actual.key == Some(key) {
        RemoveHead(index, actual, key);
        return 0;
      }
      ghost var j;
      actual, j := Before(index, key, i);
      if actual.next == null { return -1; }
      RemoveNext(index, actual, j);
      return 0;
    }

    method RemoveNext(index: int, actual: ListEnt, ghost j: int)
      requires Linked() && 0 <= index < |buckets| && 0 <= j < |chains[index]| && actual == chains[index][j]
      requires actual.next != null && buckets[index].key != None
      modifies this`chains, this`buckets, actual`next
      ensures Linked() && j + 1 < |Entries(old(buckets)[index])| && buckets == old(buckets)[index := Removed(old(buckets)[index], j + 1)]
    {
      hide Linked, Owned, ChainOk, NoRepeat, KeySum, Index, Entries, Appended, Removed, Find, DropAt, Holds;
      LinkedAt(index);
      ghost var chain, b := chains[index], buckets[index];
      NodeOwned(index, j);
      Bypass(actual, chain, b, j);
      RelinkShorter(chain, owner, index, j + 1);
      ghost var shorter, b' := DropAt(chain, j + 1), Removed(b, j + 1);
      chains, buckets := chains[index := shorter], buckets[index := b'];
      Relinked(index, shorter, b');
    }

    method Bypass(actual: ListEnt, ghost chain: seq<ListEnt>, ghost b: Bucket, ghost j: int)
      requires ChainOk(chain, b) && 0 <= j < |chain| && actual == chain[j] && actual.next != null && b.key != None
      modifies actual`next
      ensures j + 1 < |chain| && j + 1 < |Entries(b)| && ChainOk(DropAt(chain, j + 1), Removed(b, j + 1))
    {
      var todel := actual.next;
      assert todel == chain[j + 1];
      actual.next := todel.next;
      Unlinked(chain, b, j);
    }

    // The entry whose successor has the key, or the last one.
    method Before(index: int, key: string, ghost i: int) returns (actual: ListEnt, ghost j: int)
      requires Linked() && 0 <= index < |chains| && i == Find(Entries(buckets[index]), key) && ent[index].key != Some(key)
      requires buckets[index].key == None ==> buckets[index] == EMPTY
      ensures 0 <= j < |chains[index]| && actual == chains[index][j]
      ensures actual.next == null <==> i == |Entries(buckets[index])|
      ensures actual.next != null ==> i == j + 1 && buckets[index].key != None
    {
      ghost var chain, b := chains[index], buckets[index];
      ghost var es := Entries(b);
      actual, j := ent[index], 0;
      while actual.next != null && actual.next.key != None && actual.next.key.value != key
        invariant 0 <= j < |chain| && actual == chain[j] && (|es| > 0 ==> i == j + 1 + Find(es[j + 1..], key))
        decreases |chain| - j
      {
        assert chain[j].next == if j + 1 < |chain| then chain[j + 1] else null;
        EntryIs(chain, b, j + 1);
        assert es[j + 1..][1..] == es[j + 2..];
        actual, j := actual.next, j + 1;
      }
      assert chain[j].next == if j + 1 < |chain| then chain[j + 1] else null;
      if actual.next != null { EntryIs(chain, b, j + 1); }
    }

    method RemoveHead(index: int, actual: ListEnt, ghost key: string)
      requires Linked() && 0 <= index < |buckets| && actual == ent[index] && actual.key == Some(key)
      modifies this`chains, this`buckets, actual
      ensures Linked() && Find(Entries(old(buckets)[index]), key) == 0 < |Entries(old(buckets)[index])|
      ensures buckets == old(buckets)[index := Removed(old(buckets)[index], 0)]
    {
      ghost var chain, b := chains[index], buckets[index];
      EntryIs(chain, b, 0);
      assert Entries(b)[0].key == key;
      var todel := actual.next;
      assert chain[0].next == if 1 < |chain| then chain[1] else null;
      if todel != null {
        assert chain[1].key == Some(b.rest[0].key);
        actual.key, actual.data, actual.next := todel.key, todel.data, todel.next;
        Shifted(chain, b);
        chains := chains[index := [chain[0]] + chain[2..]];
      } else {
        actual.key, actual.data, actual.next := None, NULL, null;
      }
      buckets := buckets[index := Removed(b, 0)];
      Relinked(index, chains[index], buckets[index]);
    }

    // The walk along bucket index of a table is at its i-th entry.
    ghost predicate At(index: int, i: int, actual: ListEnt?)
      requires Valid() && 0 <= index < |buckets|
      reads this, ent, owner.Keys
    { 0 <= i <= |chains[index]| && actual == (if i < |chains[index]| then chains[index][i] else null) && i <= |Entries(buckets[index])| }

    lemma StartsAt(index: int)
      requires Valid() && 0 <= index < |buckets|
      ensures index < ent.Length && At(index, 0, ent[index])
    {
      LinkedAt(index);
    }

    lemma Moves(index: int, i: int, actual: ListEnt)
      requires Valid() && 0 <= index < |buckets| && At(index, i, actual) && actual.key != None
      ensures i < |Entries(buckets[index])| && actual.key == Some(Entries(buckets[index])[i].key) && actual.data == Entries(buckets[index])[i].data
      ensures actual in owner && At(index, i + 1, actual.next) && actual.data != NULL
    {
      hide Holds, KeySum;
      LinkedAt(index);
      BucketIs(buckets, contents, index);
      EntryIs(chains[index], buckets[index], i);
      EntriesOk(buckets, contents, index);
      assert chains[index][i].next == if i + 1 < |chains[index]| then chains[index][i + 1] else null;
      assert Entries(buckets[index])[i] in Entries(buckets[index]);
    }

    lemma EndsAt(index: int, i: int, actual: ListEnt?)
      requires Valid() && 0 <= index < |buckets| && At(index, i, actual) && (actual == null || actual.key == None)
      ensures i == |Entries(buckets[index])|
    {
      hide Holds, KeySum;
      LinkedAt(index);
      BucketIs(buckets, contents, index);
      if buckets[index].key != None && i < |chains[index]| { EntryIs(chains[index], buckets[index], i); }
    }

    // hash_get_keys: the keys in the order of the buckets, and a terminator
    method Keys() returns (r: array?<Option<string>>, n: int)
      requires Valid()
      ensures n == elmnbr == |Listing(buckets)| && (r == null <==> n == 0)
      ensures r != null ==> fresh(r) && r.Length == n + 1 && r[n] == None && forall i :: 0 <= i < n ==> r[i] == Some(Listing(buckets)[i].key)
    {
      hide Holds, KeySum, Linked, ChainOk, Owned, Entries, Flat;
      ghost var bs := buckets;
      ListingIs(bs, contents);
      if elmnbr == 0 { return null, 0; }
      var keys := new Option<string>[elmnbr + 1](_ => None);
      var last, idx := 0, 0;
      FlatNone(bs);
      LinkedAt(0);
      while idx < ent.Length
        invariant 0 <= idx <= ent.Length && last == |Flat(bs, idx)| && last <= elmnbr
        invariant forall i :: 0 <= i < last ==> keys[i] == Some(Flat(bs, idx)[i].key)
        modifies keys
      {
        FlatPrefix(bs, idx + 1);
        FlatMore(bs, idx);
        last := BucketKeys(keys, idx, Flat(bs, idx), last);
        idx := idx + 1;
      }
      keys[last] := None;
      return keys, elmnbr;
    }

    method BucketKeys(keys: array<Option<string>>, index: int, ghost before: seq<Entry>, last0: int) returns (last: int)
      requires Valid() && 0 <= index < |buckets|
      requires last0 == |before| && last0 + |Entries(buckets[index])| < keys.Length && forall i :: 0 <= i < last0 ==> keys[i] == Some(before[i].key)
      modifies keys
      ensures last == |before + Entries(buckets[index])| && forall i :: 0 <= i < last ==> keys[i] == Some((before + Entries(buckets[index]))[i].key)
    {
      hide Holds, KeySum, Linked, Owned, ChainOk, Entries;
      LinkedAt(index);
      ghost var es := Entries(buckets[index]);
      last := last0;
      var curelem: ListEnt? := ent[index];
      ghost var i := 0;
      StartsAt(index);
      while curelem != null && curelem.key != None
        invariant At(index, i, curelem) && last == last0 + i && forall j :: 0 <= j < last ==> keys[j] == Some((before + es)[j].key)
        modifies keys
        decreases |chains[index]| - i
      {
        Moves(index, i, curelem);
        keys[last] := curelem.key;
        curelem := curelem.next;
        last := last + 1;
        i := i + 1;
      }
      EndsAt(index, i, curelem);
    }

    // hash_merge
    method Merge(src: Hash) returns (ret: int)
      requires Valid() && src.Valid() && src != this && src.owner.Keys !! owner.Keys
      modifies this, owner.Keys
      ensures Valid() && contents == src.contents + old(contents) && fresh(owner.Keys - old(owner.Keys))
      ensures ret == NewIndexes(old(contents), Listing(src.buckets), ent.Length)
    {
      hide Holds, KeySum, Added, AddedSum, NewIndexes, Linked, ChainOk, Owned, Entries, Flat;
      SomeBuckets();
      ListingIs(src.buckets, src.contents);
      ret := 0;
      if src.elmnbr == 0 {
        assert src.contents == map[];
        NoIndexes(contents, Listing(src.buckets), ent.Length);
        return;
      }
      ghost var was, bs := contents, src.buckets;
      AddedNone(was);
      NoIndexes(was, [], ent.Length);
      FlatNone(bs);
      src.LinkedAt(0);
      var index := 0;
      while index < src.ent.Length
        invariant 0 <= index <= |bs| && Valid() && src.Valid() && src.buckets == bs && src.owner == old(src.owner) && src.contents == old(src.contents)
        invariant fresh(owner.Keys - old(owner.Keys)) && contents == Added(was, Flat(bs, index))
        invariant ret == AddedSum(was, Flat(bs, index), ent.Length)
      {
        FlatMore(bs, index);
        ret := MergeBucket(src, index, was, Flat(bs, index), ret);
        index := index + 1;
      }
      ListingIs(bs, src.contents);
      AddedAll(was, Listing(bs), src.contents);
      SameIndexes(was, Listing(bs), ent.Length);
    }

    lemma SomeBuckets()
      requires Valid()
      ensures ent.Length > 0
    {
    }

    // One entry of the other table: it is added, and its bucket number counted, if its key is not here yet.
    method MergeEntry(src: Hash, actual: ListEnt, ghost was: map<string, int>, ghost before: seq<Entry>, ghost es: seq<Entry>, ghost i: int, ret0: int)
        returns (ret: int)
      requires Valid() && src.Valid() && src != this && src.owner.Keys !! owner.Keys && actual in src.owner
      requires 0 <= i < |es| && actual.key == Some(es[i].key) && actual.data == es[i].data != NULL
      requires contents == Added(was, before + es[..i]) && ret0 == AddedSum(was, before + es[..i], ent.Length)
      modifies this, owner.Keys
      ensures Valid() && contents == Added(was, before + es[..i + 1]) && fresh(owner.Keys - old(owner.Keys))
      ensures ret == AddedSum(was, before + es[..i + 1], ent.Length)
    {
      hide Holds, KeySum, Added, AddedSum, Index, Linked, Owned, Entries, ChainOk;
      SomeBuckets();
      AddedMore(was, before, es, i);
      SumMore(was, before, es, i, ent.Length);
      ret := ret0;
      var have := Get(actual.key.value);
      if have == NULL {
        var added := Add(actual.key.value, actual.data);
        ret := ret + added;
      }
    }

    method MergeBucket(src: Hash, index: int, ghost was: map<string, int>, ghost before: seq<Entry>, ret0: int) returns (ret: int)
      requires Valid() && src.Valid() && src != this && src.owner.Keys !! owner.Keys
      requires 0 <= index < |src.buckets| && contents == Added(was, before) && ret0 == AddedSum(was, before, ent.Length)
      modifies this, owner.Keys
      ensures Valid() && contents == Added(was, before + Entries(src.buckets[index])) && fresh(owner.Keys - old(owner.Keys))
      ensures ret == AddedSum(was, before + Entries(src.buckets[index]), ent.Length)
    {
      hide *;
      SomeBuckets();
      ret := ret0;
      ghost var es := Entries(src.buckets[index]);
      assert before + es[..0] == before;
      ghost var i := 0;
      src.StartsAt(index);
      var actual: ListEnt? := src.ent[index];
      while actual != null && actual.key != None
        invariant Valid() && src.Valid() && src.At(index, i, actual)
        invariant src.owner == old(src.owner) && src.buckets == old(src.buckets)
        invariant fresh(owner.Keys - old(owner.Keys)) && i <= |es| && contents == Added(was, before + es[..i])
        invariant ret == AddedSum(was, before + es[..i], ent.Length)
        decreases |es| - i
      {
        src.Moves(index, i, actual);
        ret := MergeEntry(src, actual, was, before, es, i, ret);
        actual := actual.next;
        i := i + 1;
      }
      src.EndsAt(index, i, actual);
      assert es[..|es|] == es;
    }

    // hash_unmerge
    method Unmerge(src: Hash) returns (ret: int)
      requires Valid() && src.Valid() && src != this && src.owner.Keys !! owner.Keys
      modifies this, owner.Keys
      ensures Valid() && contents == old(contents) - src.contents.Keys && owner == old(owner) && ret == 0
    {
      ret := 0;
      hide Holds, KeySum, Without, Linked, ChainOk, Owned, Entries, Flat;
      ghost var was, bs := contents, src.buckets;
      if src.elmnbr == 0 {
        assert src.contents == map[];
        assert was - src.contents.Keys == was;
        return;
      }
      WithoutNone(was);
      FlatNone(bs);
      src.LinkedAt(0);
      var index := 0;
      while index < src.ent.Length
        invariant 0 <= index <= |bs| && Valid() && src.Valid() && src.buckets == bs && src.owner == old(src.owner) && src.contents == old(src.contents)
        invariant owner == old(owner) && contents == Without(was, Flat(bs, index)) && ret == 0
      {
        FlatMore(bs, index);
        ret := UnmergeBucket(src, index, was, Flat(bs, index), ret);
        index := index + 1;
      }
      ListingIs(bs, src.contents);
      WithoutAll(was, Listing(bs), src.contents);
    }

    method UnmergeBucket(src: Hash, index: int, ghost was: map<string, int>, ghost before: seq<Entry>, ret0: int) returns (ret: int)
      requires Valid() && src.Valid() && src != this && src.owner.Keys !! owner.Keys
      requires 0 <= index < |src.buckets| && contents == Without(was, before)
      modifies this, owner.Keys
      ensures Valid() && contents == Without(was, before + Entries(src.buckets[index])) && owner == old(owner) && ret == ret0
    {
      hide *;
      ret := ret0;
      ghost var es := Entries(src.buckets[index]);
      assert before + es[..0] == before;
      ghost var i := 0;
      src.StartsAt(index);
      var actual: ListEnt? := src.ent[index];
      while actual != null && actual.key != None
        invariant Valid() && src.Valid() && src.At(index, i, actual)
        invariant src.owner == old(src.owner) && src.buckets == old(src.buckets)
        invariant owner == old(owner) && i <= |es| && contents == Without(was, before + es[..i]) && ret == ret0
        decreases |es| - i
      {
        src.Moves(index, i, actual);
        WithoutMore(was, before, es, i);
        var have := Get(actual.key.value);
        if have != NULL {
          var gone := Del(actual.key.value);
          ret := ret + gone;
        } else { assert contents - {actual.key.value} == contents; }
        actual := actual.next;
        i := i + 1;
      }
      src.EndsAt(index, i, actual);
      assert es[..|es|] == es;
    }

    // hash_inter
    method Inter(src: Hash) returns (ret: int)
      requires Valid() && src.Valid() && src != this && src.owner.Keys !! owner.Keys
      modifies this, owner.Keys
      ensures Valid() && owner == old(owner) && ret == 0
      ensures contents == if src.contents == map[] then old(contents) else old(contents) - (old(contents).Keys - src.contents.Keys)
    {
      hide Holds, KeySum, WithoutMissing, Flat, DistinctKeys, Linked, ChainOk, Owned;
      ghost var was := contents;
      ret := 0;
      if src.elmnbr == 0 || elmnbr == 0 {
        assert src.elmnbr == 0 <==> src.contents == map[];
        assert elmnbr == 0 ==> was == map[];
        return;
      }
      ghost var es := Listing(buckets);
      ListingIs(buckets, contents);
      var keys, keynbr := Keys();
      forall i | 0 <= i < |es|
        ensures es[i].key in was
      {
        assert es[i] in es;
      }
      ret := DropMissing(src, keys, es, was);
      MissingAll(was, es, src.contents);
    }

    method DropMissing(src: Hash, keys: array<Option<string>>, ghost es: seq<Entry>, ghost was: map<string, int>) returns (ret: int)
      requires DistinctKeys(es) && (forall i :: 0 <= i < |es| ==> es[i].key in was)
      requires Valid() && src.Valid() && src != this && src.owner.Keys !! owner.Keys && contents == was
      requires keys.Length == |es| + 1 && forall i :: 0 <= i < |es| ==> keys[i] == Some(es[i].key)
      modifies this, owner.Keys
      ensures Valid() && contents == WithoutMissing(was, es, src.contents) && owner == old(owner) && ret == 0
    {
      ret := 0;
      hide Holds, KeySum, WithoutMissing, Linked, ChainOk, Owned;
      MissingNone(was, src.contents);
      assert es[..0] == [];
      var idx := 0;
      while idx < keys.Length - 1
        invariant 0 <= idx <= |es| && Valid() && src.Valid() && src.contents == old(src.contents) && owner == old(owner) && src.owner == old(src.owner)
        invariant contents == WithoutMissing(was, es[..idx], src.contents) && ret == 0
      {
        StillThere(was, es[..idx], src.contents, es[idx].key);
        var curkey := keys[idx].value;
        MissingMore(was, es, idx, src.contents);
        var have := src.Get(curkey);
        if have == NULL {
          var gone := Del(curkey);
          ret := ret + gone;
        }
        idx := idx + 1;
      }
      assert es[..idx] == es;
    }
  }

  lemma BucketIs(bs: seq<Bucket>, m: map<string, int>, i: int)
    requires Holds(bs, m) && 0 <= i < |bs|
    ensures bs[i].key == None ==> bs[i] == EMPTY
  {
    assert BucketOk(bs[i], i, |bs|);
  }

  lemma EntryIs(chain: seq<ListEnt>, b: Bucket, j: int)
    requires ChainOk(chain, b) && b.key != None && 0 <= j < |chain|
    ensures |Entries(b)| == |chain| && chain[j].key == Some(Entries(b)[j].key) && chain[j].data == Entries(b)[j].data
  {
    if j > 0 { assert chain[j].key == Some(b.rest[j - 1].key); }
  }

  lemma OwnedMore(chain: seq<ListEnt>, owner: map<ListEnt, int>, i: int, n: ListEnt)
    requires Owned(chain, owner, i) && n !in owner
    ensures Owned(chain + [n], owner[n := i], i)
  {
  }

  lemma RelinkShorter(chain: seq<ListEnt>, owner: map<ListEnt, int>, i: int, j: int)
    requires Owned(chain, owner, i) && 0 <= j < |chain|
    ensures Owned(DropAt(chain, j), owner, i) && |DropAt(chain, j)| == |chain| - 1 && (j > 0 ==> DropAt(chain, j)[0] == chain[0])
  {
  }

  lemma AppendedTail(b: Bucket, e: Entry)
    requires b.key != None
    ensures Appended(b, e) == b.(rest := b.rest + [e])
  {
  }

  lemma FlatNone(bs: seq<Bucket>)
    ensures Flat(bs, 0) == []
  {
  }

  lemma FlatMore(bs: seq<Bucket>, n: int)
    requires 0 <= n < |bs|
    ensures Flat(bs, n + 1) == Flat(bs, n) + Entries(bs[n])
  {
  }

  lemma IndexIs(key: string, size: int)
    requires size > 0
    ensures 0 <= Index(key, size) < size
  {
  }

  // ---- all entries of a table

  function Flat(bs: seq<Bucket>, n: int): seq<Entry>
    requires 0 <= n <= |bs|
  { if n == 0 then [] else Flat(bs, n - 1) + Entries(bs[n - 1]) }

  function Listing(bs: seq<Bucket>): seq<Entry> { Flat(bs, |bs|) }

  lemma {:induction false} FlatPrefix(bs: seq<Bucket>, n: int)
    requires 0 <= n <= |bs|
    ensures |Flat(bs, n)| <= |Listing(bs)|
    decreases |bs| - n
  {
    hide Entries;
    if n < |bs| { FlatPrefix(bs, n + 1); }
  }

  lemma {:induction false} FlatHas(bs: seq<Bucket>, m: map<string, int>, n: int)
    requires Holds(bs, m) && 0 <= n <= |bs|
    ensures DistinctKeys(Flat(bs, n))
    ensures forall e {:trigger e in Flat(bs, n)} :: e in Flat(bs, n) <==> e.key in m && m[e.key] == e.data && Index(e.key, |bs|) < n
  {
    hide KeySum, Entries, Holds;
    if n > 0 {
      FlatHas(bs, m, n - 1);
      BucketHas(bs, m, n - 1);
      JoinDistinct(Flat(bs, n - 1), Entries(bs[n - 1]));
    }
  }

  lemma JoinDistinct(es: seq<Entry>, fs: seq<Entry>)
    requires DistinctKeys(es) && DistinctKeys(fs) && forall e, f {:trigger e in es, f in fs} :: e in es && f in fs ==> e.key != f.key
    ensures DistinctKeys(es + fs) && forall e {:trigger e in es + fs} :: e in es + fs <==> e in es || e in fs
  {
    var gs: seq<Entry> := es + fs;
    forall i, j | 0 <= i < j < |gs|
      ensures gs[i].key != gs[j].key
    {
      if i < |es| { assert es[i] in es; }
      if j >= |es| { assert fs[j - |es|] in fs; }
    }
  }

  lemma BucketHas(bs: seq<Bucket>, m: map<string, int>, i: int)
    requires Holds(bs, m) && 0 <= i < |bs|
    ensures DistinctKeys(Entries(bs[i]))
    ensures forall e {:trigger e in Entries(bs[i])} :: e in Entries(bs[i]) <==> e.key in m && m[e.key] == e.data && Index(e.key, |bs|) == i
  {
    assert BucketOk(bs[i], i, |bs|);
    forall e: Entry {:trigger e in Entries(bs[i])} | e.key in m && m[e.key] == e.data && Index(e.key, |bs|) == i
      ensures e in Entries(bs[i])
    {
      assert Entry(e.key, m[e.key]) == e;
    }
  }

  lemma EntriesOk(bs: seq<Bucket>, m: map<string, int>, i: int)
    requires Holds(bs, m) && 0 <= i < |bs|
    ensures forall e {:trigger e in Entries(bs[i])} :: e in Entries(bs[i]) ==> e.data != NULL
  {
    assert BucketOk(bs[i], i, |bs|);
  }

  // The listing has every pair of the map once.
  lemma ListingIs(bs: seq<Bucket>, m: map<string, int>)
    requires Holds(bs, m)
    ensures DistinctKeys(Listing(bs)) && |Listing(bs)| == |m|
    ensures forall e {:trigger e in Listing(bs)} :: e in Listing(bs) <==> e.key in m && m[e.key] == e.data
  {
    hide KeySum, Holds, DistinctKeys;
    FlatHas(bs, m, |bs|);
    SameCount(Listing(bs), m);
  }

  lemma SameCount(es: seq<Entry>, m: map<string, int>)
    requires DistinctKeys(es) && forall e {:trigger e in es} :: e in es <==> e.key in m && m[e.key] == e.data
    ensures |es| == |m|
  {
    var ks := seq(|es|, i requires 0 <= i < |es| => es[i].key);
    forall k | k in m
      ensures k in ks
    {
      assert Entry(k, m[k]) in es;
      var i :| 0 <= i < |es| && es[i] == Entry(k, m[k]);
      assert ks[i] == k;
    }
    forall k | k in ks
      ensures k in m
    {
      var i :| 0 <= i < |ks| && ks[i] == k;
      assert es[i] in es;
    }
    DistinctFew(ks, m.Keys);
  }

  // ---- the two-table operations on maps

  function Added(m: map<string, int>, es: seq<Entry>): map<string, int> {
    if |es| == 0 then m
    else
      var r, e := Added(m, es[..|es| - 1]), es[|es| - 1];
      if e.key in r then r else r[e.key := e.data]
  }

  lemma AddedNone(m: map<string, int>)
    ensures Added(m, []) == m
  {
  }

  lemma AddedMore(m: map<string, int>, before: seq<Entry>, es: seq<Entry>, i: int)
    requires 0 <= i < |es|
    ensures var r := Added(m, before + es[..i]);
      Added(m, before + es[..i + 1]) == if es[i].key in r then r else r[es[i].key := es[i].data]
  {
    var fs := before + es[..i + 1];
    assert fs[..|fs| - 1] == before + es[..i];
  }

  // What hash_merge returns: hash_add returns the index of the bucket.
  function AddedSum(m: map<string, int>, es: seq<Entry>, size: int): int
    requires size > 0
  {
    if |es| == 0 then 0
    else
      var n := |es| - 1;
      AddedSum(m, es[..n], size) + if es[n].key in Added(m, es[..n]) then 0 else Index(es[n].key, size)
  }

  lemma SumMore(m: map<string, int>, before: seq<Entry>, es: seq<Entry>, i: int, size: int)
    requires 0 <= i < |es| && size > 0
    ensures AddedSum(m, before + es[..i + 1], size) ==
      AddedSum(m, before + es[..i], size) + if es[i].key in Added(m, before + es[..i]) then 0 else Index(es[i].key, size)
  {
    var fs := before + es[..i + 1];
    assert fs[..|fs| - 1] == before + es[..i];
  }

  // The sum of the bucket indexes of the keys that m does not have.
  function NewIndexes(m: map<string, int>, es: seq<Entry>, size: int): int
    requires size > 0
  { if |es| == 0 then 0 else NewIndexes(m, es[..|es| - 1], size) + if es[|es| - 1].key in m then 0 else Index(es[|es| - 1].key, size) }

  lemma NoIndexes(m: map<string, int>, es: seq<Entry>, size: int)
    requires size > 0 && |es| == 0
    ensures NewIndexes(m, es, size) == 0 && AddedSum(m, es, size) == 0
  {
  }

  lemma {:induction false} SameIndexes(m: map<string, int>, es: seq<Entry>, size: int)
    requires DistinctKeys(es) && size > 0
    ensures AddedSum(m, es, size) == NewIndexes(m, es, size)
  {
    hide Index;
    if |es| > 0 {
      var n := |es| - 1;
      SameIndexes(m, es[..n], size);
      AddedKeys(m, es[..n], es[n].key);
    }
  }

  lemma {:induction false} AddedKeys(m: map<string, int>, es: seq<Entry>, k: string)
    requires forall i :: 0 <= i < |es| ==> es[i].key != k
    ensures k in Added(m, es) <==> k in m
  {
    if |es| > 0 { AddedKeys(m, es[..|es| - 1], k); }
  }

  lemma {:induction false} AddedOld(m: map<string, int>, es: seq<Entry>)
    ensures forall k {:trigger k in Added(m, es)} :: k in Added(m, es) <==> k in m || exists i :: 0 <= i < |es| && es[i].key == k
    ensures forall k {:trigger Added(m, es)[k]} :: k in m ==> k in Added(m, es) && Added(m, es)[k] == m[k]
  {
    if |es| > 0 { AddedOld(m, es[..|es| - 1]); }
  }

  lemma {:induction false} AddedNew(m: map<string, int>, es: seq<Entry>, i: int)
    requires DistinctKeys(es) && 0 <= i < |es| && es[i].key !in m
    ensures es[i].key in Added(m, es) && Added(m, es)[es[i].key] == es[i].data
  {
    var n := |es| - 1;
    AddedOld(m, es[..n]);
    if i < n { AddedNew(m, es[..n], i); }
  }

  lemma AddedAll(m: map<string, int>, es: seq<Entry>, s: map<string, int>)
    requires DistinctKeys(es) && forall e {:trigger e in es} :: e in es <==> e.key in s && s[e.key] == e.data
    ensures Added(m, es) == s + m
  {
    hide Added;
    AddedOld(m, es);
    forall k {:trigger k in s} | k in s
      ensures k in Added(m, es) && (k !in m ==> Added(m, es)[k] == s[k])
    {
      assert Entry(k, s[k]) in es;
      var i :| 0 <= i < |es| && es[i] == Entry(k, s[k]);
      if k !in m { AddedNew(m, es, i); }
    }
    forall k {:trigger k in Added(m, es)} | k in Added(m, es)
      ensures k in m || k in s
    {
      if k !in m {
        var i :| 0 <= i < |es| && es[i].key == k;
        assert es[i] in es;
      }
    }
  }

  function Without(m: map<string, int>, es: seq<Entry>): map<string, int> {
    if |es| == 0 then m else Without(m, es[..|es| - 1]) - {es[|es| - 1].key}
  }

  lemma WithoutNone(m: map<string, int>)
    ensures Without(m, []) == m
  {
  }

  lemma WithoutMore(m: map<string, int>, before: seq<Entry>, es: seq<Entry>, i: int)
    requires 0 <= i < |es|
    ensures Without(m, before + es[..i + 1]) == Without(m, before + es[..i]) - {es[i].key}
  {
    var fs := before + es[..i + 1];
    assert fs[..|fs| - 1] == before + es[..i];
  }

  lemma {:induction false} WithoutIs(m: map<string, int>, es: seq<Entry>)
    ensures forall k {:trigger k in Without(m, es)} :: k in Without(m, es) <==> k in m && forall i :: 0 <= i < |es| ==> es[i].key != k
    ensures forall k {:trigger Without(m, es)[k]} :: k in Without(m, es) ==> k in m && Without(m, es)[k] == m[k]
  {
    if |es| > 0 { WithoutIs(m, es[..|es| - 1]); }
  }

  lemma WithoutAll(m: map<string, int>, es: seq<Entry>, s: map<string, int>)
    requires forall e {:trigger e in es} :: e in es <==> e.key in s && s[e.key] == e.data
    ensures Without(m, es) == m - s.Keys
  {
    hide Without;
    WithoutIs(m, es);
    forall k {:trigger k in s} | k in s
      ensures k !in Without(m, es)
    {
      assert Entry(k, s[k]) in es;
      var i :| 0 <= i < |es| && es[i] == Entry(k, s[k]);
      assert es[i].key == k;
    }
    forall i | 0 <= i < |es|
      ensures es[i].key in s
    {
      assert es[i] in es;
    }
  }

  // Without the entries that s does not have.
  function WithoutMissing(m: map<string, int>, es: seq<Entry>, s: map<string, int>): map<string, int> {
    if |es| == 0 then m
    else
      var r, e := WithoutMissing(m, es[..|es| - 1], s), es[|es| - 1];
      if e.key in s then r else r - {e.key}
  }

  lemma {:induction false} StillThere(m: map<string, int>, es: seq<Entry>, s: map<string, int>, k: string)
    requires k in m && forall i :: 0 <= i < |es| ==> es[i].key != k
    ensures k in WithoutMissing(m, es, s)
  {
    if |es| > 0 { StillThere(m, es[..|es| - 1], s, k); }
  }

  lemma MissingNone(m: map<string, int>, s: map<string, int>)
    ensures WithoutMissing(m, [], s) == m
  {
  }

  lemma MissingMore(m: map<string, int>, es: seq<Entry>, i: int, s: map<string, int>)
    requires 0 <= i < |es|
    ensures var r := WithoutMissing(m, es[..i], s); WithoutMissing(m, es[..i + 1], s) == if es[i].key in s then r else r - {es[i].key}
  {
    assert es[..i + 1][..i] == es[..i];
  }

  lemma {:induction false} MissingIs(m: map<string, int>, es: seq<Entry>, s: map<string, int>)
    ensures forall k {:trigger k in WithoutMissing(m, es, s)} ::
      k in WithoutMissing(m, es, s) <==> k in m && (k in s || forall i :: 0 <= i < |es| ==> es[i].key != k)
    ensures forall k {:trigger WithoutMissing(m, es, s)[k]} :: k in WithoutMissing(m, es, s) ==> k in m && WithoutMissing(m, es, s)[k] == m[k]
  {
    if |es| > 0 { MissingIs(m, es[..|es| - 1], s); }
  }

  lemma MissingAll(m: map<string, int>, es: seq<Entry>, s: map<string, int>)
    requires forall e {:trigger e in es} :: e in es <==> e.key in m && m[e.key] == e.data
    ensures WithoutMissing(m, es, s) == m - (m.Keys - s.Keys)
  {
    hide WithoutMissing;
    MissingIs(m, es, s);
    forall k {:trigger k in m} | k in m && k !in s
      ensures k !in WithoutMissing(m, es, s)
    {
      assert Entry(k, m[k]) in es;
      var i :| 0 <= i < |es| && es[i] == Entry(k, m[k]);
      assert es[i].key == k;
    }
  }

  // The result is the intersection exactly when the other table is not empty, or this one is.
  lemma InterIsIntersection(m: map<string, int>, s: map<string, int>)
    ensures var r := if s == map[] then m else m - (m.Keys - s.Keys);
      r == (map k | k in m && k in s :: m[k]) <==> s != map[] || m == map[]
  {
    var both := map k | k in m && k in s :: m[k];
    if s == map[] {
      assert both.Keys == {};
      assert both == map[];
    } else {
      assert m - (m.Keys - s.Keys) == both;
    }
  }
}
