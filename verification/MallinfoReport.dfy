/** mallinfo: the lists are walked and counted. */
module MallinfoReport {
  import opened Memory
  import opened Sizes
  import opened BinLists
  import opened Chunks
  import opened Layout
  import opened State
  import opened Arenas
  import opened Scanning
  import opened Passes
  import opened Accounting

  // struct mallinfo, sizes in granules, without the fields for mapped chunks
  datatype Mallinfo = Mallinfo(total: int, smblks: int, ordblks: int, fsmblks: int, uordblks: int, fordblks: int, keepcost: int)

  // traverse fastbins
  method SumFastbins(a: Arena) returns (nfastblocks: int, fastavail: int)
    requires a.Valid()
    ensures fastavail == Total(ChunksTagged(a.chunks, Fast)) && nfastblocks == |ChunksTagged(a.chunks, Fast)|
  {
    hide Good, MapOk, HeapsOk, PageEnds, SystemSize, FastbinIndex, NFastbins, Bytes, WithinLimit, UnitsOk, Total,
      TopKnown, KnownTo, FastBelow, ChunksTagged;
    ghost var x := a.Now();
    nfastblocks, fastavail := 0, 0;
    TotalNone();
    FastStop(x, a.g, a.nonMain, 0);
    var i := 0;
    while i < |a.fastbins|
      invariant 0 <= i <= |a.fastbins| && a.Now() == x
      invariant fastavail == Total(FastBelow(x, i)) && nfastblocks == |FastBelow(x, i)|
    {
      var count, sum := SumFastbin(a, i, nfastblocks, fastavail);
      nfastblocks, fastavail := count, sum;
      i := i + 1;
    }
  }

  method SumFastbin(a: Arena, i: int, count0: int, sum0: int) returns (count: int, sum: int)
    requires a.Valid() && 0 <= i < |a.fastbins| && sum0 == Total(FastBelow(a.Now(), i)) && count0 == |FastBelow(a.Now(), i)|
    ensures sum == Total(FastBelow(a.Now(), i + 1)) && count == |FastBelow(a.Now(), i + 1)|
  {
    hide Good, MapOk, HeapsOk, PageEnds, SystemSize, FastbinIndex, NFastbins, Bytes, WithinLimit, UnitsOk, Total,
      TopKnown, KnownTo;
    ghost var x := a.Now();
    FastStart(x, a.g, a.nonMain, i);
    count, sum := count0, sum0;
    var p := a.fastbins[i];
    while p != 0
      invariant p != 0 ==> p in x.f && x.f[p].cls == i
      invariant sum == Total(FastSeen(x, i, p)) && count == |FastSeen(x, i, p)|
      decreases if p in x.f then x.f[p].depth + 1 else 0
    {
      FastStep(x, a.g, a.nonMain, i, p);
      ghost var next := a.lo[p + 1];
      TotalAdd(FastSeen(x, i, p), FastSeen(x, i, next), p);
      count := count + 1;
      sum := sum + a.hi[p].n;
      p := a.lo[p + 1];
    }
    FastStop(x, a.g, a.nonMain, i);
  }

  // traverse regular bins
  method SumBins(a: Arena) returns (nblocks: int, avail: int)
    requires a.Valid()
    ensures avail == Total(ChunksTagged(a.chunks, Binned)) && nblocks == |ChunksTagged(a.chunks, Binned)|
  {
    hide Good, MapOk, HeapsOk, PageEnds, SystemSize, FastbinIndex, NFastbins, Bytes, WithinLimit, UnitsOk, Total,
      TopKnown, KnownTo;
    ghost var x := a.Now();
    nblocks, avail := 0, 0;
    TotalNone();
    BinStop(x, a.g, a.nonMain, 1);
    var i := 1;
    while i < 128
      invariant 1 <= i <= 128 && a.Now() == x
      invariant avail == Total(BinsBelow(x, i)) && nblocks == |BinsBelow(x, i)|
    {
      var count, sum := SumBin(a, i, nblocks, avail);
      nblocks, avail := count, sum;
      i := i + 1;
    }
  }

  method SumBin(a: Arena, i: int, count0: int, sum0: int) returns (count: int, sum: int)
    requires a.Valid() && 1 <= i <= 127 && sum0 == Total(BinsBelow(a.Now(), i)) && count0 == |BinsBelow(a.Now(), i)|
    ensures sum == Total(BinsBelow(a.Now(), i + 1)) && count == |BinsBelow(a.Now(), i + 1)|
  {
    hide Good, MapOk, HeapsOk, PageEnds, SystemSize, FastbinIndex, NFastbins, Bytes, WithinLimit, UnitsOk, Total,
      TopKnown, KnownTo;
    ghost var x := a.Now();
    BinStart(x, a.g, a.nonMain, i);
    count, sum := count0, sum0;
    var p := a.hi[Hdr(i) + 1].to;
    while p != Hdr(i)
      invariant p != Hdr(i) ==> p in x.s && x.s[p].bin == i
      invariant sum == Total(BinSeen(x, i, p)) && count == |BinSeen(x, i, p)|
      decreases if p in x.s then SmallerKeys(x.s, i, p) else {}, if p in x.s then 1 else 0
    {
      BinStep(x, a.g, a.nonMain, i, p);
      ghost var next := a.hi[p + 1].to;
      TotalAdd(BinSeen(x, i, p), BinSeen(x, i, next), p);
      FewerKeys(x, i, p, next);
      count := count + 1;
      sum := sum + a.hi[p].n;
      p := a.hi[p + 1].to;
    }
    BinStop(x, a.g, a.nonMain, i);
  }

  lemma FewerKeys(x: St, i: int, p: int, b: int)
    requires p in x.s && x.s[p].bin == i && (b in x.s ==> x.s[b].bin == i && x.s[b].key < x.s[p].key)
    ensures b in x.s ==> SmallerKeys(x.s, i, b) < SmallerKeys(x.s, i, p)
  {
    if b in x.s {
      assert b in SmallerKeys(x.s, i, p) && b !in SmallerKeys(x.s, i, b);
    }
  }

  lemma OneTop(x: St, g: int, nm: bool)
    requires Good(x, g, nm)
    ensures x.rs == [] ==> x.c == map[]
    ensures x.rs != [] ==> x.top in x.c && ChunksTagged(x.c, Top) == map[x.top := x.c[x.top]]
  {
    hide Base;
    if x.rs != [] {
      assert CornerAt(x.c, x.rs, x.top, |x.rs| - 1);
      assert forall q {:trigger q in x.c} :: q in x.c && x.c[q].tag == Top ==> q == x.top;
    } else {
      forall q {:trigger q in x.c}
        ensures q !in x.c
      {
        if q in x.c { ChunksInRegions(x, g, nm, q); }
      }
    }
  }

  // What is not available is in use by the client, or is a marker or a header.
  lemma InUse(x: St, g: int, nm: bool)
    requires Good(x, g, nm)
    ensures SystemSize(x.rs) - Total(ChunksTagged(x.c, Top)) - Total(ChunksTagged(x.c, Fast)) - Total(ChunksTagged(x.c, Binned))
         == Total(ChunksTagged(x.c, Live)) + Total(ChunksTagged(x.c, Fence)) + Total(ChunksTagged(x.c, Last)) + Headers(x.rs)
  {
    hide Good, Total;
    NothingLost(x, g, nm);
    ByTag(x.c);
    SystemParts(x.rs);
  }

  lemma TopTotal(x: St, g: int, nm: bool)
    requires Good(x, g, nm) && TopKnown(x.top, x.hi, x.rs)
    ensures x.top in x.hi && x.hi[x.top].Size? && x.hi[x.top].n == Total(ChunksTagged(x.c, Top))
  {
    hide Good, Total;
    TopReads(x, g, nm);
    OneTop(x, g, nm);
    TotalNone();
    if x.rs == [] {
      assert ChunksTagged(x.c, Top) == map[];
    } else {
      TotalAdd(map[], ChunksTagged(x.c, Top), x.top);
    }
  }

  // mALLINFo
  method Report(a: Arena) returns (mi: Mallinfo)
    requires a.Valid()
    ensures mi.total == a.systemMem && mi.uordblks + mi.fordblks == mi.total
    ensures mi.uordblks == Total(ChunksTagged(a.chunks, Live)) + Total(ChunksTagged(a.chunks, Fence)) + Total(ChunksTagged(a.chunks, Last)) + Headers(a.regions)
    ensures mi.fsmblks == Total(ChunksTagged(a.chunks, Fast)) && mi.keepcost == Total(ChunksTagged(a.chunks, Top))
    ensures mi.smblks == |ChunksTagged(a.chunks, Fast)| && mi.ordblks == 1 + |ChunksTagged(a.chunks, Binned)|
  {
    hide Good, MapOk, HeapsOk, PageEnds, SystemSize, FastbinIndex, NFastbins, Bytes, WithinLimit, UnitsOk, Total,
      TopKnown, Headers, KnownTo;
    ghost var x := a.Now();
    TopTotal(x, a.g, a.nonMain);
    InUse(x, a.g, a.nonMain);
    var avail := a.hi[a.top].n;
    var nfastblocks, fastavail := SumFastbins(a);
    avail := avail + fastavail;
    var nblocks, binavail := SumBins(a);
    avail := avail + binavail;
    mi := Mallinfo(a.systemMem, nfastblocks, 1 + nblocks, fastavail, a.systemMem - avail, avail, a.hi[a.top].n);
  }
}
