/** Networks come to rest: once nobody asks for routes any more, the packets in flight run out. */
module DumpQuiet {
  import opened DumpTables
  import opened DumpNode
  import opened DumpWorld
  import opened DumpReplies
  import opened DumpRoute
  import opened DumpNet
  import opened DumpTotals
  import opened DumpRuns

  // ---- what is still to come

  // The requests of one id are at most this many, as FloodBounded says.
  ghost function Bound(w: World): int { 1 + ExtraOf(w, w.Keys) }

  ghost function Budget(w: World, s: Net): map<int, int> { map i | i in s.got :: Bound(w) - s.got[i] }

  function Lengths(s: Net): map<int, int> { map n | n in s.waiting :: |s.waiting[n]| }

  // The nodes that a reply or a data packet still reaches.
  function Weight(w: World, h: Hop): int {
    match h.pkt.kind
    case RR => 0
    case Rr => |Returns(w, h.pkt, h.to, |h.pkt.path|)|
    case DATA => |Visits(w, h.pkt, h.to, |h.pkt.path|)|
  }

  function Weights(w: World): Hop -> int { (h: Hop) => Weight(w, h) }

  function Load(w: World, f: seq<Hop>): int { Total(f, Weights(w)) }

  // Requests still to arrive, the ways of the packets in flight, the data still waiting. An answer
  // or a packet of data that leaves a queue has at most one way through the whole network.
  ghost function Measure(w: World, s: Net): int {
    (|w| + 1) * (Sum(Budget(w, s)) + Sum(Lengths(s))) + Load(w, s.flight)
  }

  lemma DeliveredLoad(w: World, s: Net, s': Net, k: int, freshId: int)
    requires IsDelivery(w, s, s', k, freshId)
    ensures 0 <= k < |s.flight| && s.flight[k].to in w && s.flight[k].to in s.seen && s.flight[k].to in s.waiting
    ensures Load(w, s'.flight) == Load(w, s.flight) - Weight(w, s.flight[k]) + Load(w, Hops(s.flight[k].to, Reaction(w, s, s.flight[k], freshId)))
  {
    hide Total, Weight, Reaction, Requesting, Releases;
    TotalSum(Without(s.flight, k), Hops(s.flight[k].to, Reaction(w, s, s.flight[k], freshId)), Weights(w));
    TotalWithout(s.flight, k, Weights(w));
  }

  // ---- ways are short

  ghost predicate Distinct(r: seq<int>) { forall i, j {:trigger r[i], r[j]} :: 0 <= i < j < |r| ==> r[i] != r[j] }

  lemma {:induction false} DistinctSize(r: seq<int>, ns: set<int>)
    requires Distinct(r) && forall i :: 0 <= i < |r| ==> r[i] in ns
    ensures |r| <= |ns|
  {
    if |r| > 0 {
      var n := r[|r| - 1];
      forall i {:trigger r[..|r| - 1][i]} | 0 <= i < |r| - 1
        ensures r[..|r| - 1][i] in ns - {n}
      {
        assert r[i] != r[|r| - 1];
      }
      DistinctSize(r[..|r| - 1], ns - {n});
    }
  }

  lemma RouteSize(w: World, r: seq<int>)
    requires WorldOk(w) && Route(w, r) && OnceEach(r)
    ensures 2 <= |r| <= |w| + 1
  {
    forall i | 0 <= i < |r[1..]|
      ensures r[1..][i] in w.Keys
    {
      RouteAt(w, r, i + 1);
    }
    DistinctSize(r[1..], w.Keys);
    assert |w| == |w.Keys|;
  }

  lemma ReplyWeight(w: World, s: Net, h: Hop, r: seq<int>, c: int)
    requires WorldOk(w) && OnReply(w, s, h, r, c) && h.pkt.kind == Rr
    ensures 1 <= c < |r| && Weight(w, h) == c - Home(r, c - 1) && 1 <= Weight(w, h) <= |w|
  {
    hide WorldOk, Route, OnceEach, Rewritten, Returns;
    RewrittenIs(w, r, h.pkt.path, c);
    RouteSize(w, r);
    ReplyComesHome(w, r, h.pkt, c, |h.pkt.path|);
  }

  lemma DataWeight(w: World, h: Hop, r: seq<int>, c: int, i: int)
    requires WorldOk(w) && OnData(w, h, r, c, i) && h.pkt.kind == DATA
    ensures 1 <= i < |r| && 1 <= c < |r| && Weight(w, h) == FirstBad(w, r, c, i) - i && 1 <= Weight(w, h) <= |w|
  {
    hide WorldOk, Route, OnceEach, Rewritten, Visits;
    RewrittenIs(w, r, h.pkt.path, c);
    RouteSize(w, r);
    VisitsAre(w, r, h.pkt, c, i, |h.pkt.path|);
  }

  // ---- what every delivery does to the measure

  lemma RequestTrack(w: World, s: Net, h: Hop) returns (r: seq<int>)
    requires Inv(w, s) && h in s.flight && h.pkt.kind == RR
    ensures WorldOk(w) && OnRequest(w, s, h, r)
  {
    assert OnTrack(w, s, h);
    r :| OnRequest(w, s, h, r);
  }

  lemma ReplyTrack(w: World, s: Net, h: Hop) returns (r: seq<int>, c: int)
    requires Inv(w, s) && h in s.flight && h.pkt.kind == Rr
    ensures WorldOk(w) && OnReply(w, s, h, r, c)
  {
    assert OnTrack(w, s, h);
    r, c :| OnReply(w, s, h, r, c);
  }

  lemma DataTrack(w: World, s: Net, h: Hop) returns (r: seq<int>, c: int, i: int)
    requires Inv(w, s) && h in s.flight && h.pkt.kind == DATA
    ensures WorldOk(w) && OnData(w, h, r, c, i)
  {
    assert OnTrack(w, s, h);
    r, c, i :| OnData(w, h, r, c, i);
  }

  // What a delivery does to the numbers of the measure.
  lemma DeliveredSums(w: World, s: Net, s': Net, k: int, freshId: int)
    requires IsDelivery(w, s, s', k, freshId)
    ensures s.flight[k].pkt.kind != RR ==> Budget(w, s') == Budget(w, s)
    ensures s.flight[k].pkt.kind == RR ==> Sum(Budget(w, s')) == Sum(Budget(w, s)) - 1
    ensures !Releases(w, s, s.flight[k]) ==> Lengths(s') == Lengths(s)
    ensures Releases(w, s, s.flight[k]) ==> Sum(Lengths(s')) <= Sum(Lengths(s)) - |Data(s, s.flight[k])|
  {
    var h := s.flight[k];
    hide Sum, Bound, Releases, Reaction, Remaining, Released, Requesting;
    if h.pkt.kind == RR {
      SumUpdate(Budget(w, s), h.pkt.id, Budget(w, s)[h.pkt.id] - 1);
      assert Budget(w, s') == Budget(w, s)[h.pkt.id := Budget(w, s)[h.pkt.id] - 1];
    }
    if Releases(w, s, h) {
      QueueShrinks(s.waiting[h.to], h.pkt.src);
      var left := Remaining(s.waiting[h.to], h.pkt.src);
      SumUpdate(Lengths(s), h.to, |left|);
      assert Lengths(s') == Lengths(s)[h.to := |left|];
    }
  }

  // An answer has at most one way through the network, requests have none of their own.
  lemma AnswerLoad(w: World, s: Net, s': Net, h: Hop, r: seq<int>, freshId: int)
    requires WorldOk(w) && OnRequest(w, s, h, r) && h.pkt.kind == RR && h.to in w && h.to in s.seen && h.pkt.id !in s.seen[h.to]
    requires freshId in s'.used && freshId !in s'.rrIds
    ensures Load(w, Hops(h.to, AnswerRR(w[h.to], h.pkt, freshId))) <= |w|
  {
    RequestLong(w, s, h, r);
    var out := AnswerRR(w[h.to], h.pkt, freshId);
    hide WorldOk, OnRequest, Weight, AnswerRR, IsMyid;
    if IsMyid(w[h.to].ids, h.pkt.dst) {
      AnswerAlone(w[h.to], h.pkt, freshId);
      if |out| == 1 {
        AnswerTracks(w, s, s', h, r, freshId, out[0]);
        ReplyWeight(w, s', Hop(h.to, out[0].to, out[0].pkt), r, |r| - 1);
        assert Hops(h.to, out) == [Hop(h.to, out[0].to, out[0].pkt)];
        TotalOne(Hop(h.to, out[0].to, out[0].pkt), Weights(w));
      }
    } else {
      FloodLoad(w, s, h, freshId);
    }
  }

  lemma AnswerAlone(t: Tables, pkt: Packet, freshId: int)
    requires IsMyid(t.ids, pkt.dst)
    ensures |AnswerRR(t, pkt, freshId)| <= 1
  {
  }

  lemma FloodLoad(w: World, s: Net, h: Hop, freshId: int)
    requires h.to in w && h.pkt.kind == RR && !IsMyid(w[h.to].ids, h.pkt.dst)
    ensures Load(w, Hops(h.to, AnswerRR(w[h.to], h.pkt, freshId))) <= 0
  {
    var f := Hops(h.to, AnswerRR(w[h.to], h.pkt, freshId));
    forall i {:trigger f[i]} | 0 <= i < |f|
      ensures Weight(w, f[i]) <= 0
    {
      FloodIs(w[h.to].ports, w[h.to].ids, h.pkt.path[|h.pkt.path| - 1], h.pkt, AnswerRR(w[h.to], h.pkt, freshId)[i]);
    }
    TotalAtMost(f, Weights(w), 0);
  }

  lemma RequestShrinks(w: World, s: Net, s': Net, k: int, freshId: int)
    requires Inv(w, s) && IsDelivery(w, s, s', k, freshId) && s.flight[k].pkt.kind == RR
    ensures Load(w, s'.flight) <= Load(w, s.flight) + |w|
  {
    var h := s.flight[k];
    DeliveredLoad(w, s, s', k, freshId);
    var r := RequestTrack(w, s, h);
    hide WorldOk, QueuesOk, Total, OnTrack, AnswerRR, OnRequest, Requesting;
    if h.pkt.id !in s.seen[h.to] {
      AnswerLoad(w, s, s', h, r, freshId);
    } else {
      NoLoad(w, h.to);
    }
  }

  lemma NoLoad(w: World, n: int)
    ensures Load(w, Hops(n, [])) == 0
  {
  }

  lemma ReplyShrinks(w: World, s: Net, s': Net, k: int, freshId: int)
    requires Inv(w, s) && IsDelivery(w, s, s', k, freshId) && s.flight[k].pkt.kind == Rr && !IsMyid(w[s.flight[k].to].ids, s.flight[k].pkt.dst)
    ensures Load(w, s'.flight) < Load(w, s.flight)
  {
    var h := s.flight[k];
    hide WorldOk, QueuesOk, OnReply, OnTrack, Total, Weight, Delivered, TablesKept, Inv;
    var r, c := ReplyTrack(w, s, h);
    var g := StepReply(w, s, s', k, freshId, r, c);
    ReplyWeight(w, s, h, r, c);
    ReplyWeight(w, s', g, r, c - 1);
    assert r[c - 1] != r[0] by { ReplyIsFor(w, s, h, r, c); }
    TotalSum(Without(s.flight, k), [g], Weights(w));
    TotalOne(g, Weights(w));
    TotalWithout(s.flight, k, Weights(w));
  }

  lemma {:induction false} QueueShrinks(q: seq<Packet>, dst: int)
    ensures |Released(q, dst)| + |Remaining(q, dst)| <= |q|
    decreases |q|
  {
    var i := FirstFor(q, dst);
    if i < |q| { QueueShrinks(Deleted(q, i), dst); }
  }

  lemma {:induction false} DataSendsSize(t: Tables, reply: Packet, ps: seq<Packet>)
    requires |reply.path| >= 2
    ensures |DataSends(t, reply, ps)| == |ps|
  {
    if |ps| > 0 { DataSendsSize(t, reply, ps[..|ps| - 1]); }
  }

  // Every packet of data that a reply releases has at most one way through the network.
  lemma ReleaseLoad(w: World, s: Net, h: Hop, r: seq<int>, c: int)
    requires WorldOk(w) && OnReply(w, s, h, r, c) && h.to in w && h.to in s.seen && h.to in s.waiting && QueuesOk(s) && Releases(w, s, h)
    ensures |h.pkt.path| >= 2 && Load(w, Hops(h.to, DataSends(w[h.to], h.pkt, Data(s, h)))) <= |w| * |Data(s, h)|
  {
    var out := DataSends(w[h.to], h.pkt, Data(s, h));
    var f := Hops(h.to, out);
    DataWaits(s, h);
    hide WorldOk, QueuesOk, OnReply, Weight, Data, DataSends, Total, Waits;
    forall i {:trigger f[i]} | 0 <= i < |f|
      ensures Weight(w, f[i]) <= |w|
    {
      ReleaseTracks(w, s, h, r, c, Data(s, h), out[i]);
      DataWeight(w, f[i], r, c, 1);
    }
    TotalAtMost(f, Weights(w), |w|);
    DataSendsSize(w[h.to], h.pkt, Data(s, h));
  }

  lemma ReleaseShrinks(w: World, s: Net, s': Net, k: int, freshId: int)
    requires Inv(w, s) && IsDelivery(w, s, s', k, freshId) && s.flight[k].pkt.kind == Rr && IsMyid(w[s.flight[k].to].ids, s.flight[k].pkt.dst)
    ensures Load(w, s'.flight) < Load(w, s.flight) + if Releases(w, s, s.flight[k]) then |w| * |Data(s, s.flight[k])| else 0
  {
    var h := s.flight[k];
    DeliveredLoad(w, s, s', k, freshId);
    var r, c := ReplyTrack(w, s, h);
    hide WorldOk, OnReply, OnTrack, Total, Weight, Delivered, DataSends, Data, TablesKept, QueuesOk;
    ReplyWeight(w, s, h, r, c);
    if Releases(w, s, h) {
      ReleaseLoad(w, s, h, r, c);
    } else {
      NoLoad(w, h.to);
    }
  }

  lemma DataShrinks(w: World, s: Net, s': Net, k: int, freshId: int)
    requires Inv(w, s) && IsDelivery(w, s, s', k, freshId) && s.flight[k].pkt.kind == DATA
    ensures Load(w, s'.flight) < Load(w, s.flight)
  {
    hide *;
    DeliveredLoad(w, s, s', k, freshId);
    var h := s.flight[k];
    var r, c, i := DataTrack(w, s, h);
    DataWeight(w, h, r, c, i);
    var out := Reaction(w, s, h, freshId);
    if |out| == 0 {
      NoLoad(w, h.to);
      assert Hops(h.to, out) == Hops(h.to, []);
    } else {
      OnwardData(w, s, h, freshId, r, c, i);
      var g := Hop(h.to, out[0].to, out[0].pkt);
      assert Hops(h.to, out) == [g];
      LoadOne(w, g);
    }
  }

  lemma LoadOne(w: World, h: Hop)
    ensures Load(w, [h]) == Weight(w, h)
  {
    TotalOne(h, Weights(w));
  }

  lemma OnwardData(w: World, s: Net, h: Hop, freshId: int, r: seq<int>, c: int, i: int)
    requires WorldOk(w) && OnData(w, h, r, c, i) && h.to in w && h.to in s.seen && h.to in s.waiting && h.pkt.kind == DATA
    requires |Reaction(w, s, h, freshId)| > 0
    ensures var out := Reaction(w, s, h, freshId); |out| == 1 && Weight(w, Hop(h.to, out[0].to, out[0].pkt)) == Weight(w, h) - 1
  {
    var out := Reaction(w, s, h, freshId);
    DataWeight(w, h, r, c, i);
    DataTracks(w, h, r, c, i, out[0]);
    DataWeight(w, Hop(h.to, out[0].to, out[0].pkt), r, c, i + 1);
    DataStep(w, r, h.pkt, c, i);
    hide WorldOk, Weight, ForwardData, Route, OnceEach, Rewritten;
  }

  // ---- coming to rest

  lemma BudgetNat(w: World, s: Net)
    requires Inv(w, s) && Counted(w, s)
    ensures Sum(Budget(w, s)) >= 0 && Sum(Lengths(s)) >= 0
  {
    hide Sum, Inv, Counted;
    forall id | id in s.got
      ensures Budget(w, s)[id] >= 0
    {
      GotBound(w, s, id);
    }
    SumNat(Budget(w, s));
    SumNat(Lengths(s));
  }

  lemma Scaled(k: int, x: int, y: int, m: int)
    requires k >= 0 && x <= y - m
    ensures (k + 1) * x <= (k + 1) * y - k * m - m
  {
  }

  // Every packet that arrives brings the network closer to rest.
  lemma DeliveryShrinks(w: World, s: Net, s': Net, k: int, freshId: int)
    requires Inv(w, s) && Counted(w, s) && IsDelivery(w, s, s', k, freshId)
    ensures 0 <= Measure(w, s') < Measure(w, s)
  {
    MeasureNat(w, s') by {
      hide *;
      KeepsBoth(w, s, s', k, freshId);
    }
    hide Sum, Total, Budget, Lengths, Delivered, Data, Inv, Counted, IsMyid;
    DeliveredSums(w, s, s', k, freshId);
    var kind := s.flight[k].pkt.kind;
    var m := if kind == RR then 1 else if Releases(w, s, s.flight[k]) then |Data(s, s.flight[k])| else 0;
    Scaled(|w|, Sum(Budget(w, s')) + Sum(Lengths(s')), Sum(Budget(w, s)) + Sum(Lengths(s)), m);
    if kind == RR {
      RequestShrinks(w, s, s', k, freshId);
    } else if kind == DATA {
      DataShrinks(w, s, s', k, freshId);
    } else if IsMyid(w[s.flight[k].to].ids, s.flight[k].pkt.dst) {
      ReleaseShrinks(w, s, s', k, freshId);
    } else {
      ReplyShrinks(w, s, s', k, freshId);
    }
  }

  lemma KeepsBoth(w: World, s: Net, s': Net, k: int, freshId: int)
    requires Inv(w, s) && Counted(w, s) && IsDelivery(w, s, s', k, freshId)
    ensures Inv(w, s') && Counted(w, s')
  {
    hide Inv, Counted, IsDelivery;
    assert Step(w, s, s');
    StepKeeps(w, s, s');
  }

  ghost predicate Delivers(w: World, s: Net, s': Net) {
    exists k, freshId {:trigger IsDelivery(w, s, s', k, freshId)} :: IsDelivery(w, s, s', k, freshId)
  }

  // From state i on the run has arrivals only.
  ghost predicate Settling(w: World, run: seq<Net>, i: int) {
    0 <= i < |run| && forall j {:trigger run[j]} :: i <= j < |run| - 1 ==> Delivers(w, run[j], run[j + 1])
  }

  // No run settles for ever: the measure of a state bounds the arrivals that can follow it.
  lemma {:induction false} SettlingEnds(w: World, run: seq<Net>, i: int)
    requires Run(w, run) && Settling(w, run, i)
    ensures 0 <= |run| - 1 - i <= Measure(w, run[i])
    decreases |run| - i
  {
    hide Measure, Inv, Counted, IsDelivery, First, Step;
    RunKeeps(w, run, i);
    if i == |run| - 1 {
      MeasureNat(w, run[i]);
    } else {
      SettlingEnds(w, run, i + 1);
      var k, freshId :| IsDelivery(w, run[i], run[i + 1], k, freshId);
      DeliveryShrinks(w, run[i], run[i + 1], k, freshId);
    }
  }

  lemma MeasureNat(w: World, s: Net)
    requires Inv(w, s) && Counted(w, s)
    ensures Measure(w, s) >= 0
  {
    hide Inv, Counted, Sum, Total, Budget, Lengths;
    BudgetNat(w, s);
    TotalNat(s.flight, Weights(w));
  }

  lemma {:induction false} Unused(used: set<int>) returns (b: int)
    ensures forall x :: x in used ==> x < b
    decreases |used|
  {
    if x :| x in used {
      var c := Unused(used - {x});
      b := if x < c then c else x + 1;
      assert used == used - {x} + {x};
    } else {
      b := 0;
    }
  }

  // Any packet in flight can be the next to arrive, unless it is for a node that has exited.
  lemma CanArrive(w: World, s: Net, k: int) returns (s': Net, freshId: int)
    requires Inv(w, s) && Counted(w, s) && 0 <= k < |s.flight| && s.flight[k].to !in s.down
    ensures IsDelivery(w, s, s', k, freshId)
  {
    freshId := Unused(s.used);
    var h := s.flight[k];
    ToKnown(w, s, h);
    hide WorldOk, OnTrack, QueuesOk, CountOk, Reaction, Releases;
    s' := Delivered(w, s, k, freshId);
  }

  lemma ToKnown(w: World, s: Net, h: Hop)
    requires Inv(w, s) && Counted(w, s) && h in s.flight
    ensures h.to in w && h.to in s.seen && h.to in s.waiting && (h.pkt.kind == RR ==> h.pkt.id in s.sent && h.pkt.id in s.got)
  {
    hide WorldOk, Rewritten, Recorded, QueuesOk, CountOk, OnceEach;
    assert w.Keys == s.seen.Keys == s.waiting.Keys;
    match h.pkt.kind {
      case RR =>
        var r := RequestTrack(w, s, h);
        assert h.pkt.id in s.sent.Keys && h.pkt.id in s.got.Keys;
        RouteAt(w, r, |r| - 1);
      case Rr =>
        var r, c := ReplyTrack(w, s, h);
        RewrittenIs(w, r, h.pkt.path, c);
        RouteAt(w, r, c - 1);
      case DATA =>
        var r, c, i := DataTrack(w, s, h);
        RouteAt(w, r, i);
    }
  }

  lemma RunMore(w: World, run: seq<Net>, s': Net)
    requires Run(w, run) && Step(w, run[|run| - 1], s')
    ensures Run(w, run + [s'])
  {
    hide Step, First;
    var more := run + [s'];
    forall i {:trigger more[i]} | 0 <= i < |more| - 1
      ensures Step(w, more[i], more[i + 1])
    {
      if i < |run| - 1 { assert Step(w, run[i], run[i + 1]); }
    }
  }

  lemma SettlingMore(w: World, run: seq<Net>, i: int, s': Net)
    requires Settling(w, run, i) && Delivers(w, run[|run| - 1], s')
    ensures Settling(w, run + [s'], i)
  {
    hide Delivers;
    var more := run + [s'];
    forall j {:trigger more[j]} | i <= j < |more| - 1
      ensures Delivers(w, more[j], more[j + 1])
    {
      if j < |run| - 1 { assert Delivers(w, run[j], run[j + 1]); }
    }
  }

  // Nothing but packets for nodes that have exited is in flight.
  ghost predicate Rest(s: Net) { forall h {:trigger h in s.flight} :: h in s.flight ==> h.to in s.down }

  // The run can be continued by arrivals alone until it is at rest.
  lemma {:induction false} ComesToRest(w: World, run: seq<Net>, i: int) returns (more: seq<Net>)
    requires Run(w, run) && Settling(w, run, i)
    ensures run <= more && Run(w, more) && Settling(w, more, i) && Rest(more[|more| - 1])
    decreases Measure(w, run[|run| - 1])
  {
    hide Run, Measure, IsDelivery, Settling, Inv, Counted, Step, Delivers;
    more := run;
    SomeState(w, run, i);
    var s := run[|run| - 1];
    if !Rest(s) {
      var h :| h in s.flight && h.to !in s.down;
      var k :| 0 <= k < |s.flight| && s.flight[k] == h;
      RunKeeps(w, run, |run| - 1);
      var s', freshId := CanArrive(w, s, k);
      DeliveryShrinks(w, s, s', k, freshId);
      assert Step(w, s, s') && Delivers(w, s, s') by { IsStep(w, s, s', k, freshId); }
      RunMore(w, run, s');
      SettlingMore(w, run, i, s');
      assert (run + [s'])[|run + [s']| - 1] == s';
      more := ComesToRest(w, run + [s'], i);
    }
  }

  lemma IsStep(w: World, s: Net, s': Net, k: int, freshId: int)
    requires IsDelivery(w, s, s', k, freshId)
    ensures Step(w, s, s') && Delivers(w, s, s')
  {
  }

  lemma SomeState(w: World, run: seq<Net>, i: int)
    requires Settling(w, run, i)
    ensures 0 <= i < |run|
  {
  }

  // A network at rest, and no other, cannot move but by new requests.
  lemma OnlyRestStops(w: World, run: seq<Net>, i: int)
    requires Run(w, run) && 0 <= i < |run|
    ensures Rest(run[i]) <==> !exists s' :: Delivers(w, run[i], s')
  {
    hide *;
    RunKeeps(w, run, i);
    RestStays(w, run[i]);
  }

  lemma NoneArrives(w: World, s: Net, s': Net)
    requires Rest(s)
    ensures !Delivers(w, s, s')
  {
    hide Delivered;
    if k, freshId :| IsDelivery(w, s, s', k, freshId) {
      assert s.flight[k] in s.flight;
    }
  }

  lemma RestStays(w: World, s: Net)
    requires Inv(w, s) && Counted(w, s)
    ensures Rest(s) <==> !exists s' :: Delivers(w, s, s')
  {
    hide Inv, Counted, Delivered;
    if Rest(s) {
      forall s'
        ensures !Delivers(w, s, s')
      {
        NoneArrives(w, s, s');
      }
    } else {
      var h :| h in s.flight && h.to !in s.down;
      var k :| 0 <= k < |s.flight| && s.flight[k] == h;
      var s', freshId := CanArrive(w, s, k);
      assert Delivers(w, s, s');
    }
  }
}
