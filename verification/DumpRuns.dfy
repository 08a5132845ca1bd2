/** Whole runs: the invariant holds throughout, floods stop, replies and data arrive. */
module DumpRuns {
  import opened DumpTables
  import opened DumpNode
  import opened DumpWorld
  import opened DumpReplies
  import opened DumpRoute
  import opened DumpNet
  import opened DumpTotals

  // ---- a node asks for a route

  lemma {:induction false} RequestsAre(t: Tables, ports: seq<Port>, dst: int, ids: seq<int>, out: Send)
    requires |ids| == |ports| && out in Requests(t, ports, dst, ids)
    ensures exists i :: 0 <= i < |ports| && out == Send(ports[i].sock, Packet(RR, ids[i], GetMyid(t.ids, ports[i].sock), dst, [GetMyid(t.ids, ports[i].sock)]))
  {
    var n := |ports| - 1;
    if out in Requests(t, ports[..n], dst, ids[..n]) {
      RequestsAre(t, ports[..n], dst, ids[..n], out);
      var i :| 0 <= i < n &&
        out == Send(ports[..n][i].sock, Packet(RR, ids[..n][i], GetMyid(t.ids, ports[..n][i].sock), dst, [GetMyid(t.ids, ports[..n][i].sock)]));
      assert out == Send(ports[i].sock, Packet(RR, ids[i], GetMyid(t.ids, ports[i].sock), dst, [GetMyid(t.ids, ports[i].sock)]));
    } else {
      assert out == Send(ports[n].sock, Packet(RR, ids[n], GetMyid(t.ids, ports[n].sock), dst, [GetMyid(t.ids, ports[n].sock)]));
    }
  }

  lemma StartTracks(w: World, s: Net, n: int, dst: int, dataId: int, ids: seq<int>, out: Send)
    requires WorldOk(w) && n in w && n in s.waiting && |ids| == |w[n].ports| && out in Requests(w[n], w[n].ports, dst, ids)
    ensures OnTrack(w, Started(w, s, n, dst, dataId, ids), Hop(n, out.to, out.pkt))
  {
    RequestsAre(w[n], w[n].ports, dst, ids, out);
    var i :| 0 <= i < |ids| &&
      out == Send(w[n].ports[i].sock, Packet(RR, ids[i], GetMyid(w[n].ids, w[n].ports[i].sock), dst, [GetMyid(w[n].ids, w[n].ports[i].sock)]));
    assert LinkVia(w[n], i, out.to);
    hide WorldOk;
    OwnIface(w, n, out.to);
    assert OnRequest(w, Started(w, s, n, dst, dataId, ids), Hop(n, out.to, out.pkt), [n, out.to]);
  }

  lemma StartLater(w: World, s: Net, n: int, dst: int, dataId: int, ids: seq<int>)
    requires TablesKept(w, s) && n in w && |ids| == |w[n].ports| && Fresh(s, dataId, ids)
    ensures Later(s, Started(w, s, n, dst, dataId, ids)) && TablesKept(w, Started(w, s, n, dst, dataId, ids))
  {
  }

  lemma StartKeeps(w: World, s: Net, n: int, dst: int, dataId: int, ids: seq<int>)
    requires Inv(w, s) && n in w && |ids| == |w[n].ports| && Fresh(s, dataId, ids)
    ensures Inv(w, Started(w, s, n, dst, dataId, ids))
  {
    var s' := Started(w, s, n, dst, dataId, ids);
    StartLater(w, s, n, dst, dataId, ids);
    var out := Requests(w[n], w[n].ports, dst, ids);
    assert s'.flight == s.flight + Hops(n, out);
    hide WorldOk, Later, Started, TablesKept, Requests;
    forall g | g in s'.flight
      ensures OnTrack(w, s', g)
    {
      if g in s.flight {
        assert OnTrack(w, s, g);
        TrackStays(w, s, s', g);
      } else {
        var i :| 0 <= i < |out| && g == Hop(n, out[i].to, out[i].pkt);
        StartTracks(w, s, n, dst, dataId, ids, out[i]);
      }
    }
  }

  // ---- how many requests there can be

  function One(h: Hop, id: int): int { if h.pkt.kind == RR && h.pkt.id == id then 1 else 0 }

  function Ones(id: int): Hop -> int { (h: Hop) => One(h, id) }

  function Flying(f: seq<Hop>, id: int): int { Total(f, Ones(id)) }

  lemma {:induction false} FlyingSends(n: int, sends: seq<Send>, id: int, other: int)
    requires forall i {:trigger sends[i]} :: 0 <= i < |sends| ==> sends[i].pkt.kind == RR ==> sends[i].pkt.id == id
    ensures Flying(Hops(n, sends), other) == if other == id then Requesting(sends) else 0
  {
    if |sends| > 0 {
      var m := |sends| - 1;
      assert Hops(n, sends)[..m] == Hops(n, sends[..m]);
      FlyingSends(n, sends[..m], id, other);
    }
  }

  // The neighbours of a node, less the one a request came from.
  function Extra(w: World, n: int): int { if n in w && |w[n].ports| > 0 then |w[n].ports| - 1 else 0 }

  ghost function ExtraOf(w: World, ns: set<int>): int {
    if exists n :: n in ns then var n :| n in ns; Extra(w, n) + ExtraOf(w, ns - {n}) else 0
  }

  lemma {:induction false} ExtraPick(w: World, ns: set<int>, n: int)
    requires n in ns
    ensures ExtraOf(w, ns) == Extra(w, n) + ExtraOf(w, ns - {n})
    decreases |ns|
  {
    var m :| m in ns && ExtraOf(w, ns) == Extra(w, m) + ExtraOf(w, ns - {m});
    if m != n {
      ExtraPick(w, ns - {m}, n);
      ExtraPick(w, ns - {n}, m);
      assert ns - {m} - {n} == ns - {n} - {m};
    }
  }

  lemma {:induction false} ExtraMore(w: World, ns: set<int>, ms: set<int>)
    requires ns <= ms
    ensures ExtraOf(w, ns) <= ExtraOf(w, ms)
    decreases |ms|
  {
    if m :| m in ms {
      ExtraPick(w, ms, m);
      if m in ns {
        ExtraPick(w, ns, m);
        ExtraMore(w, ns - {m}, ms - {m});
      } else {
        ExtraMore(w, ns, ms - {m});
      }
    }
  }

  ghost function SeenBy(s: Net, id: int): set<int> { set n | n in s.seen && id in s.seen[n] }

  ghost predicate CountOk(w: World, s: Net, id: int)
    requires id in s.sent && id in s.got
  { Flying(s.flight, id) == s.sent[id] - s.got[id] && s.sent[id] <= 1 + ExtraOf(w, SeenBy(s, id)) }

  ghost predicate Counted(w: World, s: Net) {
    && s.sent.Keys == s.rrIds && s.got.Keys == s.rrIds
    && (forall id {:trigger CountOk(w, s, id)} :: id in s.rrIds ==> CountOk(w, s, id))
    && forall id {:trigger Flying(s.flight, id)} :: id !in s.rrIds ==> Flying(s.flight, id) == 0
  }

  // What a request is answered with: at most one request for every other neighbour.
  lemma AnswerSize(w: World, s: Net, h: Hop, r: seq<int>, freshId: int)
    requires WorldOk(w) && OnRequest(w, s, h, r) && h.to in w && h.pkt.kind == RR
    ensures Requesting(AnswerRR(w[h.to], h.pkt, freshId)) <= Extra(w, h.to)
    ensures var sends := AnswerRR(w[h.to], h.pkt, freshId);
      forall i {:trigger sends[i]} :: 0 <= i < |sends| ==> sends[i].pkt.kind == RR ==> sends[i].pkt.id == h.pkt.id
  {
    RequestLong(w, s, h, r);
    var n := |h.pkt.path|;
    var sends := AnswerRR(w[h.to], h.pkt, freshId);
    if IsMyid(w[h.to].ids, h.pkt.dst) {
      assert |sends| == 1 ==> sends[..0] == [];
    } else {
      RouteAt(w, r, n - 1);
      assert h.pkt.path[n - 1] == Iface(w, r[n - 1], r[n]);
      PortBack(w, r[n], r[n - 1]);
      FloodSize(w[h.to].ports, w[h.to].ids, h.pkt.path[n - 1], h.pkt);
      RequestingSize(sends);
      forall i {:trigger sends[i]} | 0 <= i < |sends|
        ensures sends[i].pkt.id == h.pkt.id
      {
        FloodIs(w[h.to].ports, w[h.to].ids, h.pkt.path[n - 1], h.pkt, sends[i]);
      }
    }
  }

  lemma PortBack(w: World, n: int, m: int)
    requires WorldOk(w) && Link(w, n, m)
    ensures n in w && exists i :: 0 <= i < |w[n].ports| && w[n].ports[i].peer == Iface(w, m, n)
  {
    var i :| LinkVia(w[n], i, m);
    assert PortOk(w, n, i);
  }

  lemma {:induction false} RequestingSize(sends: seq<Send>)
    ensures 0 <= Requesting(sends) <= |sends|
  {
    if |sends| > 0 { RequestingSize(sends[..|sends| - 1]); }
  }

  lemma {:induction false} NoRequests(sends: seq<Send>)
    requires forall i {:trigger sends[i]} :: 0 <= i < |sends| ==> sends[i].pkt.kind != RR
    ensures Requesting(sends) == 0
  {
    if |sends| > 0 { NoRequests(sends[..|sends| - 1]); }
  }

  lemma DeliverCounts(w: World, s: Net, k: int, freshId: int)
    requires Inv(w, s) && Counted(w, s) && 0 <= k < |s.flight| && s.flight[k].to in w && freshId !in s.used
    ensures s.flight[k].pkt.kind == RR ==> s.flight[k].pkt.id in s.sent && s.flight[k].pkt.id in s.got
    ensures Counted(w, Delivered(w, s, k, freshId))
  {
    var h := s.flight[k];
    assert OnTrack(w, s, h);
    if h.pkt.kind == RR {
      var r :| OnRequest(w, s, h, r);
      RequestCounts(w, s, k, r, freshId);
    } else {
      OtherCounts(w, s, k, freshId);
    }
  }

  lemma OtherCounts(w: World, s: Net, k: int, freshId: int)
    requires Inv(w, s) && Counted(w, s) && 0 <= k < |s.flight| && s.flight[k].to in w && s.flight[k].pkt.kind != RR
    ensures Counted(w, Delivered(w, s, k, freshId))
  {
    var h := s.flight[k];
    var out := Reaction(w, s, h, freshId);
    var s' := Delivered(w, s, k, freshId);
    OtherKinds(w, s, h, freshId);
    hide WorldOk, Reaction, Total, ExtraOf, Requesting;
    NoRequests(out);
    forall id
      ensures Flying(s'.flight, id) == Flying(s.flight, id)
    {
      TotalSum(Without(s.flight, k), Hops(h.to, out), Ones(id));
      TotalWithout(s.flight, k, Ones(id));
      FlyingSends(h.to, out, h.pkt.id, id);
    }
    forall id | id in s'.rrIds
      ensures CountOk(w, s', id)
    {
      assert CountOk(w, s, id);
      assert SeenBy(s', id) == SeenBy(s, id);
    }
  }

  lemma OtherKinds(w: World, s: Net, h: Hop, freshId: int)
    requires h.to in w && h.to in s.seen && h.to in s.waiting && h.pkt.kind != RR && QueuesOk(s)
    ensures var out := Reaction(w, s, h, freshId); forall i {:trigger out[i]} :: 0 <= i < |out| ==> out[i].pkt.kind != RR
  {
    var out := Reaction(w, s, h, freshId);
    if Releases(w, s, h) {
      DataWaits(s, h);
      hide Data;
      forall i {:trigger out[i]} | 0 <= i < |out|
        ensures out[i].pkt.kind != RR
      {
        DataSendsAre(w[h.to], h.pkt, Data(s, h), out[i]);
      }
    }
  }

  lemma RequestCounts(w: World, s: Net, k: int, r: seq<int>, freshId: int)
    requires Inv(w, s) && Counted(w, s) && 0 <= k < |s.flight| && s.flight[k].to in w && s.flight[k].pkt.kind == RR
    requires OnRequest(w, s, s.flight[k], r)
    ensures s.flight[k].pkt.id in s.sent && s.flight[k].pkt.id in s.got
    ensures Counted(w, Delivered(w, s, k, freshId))
  {
    var h := s.flight[k];
    assert h.pkt.id in s.sent.Keys && h.pkt.id in s.got.Keys;
    var out := Reaction(w, s, h, freshId);
    var s' := Delivered(w, s, k, freshId);
    ReactionSize(w, s, h, r, freshId);
    hide WorldOk, Reaction, Total, ExtraOf, Requesting, OnRequest;
    forall id
      ensures Flying(s'.flight, id) == Flying(s.flight, id) + if id == h.pkt.id then Requesting(out) - 1 else 0
    {
      TotalSum(Without(s.flight, k), Hops(h.to, out), Ones(id));
      TotalWithout(s.flight, k, Ones(id));
      FlyingSends(h.to, out, h.pkt.id, id);
    }
    forall id | id in s'.rrIds
      ensures CountOk(w, s', id)
    {
      assert CountOk(w, s, id);
      if id == h.pkt.id { OneMoreSeen(w, s, s', h, Requesting(out)); } else { assert SeenBy(s', id) == SeenBy(s, id); }
    }
  }

  lemma ReactionSize(w: World, s: Net, h: Hop, r: seq<int>, freshId: int)
    requires Inv(w, s) && OnRequest(w, s, h, r) && h.to in w && h.pkt.kind == RR
    ensures var out := Reaction(w, s, h, freshId);
      && (forall i {:trigger out[i]} :: 0 <= i < |out| ==> out[i].pkt.kind == RR ==> out[i].pkt.id == h.pkt.id)
      && Requesting(out) <= if h.pkt.id in s.seen[h.to] then 0 else Extra(w, h.to)
  {
    if h.pkt.id !in s.seen[h.to] { AnswerSize(w, s, h, r, freshId); }
  }

  lemma OneMoreSeen(w: World, s: Net, s': Net, h: Hop, more: int)
    requires h.to in s.seen && s'.seen == s.seen[h.to := s.seen[h.to] + {h.pkt.id}]
    requires more <= if h.pkt.id in s.seen[h.to] then 0 else Extra(w, h.to)
    ensures ExtraOf(w, SeenBy(s', h.pkt.id)) >= ExtraOf(w, SeenBy(s, h.pkt.id)) + more
  {
    hide ExtraOf;
    var ns, ms := SeenBy(s, h.pkt.id), SeenBy(s', h.pkt.id);
    if h.pkt.id in s.seen[h.to] {
      assert ms == ns;
    } else {
      assert ms - {h.to} == ns;
      ExtraPick(w, ms, h.to);
    }
  }

  lemma StartCounts(w: World, s: Net, n: int, dst: int, dataId: int, ids: seq<int>)
    requires Inv(w, s) && Counted(w, s) && n in w && |ids| == |w[n].ports| && Fresh(s, dataId, ids)
    ensures Counted(w, Started(w, s, n, dst, dataId, ids))
  {
    hide WorldOk, Total, ExtraOf, OnTrack, QueuesOk, Requests, Ones;
    var s' := Started(w, s, n, dst, dataId, ids);
    var out := Requests(w[n], w[n].ports, dst, ids);
    forall id
      ensures Flying(s'.flight, id) == Flying(s.flight, id) + if id in ids then 1 else 0
    {
      TotalSum(s.flight, Hops(n, out), Ones(id));
      FlyingRequests(w[n], n, w[n].ports, dst, ids, id);
    }
    forall id | id in s'.rrIds
      ensures CountOk(w, s', id)
    {
      ExtraMore(w, {}, SeenBy(s', id));
      NoExtra(w);
      if id in ids {
        assert id !in s.rrIds;
      } else {
        assert CountOk(w, s, id);
        assert SeenBy(s', id) == SeenBy(s, id);
      }
    }
  }

  lemma NoExtra(w: World)
    ensures ExtraOf(w, {}) == 0
  {
  }

  lemma {:induction false} FlyingRequests(t: Tables, n: int, ports: seq<Port>, dst: int, ids: seq<int>, id: int)
    requires |ids| == |ports| && forall i, j :: 0 <= i < j < |ids| ==> ids[i] != ids[j]
    ensures Flying(Hops(n, Requests(t, ports, dst, ids)), id) == if id in ids then 1 else 0
  {
    if |ports| > 0 {
      var m := |ports| - 1;
      FlyingRequests(t, n, ports[..m], dst, ids[..m], id);
      var hs := Hops(n, Requests(t, ports, dst, ids));
      RequestsSize(t, ports, dst, ids);
      RequestsSize(t, ports[..m], dst, ids[..m]);
      assert hs[..m] == Hops(n, Requests(t, ports[..m], dst, ids[..m]));
      assert ids == ids[..m] + [ids[m]];
    }
  }

  lemma {:induction false} RequestsSize(t: Tables, ports: seq<Port>, dst: int, ids: seq<int>)
    requires |ids| == |ports|
    ensures |Requests(t, ports, dst, ids)| == |ports|
  {
    if |ports| > 0 { RequestsSize(t, ports[..|ports| - 1], dst, ids[..|ports| - 1]); }
  }

  // ---- runs

  ghost predicate First(w: World, s: Net) {
    && WorldOk(w) && s.flight == [] && s.down == {} && s.rrIds == {} && s.sent == map[] && s.got == map[]
    && s.seen.Keys == w.Keys && (forall n {:trigger s.seen[n]} :: n in s.seen ==> s.seen[n] == {})
    && s.waiting.Keys == w.Keys && forall n {:trigger s.waiting[n]} :: n in s.waiting ==> s.waiting[n] == []
  }

  ghost predicate IsStart(w: World, s: Net, s': Net, n: int, dst: int, dataId: int, ids: seq<int>) {
    && n in w && n in s.waiting && n !in s.down && |ids| == |w[n].ports| && Fresh(s, dataId, ids)
    && s' == Started(w, s, n, dst, dataId, ids)
  }

  ghost predicate IsDelivery(w: World, s: Net, s': Net, k: int, freshId: int) {
    && 0 <= k < |s.flight| && s.flight[k].to in w && s.flight[k].to in s.seen && s.flight[k].to in s.waiting
    && s.flight[k].to !in s.down && freshId !in s.used
    && (s.flight[k].pkt.kind == RR ==> s.flight[k].pkt.id in s.sent && s.flight[k].pkt.id in s.got)
    && s' == Delivered(w, s, k, freshId)
  }

  // Somebody asks for a route, or some packet arrives; a node that has exited does neither.
  ghost predicate Step(w: World, s: Net, s': Net) {
    || (exists n, dst, dataId, ids {:trigger IsStart(w, s, s', n, dst, dataId, ids)} :: IsStart(w, s, s', n, dst, dataId, ids))
    || (exists k, freshId {:trigger IsDelivery(w, s, s', k, freshId)} :: IsDelivery(w, s, s', k, freshId))
  }

  ghost predicate Run(w: World, run: seq<Net>) {
    |run| > 0 && First(w, run[0]) && forall i {:trigger run[i]} :: 0 <= i < |run| - 1 ==> Step(w, run[i], run[i + 1])
  }

  lemma FirstHolds(w: World, s: Net)
    requires First(w, s)
    ensures Inv(w, s) && Counted(w, s)
  {
  }

  lemma StepKeeps(w: World, s: Net, s': Net)
    requires Inv(w, s) && Counted(w, s) && Step(w, s, s')
    ensures Inv(w, s') && Counted(w, s')
  {
    hide Inv, Counted, Started, Delivered, Fresh, Waits;
    if n, dst, dataId, ids :| IsStart(w, s, s', n, dst, dataId, ids) {
      StartKeeps(w, s, n, dst, dataId, ids);
      StartCounts(w, s, n, dst, dataId, ids);
    } else {
      var k, freshId :| IsDelivery(w, s, s', k, freshId);
      DeliverKeeps(w, s, k, freshId);
      DeliverCounts(w, s, k, freshId);
    }
  }

  lemma {:induction false} RunKeeps(w: World, run: seq<Net>, i: int)
    requires Run(w, run) && 0 <= i < |run|
    ensures Inv(w, run[i]) && Counted(w, run[i])
  {
    hide Inv, Counted, Step, First;
    if i == 0 {
      FirstHolds(w, run[0]);
    } else {
      RunKeeps(w, run, i - 1);
      StepKeeps(w, run[i - 1], run[i]);
    }
  }

  // Flooding stops: in every reachable state the requests sent with one id are at most one plus
  // the other neighbours of all nodes, and no more have arrived than were sent.
  lemma FloodBounded(w: World, run: seq<Net>, i: int, id: int)
    requires Run(w, run) && 0 <= i < |run| && id in run[i].rrIds
    ensures id in run[i].sent && id in run[i].got && run[i].got[id] <= run[i].sent[id] <= 1 + ExtraOf(w, w.Keys)
  {
    RunKeeps(w, run, i);
    assert id in run[i].got.Keys;
    GotBound(w, run[i], id);
  }

  lemma GotBound(w: World, s: Net, id: int)
    requires Inv(w, s) && Counted(w, s) && id in s.got
    ensures id in s.sent && s.got[id] <= s.sent[id] <= 1 + ExtraOf(w, w.Keys)
  {
    assert id in s.got.Keys && id in s.sent.Keys;
    assert CountOk(w, s, id);
    TotalNat(s.flight, Ones(id));
    assert SeenBy(s, id) <= w.Keys by { assert s.seen.Keys == w.Keys; }
    ExtraMore(w, SeenBy(s, id), w.Keys);
  }

  // A node passes a given request on at most once: once it is in the table, nothing is sent.
  lemma OnlyOnce(w: World, s: Net, k: int, freshId: int)
    requires Inv(w, s) && 0 <= k < |s.flight| && s.flight[k].to in w
    requires s.flight[k].pkt.kind == RR && s.flight[k].pkt.id in s.sent && s.flight[k].pkt.id in s.got
    ensures var s' := Delivered(w, s, k, freshId); s.flight[k].to in s'.seen && s.flight[k].pkt.id in s'.seen[s.flight[k].to]
    ensures s.flight[k].pkt.id in s.seen[s.flight[k].to] ==> Delivered(w, s, k, freshId).flight == Without(s.flight, k)
  {
  }

  // Along the path of a request every node but the one that asked is met at most once.
  lemma RequestPath(w: World, run: seq<Net>, i: int, h: Hop)
    requires Run(w, run) && 0 <= i < |run| && h in run[i].flight && h.pkt.kind == RR
    ensures exists r :: Route(w, r) && Recorded(w, r, h.pkt.path) && r[|r| - 1] == h.to && OnceEach(r[..|r| - 1])
  {
    RunKeeps(w, run, i);
    assert OnTrack(w, run[i], h);
    var r :| OnRequest(w, run[i], h, r);
  }

  // No reply is lost: one that arrives where it is not meant for goes on, alone, to the node before
  // on the route, with one entry less to rewrite.
  lemma ReplyGoesOn(w: World, run: seq<Net>, i: int, s': Net, k: int, freshId: int)
    requires Run(w, run) && 0 <= i < |run| && IsDelivery(w, run[i], s', k, freshId)
    requires var h := run[i].flight[k]; h.pkt.kind == Rr && !IsMyid(w[h.to].ids, h.pkt.dst)
    ensures exists r, c, g {:trigger Onwards(w, run[i], s', k, r, c, g)} :: OnReply(w, run[i], run[i].flight[k], r, c) && Onwards(w, run[i], s', k, r, c, g)
  {
    RunKeeps(w, run, i);
    assert OnTrack(w, run[i], run[i].flight[k]);
    var r, c :| OnReply(w, run[i], run[i].flight[k], r, c);
    var g := StepReply(w, run[i], s', k, freshId, r, c);
  }

  // The k-th packet in flight was the reply at r[c - 1]; what it leaves behind is g, the reply on
  // its way to r[c - 2].
  ghost predicate Onwards(w: World, s: Net, s': Net, k: int, r: seq<int>, c: int, g: Hop) {
    && 2 <= c < |r| && 0 <= k < |s.flight| && s'.flight == Without(s.flight, k) + [g]
    && g.pkt.kind == Rr && g.pkt.id == s.flight[k].pkt.id && g.from == s.flight[k].to && g.to == r[c - 2] && OnReply(w, s', g, r, c - 1)
  }

  lemma StepReply(w: World, s: Net, s': Net, k: int, freshId: int, r: seq<int>, c: int) returns (g: Hop)
    requires Inv(w, s) && IsDelivery(w, s, s', k, freshId) && s.flight[k].pkt.kind == Rr
    requires !IsMyid(w[s.flight[k].to].ids, s.flight[k].pkt.dst) && OnReply(w, s, s.flight[k], r, c)
    ensures Onwards(w, s, s', k, r, c, g)
  {
    var h := s.flight[k];
    DeliveryLater(w, s, k, freshId);
    hide WorldOk, Later;
    ReplyTracks(w, s, s', h, r, c);
    ReplyIsFor(w, s, h, r, c);
    assert s.seen[h.to] <= s.rrIds;
    hide OnReply, ForwardRr;
    var out := Reaction(w, s, h, freshId);
    assert out == ForwardRr(w[h.to], h.pkt);
    g := Hop(h.to, out[0].to, out[0].pkt);
    assert Hops(h.to, out) == [g];
  }

  // The way of a reply: it visits the nodes before it on the route, one after the other, to the
  // first of them that is the node that asked; with distinct nodes that is the start of the route.
  lemma ReplyWay(w: World, run: seq<Net>, i: int, h: Hop, fuel: nat)
    requires Run(w, run) && 0 <= i < |run| && h in run[i].flight && h.pkt.kind == Rr && fuel >= |h.pkt.path|
    ensures exists r, c {:trigger OnReply(w, run[i], h, r, c)} ::
      && OnReply(w, run[i], h, r, c) && 1 <= c < |r| && r[c - 1] == h.to && r[|r| - 1] in w && Owns(w, r[|r| - 1], h.pkt.src)
      && Backwards(Returns(w, h.pkt, h.to, fuel), r, c - 1, Home(r, c - 1))
      && ((forall j :: 1 <= j < c ==> r[j] != r[0]) ==> Home(r, c - 1) == 0)
  {
    RunKeeps(w, run, i);
    assert OnTrack(w, run[i], h);
    var r, c :| OnReply(w, run[i], h, r, c);
    RewrittenIs(w, r, h.pkt.path, c);
    hide WorldOk, Run, Route, OnceEach, Rewritten, Returns, Backwards;
    RouteAt(w, r, |r| - 1);
    ReplyComesHome(w, r, h.pkt, c, fuel);
    if forall j :: 1 <= j < c ==> r[j] != r[0] { DistinctHome(r, c - 1); }
  }

  lemma StepLater(w: World, s: Net, s': Net)
    requires Inv(w, s) && Counted(w, s) && Step(w, s, s')
    ensures Later(s, s')
  {
    hide WorldOk, QueuesOk, Later, Fresh, CountOk, OnTrack;
    if n, dst, dataId, ids :| IsStart(w, s, s', n, dst, dataId, ids) {
      StartLater(w, s, n, dst, dataId, ids);
    } else {
      var k, freshId :| IsDelivery(w, s, s', k, freshId);
      if s.flight[k].pkt.kind == RR { RequestKnown(w, s, s.flight[k]); }
      DeliveryLater(w, s, k, freshId);
    }
  }

  lemma RequestKnown(w: World, s: Net, h: Hop)
    requires Inv(w, s) && h in s.flight && h.pkt.kind == RR
    ensures h.pkt.id in s.rrIds
  {
    assert OnTrack(w, s, h);
  }

  // Data that is taken has come along the whole route that the request recorded.
  lemma DataTakenAtEnd(w: World, run: seq<Net>, i: int, h: Hop)
    requires Run(w, run) && 0 <= i < |run| && h in run[i].flight && h.pkt.kind == DATA && h.to in w
    ensures exists r, c, j {:trigger OnData(w, h, r, c, j)} :: OnData(w, h, r, c, j) && (IsMyid(w[h.to].ids, h.pkt.dst) <==> j == |r| - 1)
  {
    RunKeeps(w, run, i);
    assert OnTrack(w, run[i], h);
    var r, c, j :| OnData(w, h, r, c, j);
    DataArrives(w, h, r, c, j);
  }

  // The way of the data that a reply releases at the node that asked: it visits the nodes of the
  // route the request came along, in order, exactly when every node whose entry the reply did not
  // rewrite uses one address on both sides. Entries are left when the request passed the node
  // that asked a second time; there are none when the nodes of the route are distinct.
  lemma RouteOutcome(w: World, run: seq<Net>, i: int, h: Hop)
    requires Run(w, run) && 0 <= i < |run| && h in run[i].flight && h.pkt.kind == Rr && h.to in w && IsMyid(w[h.to].ids, h.pkt.dst)
    ensures exists r, c {:trigger OnReply(w, run[i], h, r, c)} ::
      && OnReply(w, run[i], h, r, c)
      && r[c - 1] == r[0] == h.to && (c == 1 <==> forall j :: 1 <= j < |r| - 1 ==> r[j] != r[0])
      && DataWay(w, h, r, c)
  {
    RunKeeps(w, run, i);
    assert OnTrack(w, run[i], h);
    var r, c :| OnReply(w, run[i], h, r, c);
    ReplyIsFor(w, run[i], h, r, c);
    WayIs(w, run[i], h, r, c);
    OnlySecondVisit(w, run[i], h, r, c);
    hide DataWay, Inv, OnTrack, Run;
  }

  // Data on the path of the reply visits the nodes of r exactly when the entries that are left fit.
  ghost predicate DataWay(w: World, h: Hop, r: seq<int>, c: int)
    requires WorldOk(w) && Route(w, r) && 1 <= c < |r|
  {
    forall p: Packet, fuel: nat {:trigger Trace(w, p, h.to, fuel)} :: p.path == h.pkt.path && p.dst == h.pkt.src && fuel >= |r| ==>
      (Trace(w, p, h.to, fuel) == r <==> forall j :: 1 <= j < c ==> SameAddress(w, r, j))
  }

  lemma WayIs(w: World, s: Net, h: Hop, r: seq<int>, c: int)
    requires WorldOk(w) && OnReply(w, s, h, r, c) && r[c - 1] == r[0] == h.to
    ensures DataWay(w, h, r, c)
  {
    forall p: Packet, fuel: nat {:trigger Trace(w, p, h.to, fuel)} | p.path == h.pkt.path && p.dst == h.pkt.src && fuel >= |r|
      ensures Trace(w, p, h.to, fuel) == r <==> forall j :: 1 <= j < c ==> SameAddress(w, r, j)
    {
      DataFollowsRoute(w, r, p, c, fuel);
    }
  }

  lemma OnlySecondVisit(w: World, s: Net, h: Hop, r: seq<int>, c: int)
    requires OnReply(w, s, h, r, c) && r[c - 1] == r[0]
    ensures c == 1 <==> forall j :: 1 <= j < |r| - 1 ==> r[j] != r[0]
  {
    if c != 1 { assert r[c - 1] == r[0] && 1 <= c - 1 < |r| - 1; }
  }
}
