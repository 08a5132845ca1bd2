/** Searches succeed: the node that is asked for answers, floods reach every node, and the answer comes back. */
module DumpSearch {
  import opened DumpTables
  import opened DumpNode
  import opened DumpWorld
  import opened DumpReplies
  import opened DumpRoute
  import opened DumpNet
  import opened DumpRuns
  import opened DumpQuiet
  import opened DumpFate

  // ---- what a request leaves behind

  // A new request at the node it asks for is answered, over the link it came by.
  lemma AnswerSent(w: World, s: Net, s': Net, k: int, freshId: int)
    requires Inv(w, s) && IsDelivery(w, s, s', k, freshId)
    requires var h := s.flight[k]; h.pkt.kind == RR && h.pkt.id !in s.seen[h.to] && Owns(w, h.to, h.pkt.dst)
    ensures var h := s.flight[k];
      s'.flight == Without(s.flight, k) + [Hop(h.to, h.from, Packet(Rr, freshId, h.pkt.dst, h.pkt.src, h.pkt.path + [Iface(w, h.to, h.from)]))]
  {
    var h := s.flight[k];
    var r := RequestTrack(w, s, h);
    RequestLong(w, s, h, r);
    hide Inv, WorldOk, OnceEach;
    var n := |r| - 1;
    RouteAt(w, r, n - 1);
    assert h.pkt.path[n - 1] == Iface(w, r[n - 1], r[n]);
    LookupAt(w, r[n], r[n - 1]);
    OwnIface(w, r[n], r[n - 1]);
  }

  // A new request at any other node goes on to every neighbour but the one it came from.
  lemma FloodSent(w: World, s: Net, s': Net, k: int, freshId: int, u: int)
    requires Inv(w, s) && IsDelivery(w, s, s', k, freshId)
    requires var h := s.flight[k];
      h.pkt.kind == RR && h.pkt.id !in s.seen[h.to] && !Owns(w, h.to, h.pkt.dst) && Link(w, h.to, u) && u != h.from
    ensures var h := s.flight[k]; Hop(h.to, u, h.pkt.(path := h.pkt.path + [Iface(w, h.to, u)])) in s'.flight
  {
    var h := s.flight[k];
    var r := RequestTrack(w, s, h);
    RequestLong(w, s, h, r);
    FloodsTo(w, s, h, r, u);
    hide Inv, WorldOk, OnRequest, Flood;
    var t := w[h.to];
    var pkt := h.pkt.(path := h.pkt.path + [Iface(w, h.to, u)]);
    var out := Reaction(w, s, h, freshId);
    var i :| 0 <= i < |out| && out[i] == Send(u, pkt);
    assert Hops(h.to, out)[i] == Hop(h.to, u, pkt);
  }

  lemma FloodsTo(w: World, s: Net, h: Hop, r: seq<int>, u: int)
    requires WorldOk(w) && OnRequest(w, s, h, r) && Link(w, h.to, u) && u != h.from && |h.pkt.path| == |r| - 1 >= 1
    ensures h.to in w && var t := w[h.to];
      Send(u, h.pkt.(path := h.pkt.path + [Iface(w, h.to, u)])) in Flood(t.ports, t.ids, h.pkt.path[|h.pkt.path| - 1], h.pkt)
  {
    var t, n := w[h.to], |r| - 1;
    RouteAt(w, r, n - 1);
    var prev := h.pkt.path[n - 1];
    assert prev == Iface(w, h.from, h.to);
    LookupAt(w, h.to, h.from);
    LookupAt(w, h.to, u);
    OwnIface(w, h.to, u);
    var i :| LinkVia(t, i, u);
    assert PortOk(w, h.to, i);
    hide WorldOk, OnRequest;
    assert t.ports[i].peer != prev && Send(u, h.pkt.(path := h.pkt.path + [Iface(w, h.to, u)])) == FloodCopy(t.ports[i], t.ids, h.pkt);
    FloodIs(t.ports, t.ids, prev, h.pkt, Send(u, h.pkt.(path := h.pkt.path + [Iface(w, h.to, u)])));
  }

  // A node that asks sends a request of its own over every link.
  lemma {:induction false} RequestsAll(t: Tables, ports: seq<Port>, dst: int, ids: seq<int>, i: int)
    requires |ids| == |ports| && 0 <= i < |ports|
    ensures Send(ports[i].sock, Packet(RR, ids[i], GetMyid(t.ids, ports[i].sock), dst, [GetMyid(t.ids, ports[i].sock)])) in Requests(t, ports, dst, ids)
  {
    if i < |ports| - 1 { RequestsAll(t, ports[..|ports| - 1], dst, ids[..|ports| - 1], i); }
  }

  // ---- a search spreads

  ghost predicate Coming(s: Net, u: int, q: int) { exists h :: h in s.flight && h.to == u && h.pkt.kind == RR && h.pkt.id == q }

  // Node u has got request q, or will.
  ghost predicate Reaching(s: Net, u: int, q: int) { (u in s.seen && q in s.seen[u]) || Coming(s, u, q) }

  // All requests of id q are those of one node, for one destination.
  ghost predicate SameSearch(s: Net, q: int, src: int, dst: int) {
    forall h {:trigger h in s.flight} :: h in s.flight && h.pkt.kind == RR && h.pkt.id == q ==> h.pkt.src == src && h.pkt.dst == dst
  }

  // Every node that has the request, and is not the one asked for, has passed it on.
  ghost predicate Spread(w: World, s: Net, q: int, n: int, dst: int) {
    forall v, u {:trigger Link(w, v, u)} ::
      Link(w, v, u) && v in s.seen && q in s.seen[v] && !Owns(w, v, dst) && u != n ==> Reaching(s, u, q)
  }

  lemma ReachingStays(w: World, s: Net, s': Net, u: int, q: int)
    requires Inv(w, s) && Counted(w, s) && Step(w, s, s') && Reaching(s, u, q)
    ensures Reaching(s', u, q)
  {
    StepLater(w, s, s');
    hide Inv, Counted, Step, OnTrack;
    if u in s.seen && q in s.seen[u] {
      SeenGrows(s, s', u);
    } else {
      var h :| h in s.flight && h.to == u && h.pkt.kind == RR && h.pkt.id == q;
      HopStays(w, s, s', h);
      if h !in s'.flight {
        var k, freshId :| Arrives(w, s, s', h, k, freshId);
        NowSeen(w, s, s', k, freshId);
      }
    }
  }

  lemma NowSeen(w: World, s: Net, s': Net, k: int, freshId: int)
    requires IsDelivery(w, s, s', k, freshId) && s.flight[k].pkt.kind == RR
    ensures s.flight[k].to in s'.seen && s.flight[k].pkt.id in s'.seen[s.flight[k].to]
  {
    hide Reaction, Releases, Exits, Requesting;
  }

  // Whoever has the request now and had it not before has just got it.
  lemma JustSeen(w: World, s: Net, s': Net, v: int, q: int) returns (k: int, freshId: int)
    requires Step(w, s, s') && v in s'.seen && q in s'.seen[v] && !(v in s.seen && q in s.seen[v])
    ensures IsDelivery(w, s, s', k, freshId) && var h := s.flight[k]; h.to == v && h.pkt.kind == RR && h.pkt.id == q
  {
    hide Reaction, Releases, Exits, Requesting, Requests, Fresh;
    k, freshId :| IsDelivery(w, s, s', k, freshId);
  }

  lemma SameStays(w: World, s: Net, s': Net, q: int, src: int, dst: int)
    requires Inv(w, s) && Counted(w, s) && Step(w, s, s') && q in s.rrIds && SameSearch(s, q, src, dst)
    ensures q in s'.rrIds && SameSearch(s', q, src, dst)
  {
    StepLater(w, s, s');
    assert q in s.used;
    if n, dst1, dataId, ids :| IsStart(w, s, s', n, dst1, dataId, ids) {
      hide Inv, Counted;
      var out := Requests(w[n], w[n].ports, dst1, ids);
      forall h {:trigger h in s'.flight} | h in s'.flight && h.pkt.kind == RR && h.pkt.id == q
        ensures h in s.flight
      {
        if h !in s.flight {
          var i :| 0 <= i < |out| && h == Hop(n, out[i].to, out[i].pkt);
          RequestsAre(w[n], w[n].ports, dst1, ids, out[i]);
        }
      }
    } else {
      var k, freshId :| IsDelivery(w, s, s', k, freshId);
      SameDelivered(w, s, s', k, freshId, q, src, dst);
    }
  }

  lemma SameDelivered(w: World, s: Net, s': Net, k: int, freshId: int, q: int, src: int, dst: int)
    requires Inv(w, s) && IsDelivery(w, s, s', k, freshId) && SameSearch(s, q, src, dst)
    ensures SameSearch(s', q, src, dst)
  {
    var h := s.flight[k];
    var out := Reaction(w, s, h, freshId);
    assert s'.flight == Without(s.flight, k) + Hops(h.to, out);
    forall g {:trigger g in s'.flight} | g in s'.flight && g.pkt.kind == RR && g.pkt.id == q
      ensures g.pkt.src == src && g.pkt.dst == dst
    {
      if g !in Without(s.flight, k) {
        var i :| 0 <= i < |out| && g == Hop(h.to, out[i].to, out[i].pkt);
        OnlyCopies(w, s, h, freshId, out[i]);
      } else {
        assert g in s.flight;
      }
    }
  }

  // A request comes only from a request.
  lemma OnlyCopies(w: World, s: Net, h: Hop, freshId: int, out: Send)
    requires Inv(w, s) && h in s.flight && h.to in w && h.to in s.seen && h.to in s.waiting
    requires out in Reaction(w, s, h, freshId) && out.pkt.kind == RR
    ensures h.pkt.kind == RR && out.pkt.id == h.pkt.id && out.pkt.src == h.pkt.src && out.pkt.dst == h.pkt.dst
  {
    var t := w[h.to];
    match h.pkt.kind {
      case RR =>
        var r := RequestTrack(w, s, h);
        RequestLong(w, s, h, r);
        if !IsMyid(t.ids, h.pkt.dst) { FloodIs(t.ports, t.ids, h.pkt.path[|h.pkt.path| - 1], h.pkt, out); }
      case Rr =>
        if IsMyid(t.ids, h.pkt.dst) {
          DataSendsAre(t, h.pkt, Data(s, h), out);
          DataWaits(s, h);
        }
      case DATA =>
    }
  }

  // The request comes back to no node before the one it was sent by, but that which asked.
  lemma FromSeen(w: World, s: Net, h: Hop, n: int, m: int)
    requires Inv(w, s) && h in s.flight && h.pkt.kind == RR && Link(w, n, m) && h.pkt.src == Iface(w, n, m) && h.from != n
    ensures h.from in s.seen && h.pkt.id in s.seen[h.from]
  {
    var r := RequestTrack(w, s, h);
    RequestLong(w, s, h, r);
    RouteAt(w, r, 0);
    OwnIface(w, r[0], r[1]);
    OwnerIs(w, r[0], n, m);
    assert h.from == r[|r| - 2];
  }

  lemma SpreadStays(w: World, s: Net, s': Net, q: int, n: int, m: int, dst: int)
    requires Inv(w, s) && Counted(w, s) && Step(w, s, s') && Link(w, n, m)
    requires SameSearch(s, q, Iface(w, n, m), dst) && Spread(w, s, q, n, dst)
    ensures Spread(w, s', q, n, dst)
  {
    hide Inv, Counted, Step, Link, SameSearch, Reaching, Owns;
    forall v, u {:trigger Link(w, v, u)} | Link(w, v, u) && v in s'.seen && q in s'.seen[v] && !Owns(w, v, dst) && u != n
      ensures Reaching(s', u, q)
    {
      if v in s.seen && q in s.seen[v] {
        ReachingStays(w, s, s', u, q);
      } else {
        PassedOn(w, s, s', q, n, m, dst, v, u);
      }
    }
  }

  lemma PassedOn(w: World, s: Net, s': Net, q: int, n: int, m: int, dst: int, v: int, u: int)
    requires Inv(w, s) && Counted(w, s) && Step(w, s, s') && Link(w, n, m) && SameSearch(s, q, Iface(w, n, m), dst)
    requires v in s'.seen && q in s'.seen[v] && !(v in s.seen && q in s.seen[v]) && Link(w, v, u) && !Owns(w, v, dst) && u != n
    ensures Reaching(s', u, q)
  {
    var k, freshId := JustSeen(w, s, s', v, q);
    var h := s.flight[k];
    assert h in s.flight;
    if u == h.from {
      FromSeen(w, s, h, n, m);
      hide Inv, Counted, Step, Link;
      ReachingStays(w, s, s', u, q);
    } else {
      assert IsDelivery(w, s, s', k, freshId);
      hide Counted, Step, Delivered;
      FloodSent(w, s, s', k, freshId, u);
      assert Coming(s', u, q);
    }
  }

  // ---- a search in a run

  // The search q of node n over its link to m is under way.
  ghost predicate Hunting(w: World, s: Net, q: int, n: int, m: int, dst: int) {
    && Link(w, n, m) && q in s.rrIds && SameSearch(s, q, Iface(w, n, m), dst) && Spread(w, s, q, n, dst) && Reaching(s, m, q)
  }

  // No node has got request q yet.
  ghost predicate Unseen(s: Net, q: int) { forall v {:trigger s.seen[v]} :: v in s.seen ==> q !in s.seen[v] }

  lemma HuntStarts(w: World, s: Net, s': Net, n: int, dst: int, dataId: int, ids: seq<int>, i: int)
    requires Inv(w, s) && IsStart(w, s, s', n, dst, dataId, ids) && 0 <= i < |ids|
    ensures Hunting(w, s', ids[i], n, w[n].ports[i].sock, dst)
    ensures Unseen(s', ids[i])
  {
    var t, q, m := w[n], ids[i], w[n].ports[i].sock;
    assert LinkVia(t, i, m);
    OwnIface(w, n, m);
    var out := Requests(t, t.ports, dst, ids);
    RequestsAll(t, t.ports, dst, ids, i);
    var j :| 0 <= j < |out| && out[j] == Send(m, Packet(RR, q, Iface(w, n, m), dst, [Iface(w, n, m)]));
    assert Hops(n, out)[j] in s'.flight;
    assert Coming(s', m, q);
    forall v {:trigger s'.seen[v]} | v in s'.seen
      ensures q !in s'.seen[v]
    {
      assert s.seen[v] <= s.rrIds;
    }
    SearchIsNew(w, s, s', n, dst, dataId, ids, i);
  }

  lemma UsedIds(w: World, s: Net)
    requires Inv(w, s)
    ensures forall h {:trigger h in s.flight} :: h in s.flight && h.pkt.kind == RR ==> h.pkt.id in s.used
  {
    forall h {:trigger h in s.flight} | h in s.flight && h.pkt.kind == RR
      ensures h.pkt.id in s.used
    {
      var r := RequestTrack(w, s, h);
    }
  }

  lemma SearchIsNew(w: World, s: Net, s': Net, n: int, dst: int, dataId: int, ids: seq<int>, i: int)
    requires Inv(w, s) && IsStart(w, s, s', n, dst, dataId, ids) && 0 <= i < |ids| && LinkVia(w[n], i, w[n].ports[i].sock)
    requires GetMyid(w[n].ids, w[n].ports[i].sock) == Iface(w, n, w[n].ports[i].sock)
    ensures SameSearch(s', ids[i], Iface(w, n, w[n].ports[i].sock), dst)
  {
    var t, q := w[n], ids[i];
    var out := Requests(t, t.ports, dst, ids);
    forall h {:trigger h in s'.flight} | h in s'.flight && h.pkt.kind == RR && h.pkt.id == q
      ensures h.pkt.src == Iface(w, n, t.ports[i].sock) && h.pkt.dst == dst
    {
      UsedIds(w, s);
      if h !in s.flight {
        var j :| 0 <= j < |out| && h == Hop(n, out[j].to, out[j].pkt);
        RequestsAre(t, t.ports, dst, ids, out[j]);
      }
    }
  }

  lemma {:induction false} HuntGoesOn(w: World, run: seq<Net>, i: int, j: int, q: int, n: int, m: int, dst: int)
    requires Run(w, run) && 0 <= i <= j < |run| && Hunting(w, run[i], q, n, m, dst)
    ensures Hunting(w, run[j], q, n, m, dst)
    decreases j
  {
    hide Hunting, Step, Inv, Counted, First;
    if i < j {
      HuntGoesOn(w, run, i, j - 1, q, n, m, dst);
      RunKeeps(w, run, j - 1);
      assert Step(w, run[j - 1], run[j]);
      HuntStep(w, run[j - 1], run[j], q, n, m, dst);
    }
  }

  lemma HuntStep(w: World, s: Net, s': Net, q: int, n: int, m: int, dst: int)
    requires Inv(w, s) && Counted(w, s) && Step(w, s, s') && Hunting(w, s, q, n, m, dst)
    ensures Hunting(w, s', q, n, m, dst)
  {
    hide Inv, Counted, Step, Link, SameSearch, Reaching, Spread;
    SameStays(w, s, s', q, Iface(w, n, m), dst);
    SpreadStays(w, s, s', q, n, m, dst);
    ReachingStays(w, s, s', m, q);
  }

  // A way from m to a node that owns dst; no node before that one owns dst, and none is n.
  ghost predicate WayTo(w: World, p: seq<int>, n: int, m: int, dst: int) {
    && |p| > 0 && p[0] == m && Owns(w, p[|p| - 1], dst)
    && (forall i {:trigger p[i]} :: 0 <= i < |p| - 1 ==> Link(w, p[i], p[i + 1]) && !Owns(w, p[i], dst))
    && forall i {:trigger p[i]} :: 0 <= i < |p| ==> p[i] != n
  }

  lemma {:induction false} AllReached(w: World, s: Net, q: int, n: int, m: int, dst: int, p: seq<int>, i: int)
    requires Hunting(w, s, q, n, m, dst) && Rest(s) && s.down == {} && WayTo(w, p, n, m, dst) && 0 <= i < |p|
    ensures p[i] in s.seen && q in s.seen[p[i]]
    decreases i
  {
    hide Link, SameSearch, Owns;
    if i > 0 {
      AllReached(w, s, q, n, m, dst, p, i - 1);
      assert Link(w, p[i - 1], p[i]) && !Owns(w, p[i - 1], dst);
    }
    assert Reaching(s, p[i], q);
    RestReached(s, p[i], q);
  }

  lemma RestReached(s: Net, u: int, q: int)
    requires Rest(s) && s.down == {} && Reaching(s, u, q)
    ensures u in s.seen && q in s.seen[u]
  {
  }

  // The step of the run in which node d gets request q.
  lemma {:induction false} ArrivalOf(w: World, run: seq<Net>, i: int, j: int, d: int, q: int) returns (a: int, k: int, freshId: int)
    requires Run(w, run) && 0 <= i <= j < |run| && d in run[j].seen && q in run[j].seen[d]
    requires Unseen(run[i], q)
    ensures i <= a < j && IsDelivery(w, run[a], run[a + 1], k, freshId)
    ensures var h := run[a].flight[k]; h.to == d && h.pkt.kind == RR && h.pkt.id == q && q !in run[a].seen[d]
    decreases j
  {
    hide Step, IsDelivery, First;
    assert i < j;
    assert Step(w, run[j - 1], run[j]);
    if d in run[j - 1].seen && q in run[j - 1].seen[d] {
      a, k, freshId := ArrivalOf(w, run, i, j - 1, d, q);
    } else {
      a := j - 1;
      k, freshId := JustSeen(w, run[j - 1], run[j], d, q);
      DeliveredKnown(w, run[j - 1], run[j], k, freshId);
    }
  }

  // Step j of the run brings node n a reply to its own request, from node d.
  ghost predicate AnsweredAt(w: World, run: seq<Net>, j: int, n: int, d: int) {
    && 0 <= j < |run| - 1 && n in w
    && exists h, k, freshId {:trigger Arrives(w, run[j], run[j + 1], h, k, freshId)} ::
      Arrives(w, run[j], run[j + 1], h, k, freshId) && h.to == n && h.pkt.kind == Rr && IsMyid(w[n].ids, h.pkt.dst) && Owns(w, d, h.pkt.src)
  }

  lemma TakenAnswers(w: World, run: seq<Net>, j: int, r: seq<int>, b: int, id: int)
    requires Run(w, run) && TakenAt(w, run, j, r, b, id)
    ensures |r| > 0 && AnsweredAt(w, run, j, r[0], r[|r| - 1])
  {
    hide Arrives, Run;
    var h, k, freshId :| Arrives(w, run[j], run[j + 1], h, k, freshId) && IsTaken(w, run[j], h, r, b, id);
  }

  // The answer is on its way once the request has arrived.
  lemma AnswerOnWay(w: World, run: seq<Net>, a: int, k: int, freshId: int, n: int, m: int) returns (g: Hop, r: seq<int>)
    requires Run(w, run) && 0 <= a < |run| - 1 && IsDelivery(w, run[a], run[a + 1], k, freshId) && Link(w, n, m)
    requires var h := run[a].flight[k]; h.pkt.kind == RR && h.pkt.id !in run[a].seen[h.to] && Owns(w, h.to, h.pkt.dst) && h.pkt.src == Iface(w, n, m)
    ensures g in run[a + 1].flight && g.pkt.kind == Rr && |r| >= 2 && OnReply(w, run[a + 1], g, r, |r| - 1)
    ensures r[0] == n && r[|r| - 1] == run[a].flight[k].to
  {
    var s, s' := run[a], run[a + 1];
    var h := s.flight[k];
    RunKeeps(w, run, a);
    r := RequestTrack(w, s, h);
    RequestLong(w, s, h, r);
    AnswerSent(w, s, s', k, freshId);
    var pkt := Packet(Rr, freshId, h.pkt.dst, h.pkt.src, h.pkt.path + [Iface(w, h.to, h.from)]);
    g := Hop(h.to, h.from, pkt);
    assert g == s'.flight[|s'.flight| - 1];
    StarterIs(w, s, h, r, n, m);
    assert h.pkt.id in s.rrIds;
    DeliveryLater(w, s, k, freshId);
    AnswerIs(w, s, h, r, freshId);
    AnswerTracks(w, s, s', h, r, freshId, Send(h.from, pkt));
  }

  lemma StarterIs(w: World, s: Net, h: Hop, r: seq<int>, n: int, m: int)
    requires WorldOk(w) && OnRequest(w, s, h, r) && Link(w, n, m) && h.pkt.src == Iface(w, n, m)
    ensures |r| >= 2 && r[0] == n
  {
    RequestLong(w, s, h, r);
    RouteAt(w, r, 0);
    OwnIface(w, r[0], r[1]);
    OwnerIs(w, r[0], n, m);
  }

  lemma AnswerIs(w: World, s: Net, h: Hop, r: seq<int>, freshId: int)
    requires WorldOk(w) && OnRequest(w, s, h, r) && h.pkt.kind == RR && Owns(w, h.to, h.pkt.dst)
    ensures Send(h.from, Packet(Rr, freshId, h.pkt.dst, h.pkt.src, h.pkt.path + [Iface(w, h.to, h.from)])) in AnswerRR(w[h.to], h.pkt, freshId)
  {
    RequestLong(w, s, h, r);
    hide WorldOk, OnceEach;
    var n := |r| - 1;
    RouteAt(w, r, n - 1);
    assert h.pkt.path[n - 1] == Iface(w, r[n - 1], r[n]);
    LookupAt(w, r[n], r[n - 1]);
    OwnIface(w, r[n], r[n - 1]);
  }

  lemma HuntBegins(w: World, run: seq<Net>, i: int, n: int, dst: int, dataId: int, ids: seq<int>, l: int, m: int)
    requires Run(w, run) && 0 <= i < |run| - 1 && IsStart(w, run[i], run[i + 1], n, dst, dataId, ids) && n in w && LinkVia(w[n], l, m)
    ensures 0 <= l < |ids| && Hunting(w, run[i + 1], ids[l], n, m, dst) && Unseen(run[i + 1], ids[l])
  {
    hide Inv, Counted, Hunting, Step, First, Run;
    RunKeeps(w, run, i);
    HuntStarts(w, run[i], run[i + 1], n, dst, dataId, ids, l);
  }

  // The request over the link to m arrives at the destination.
  lemma SearchArrives(w: World, run: seq<Net>, i: int, n: int, m: int, dst: int, q: int, p: seq<int>) returns (a: int, k: int, freshId: int)
    requires Run(w, run) && 0 <= i < |run| && Hunting(w, run[i], q, n, m, dst) && Unseen(run[i], q)
    requires WayTo(w, p, n, m, dst) && Rest(run[|run| - 1]) && run[|run| - 1].down == {}
    ensures |p| > 0 && i <= a < |run| - 1 && IsDelivery(w, run[a], run[a + 1], k, freshId) && Link(w, n, m)
    ensures 0 <= k < |run[a].flight| && var h := run[a].flight[k];
      && h.to in run[a].seen && h.pkt.kind == RR && h.pkt.id !in run[a].seen[h.to] && h.to == p[|p| - 1]
      && Owns(w, h.to, h.pkt.dst) && h.pkt.src == Iface(w, n, m)
  {
    hide *;
    var z := |run| - 1;
    HuntGoesOn(w, run, i, z, q, n, m, dst);
    WayEnds(w, p, n, m, dst);
    var d := p[|p| - 1];
    AllReached(w, run[z], q, n, m, dst, p, |p| - 1);
    a, k, freshId := ArrivalOf(w, run, i, z, d, q);
    HuntGoesOn(w, run, i, a, q, n, m, dst);
    DeliveredKnown(w, run[a], run[a + 1], k, freshId);
    SearchOf(w, run[a], k, q, n, m, dst);
  }

  lemma WayEnds(w: World, p: seq<int>, n: int, m: int, dst: int)
    requires WayTo(w, p, n, m, dst)
    ensures |p| > 0 && Owns(w, p[|p| - 1], dst)
  {
  }

  // A node asks for a destination that can be reached over its link to m; when the run has come to
  // rest and nobody has exited, a reply from the destination has arrived at the node.
  lemma RouteFound(w: World, run: seq<Net>, i: int, n: int, dst: int, dataId: int, ids: seq<int>, l: int, m: int, p: seq<int>)
    requires Run(w, run) && 0 <= i < |run| - 1 && IsStart(w, run[i], run[i + 1], n, dst, dataId, ids) && n in w && LinkVia(w[n], l, m)
    requires WayTo(w, p, n, m, dst) && Rest(run[|run| - 1]) && run[|run| - 1].down == {}
    ensures |p| > 0 && exists j {:trigger AnsweredAt(w, run, j, n, p[|p| - 1])} :: i < j && AnsweredAt(w, run, j, n, p[|p| - 1])
  {
    hide *;
    HuntBegins(w, run, i, n, dst, dataId, ids, l, m);
    var a, k, freshId := SearchArrives(w, run, i + 1, n, m, dst, ids[l], p);
    var g, r := AnswerOnWay(w, run, a, k, freshId, n, m);
    ReplyReaches(w, run, a + 1, g, r, |r| - 1);
    NotLost(run[|run| - 1], r, Home(r, |r| - 2), |r| - 2, g.pkt.id);
    var j :| a + 1 <= j && TakenAt(w, run, j, r, Home(r, |r| - 2), g.pkt.id);
    TakenAnswers(w, run, j, r, Home(r, |r| - 2), g.pkt.id);
  }

  lemma SearchOf(w: World, s: Net, k: int, q: int, n: int, m: int, dst: int)
    requires Hunting(w, s, q, n, m, dst) && 0 <= k < |s.flight| && s.flight[k].pkt.kind == RR && s.flight[k].pkt.id == q
    ensures Link(w, n, m) && s.flight[k].pkt.src == Iface(w, n, m) && s.flight[k].pkt.dst == dst
  {
    assert s.flight[k] in s.flight;
  }

  lemma NotLost(s: Net, r: seq<int>, lo: int, hi: int, id: int)
    requires s.down == {}
    ensures !LostOn(s, r, lo, hi, id)
  {
  }
}
