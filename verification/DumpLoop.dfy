/** A route that meets the node that asked again: a run in which this node exits. */
module DumpLoop {
  import opened DumpTables
  import opened DumpNode
  import opened DumpWorld
  import opened DumpNet
  import opened DumpRuns
  import opened DumpQuiet
  import opened DumpFate

  // Nodes 1, 2 and 3 see each other, node 4 is behind node 1; nm is n's address towards m.
  function Diamond(): World {
    map[1 := Tables([Port(21, 2), Port(31, 3), Port(41, 4)], [MyId(2, 12), MyId(3, 13), MyId(4, 14)]),
        2 := Tables([Port(12, 1), Port(32, 3)], [MyId(1, 21), MyId(3, 23)]),
        3 := Tables([Port(13, 1), Port(23, 2)], [MyId(1, 31), MyId(2, 32)]),
        4 := Tables([Port(14, 1)], [MyId(1, 41)])]
  }

  // ---- the run

  // The request tables once the nodes ms have met request 7, and node 4 perhaps request 9.
  function Met(ms: set<int>, direct: bool): map<int, set<int>> {
    map n | n in {1, 2, 3, 4} :: (if n in ms then {7} else {}) + if direct && n == 4 then {9} else {}
  }

  function Held(): map<int, seq<Packet>> { map[1 := [Packet(DATA, 50, 12, 41, [])], 2 := [], 3 := [], 4 := []] }

  // The run has brought the network to a state with h and o in flight, after request 7 met the nodes ms.
  ghost predicate Reached(run: seq<Net>, h: Hop, o: Hop, ms: set<int>, direct: bool, used: set<int>) {
    && Run(Diamond(), run) && var s := run[|run| - 1];
      h in s.flight && o in s.flight && s.seen == Met(ms, direct) && s.used == used && s.waiting == Held() && s.down == {}
  }

  // Request 7 arrives with h, and out is among what leaves the node; o stays in flight.
  lemma Hopped(run: seq<Net>, h: Hop, o: Hop, ms: set<int>, used: set<int>, freshId: int, out: Send) returns (more: seq<Net>)
    requires Reached(run, h, o, ms, true, used) && h.pkt.kind == RR && h.pkt.id == 7 && freshId !in used && h.to in Met(ms, true) && h.to !in ms
    requires o.pkt.kind != RR && h.to in Diamond() && out in AnswerRR(Diamond()[h.to], h.pkt, freshId)
    ensures Reached(more, Hop(h.to, out.to, out.pkt), o, ms + {h.to}, true, used + {freshId})
  {
    hide Diamond, AnswerRR, Run, Held, IsDelivery;
    var w := Diamond();
    SomeRun(w, run);
    var s', k := OneMore(w, run, h, freshId);
    AfterRequest(w, run[|run| - 1], s', k, freshId, out, o);
    more := run + [s'];
    MetMore(ms, true, h.to, 7);
    assert ms + {h.to} == {h.to} + ms;
  }

  lemma MetMore(ms: set<int>, direct: bool, n: int, id: int)
    requires n in Met(ms, direct) && ((id == 7 && n !in ms) || (id == 9 && n == 4 && !direct))
    ensures Met(ms, direct)[n := Met(ms, direct)[n] + {id}] == if id == 7 then Met(ms + {n}, direct) else Met(ms, true)
  {
    var a, b := Met(ms, direct)[n := Met(ms, direct)[n] + {id}], if id == 7 then Met(ms + {n}, direct) else Met(ms, true);
    forall k | k in b
      ensures k in a && a[k] == b[k]
    {
    }
    assert a.Keys == b.Keys;
  }

  // Request 9, the one over the direct link, is answered.
  lemma Answered(run: seq<Net>) returns (more: seq<Net>)
    requires Reached(run, Around0(), Direct9(), {}, false, {7, 8, 9, 50})
    ensures Reached(more, Around0(), Reply99(), {}, true, {7, 8, 9, 50} + {99})
  {
    DirectAnswer();
    hide Diamond, AnswerRR, Run, Held, IsDelivery;
    var w := Diamond();
    SomeRun(w, run);
    var s', k := OneMore(w, run, Direct9(), 99);
    AfterRequest(w, run[|run| - 1], s', k, 99, Send(1, Reply99().pkt), Around0());
    more := run + [s'];
    MetMore({}, false, 4, 9);
  }

  function Around0(): Hop { Hop(1, 2, Packet(RR, 7, 12, 41, [12])) }

  function Direct9(): Hop { Hop(1, 4, Packet(RR, 9, 14, 41, [14])) }

  function Reply99(): Hop { Hop(4, 1, Packet(Rr, 99, 41, 14, [14, 41])) }

  lemma DirectAnswer()
    ensures 4 in Diamond() && Send(1, Reply99().pkt) in AnswerRR(Diamond()[4], Direct9().pkt, 99)
  {
    var t := Diamond()[4];
    assert t.ids[0].addr == 41;
    assert [14] + [41] == [14, 41];
  }

  lemma OneMore(w: World, run: seq<Net>, h: Hop, freshId: int) returns (s': Net, k: int)
    requires Run(w, run) && |run| > 0 && h in run[|run| - 1].flight && freshId !in run[|run| - 1].used
    requires h.to !in run[|run| - 1].down
    ensures Arrives(w, run[|run| - 1], s', h, k, freshId) && Run(w, run + [s'])
  {
    hide Inv, Counted, Run, Step, Reaction, Requesting;
    var s := run[|run| - 1];
    RunKeeps(w, run, |run| - 1);
    ToKnown(w, s, h);
    k :| 0 <= k < |s.flight| && s.flight[k] == h;
    s' := Delivered(w, s, k, freshId);
    IsStep(w, s, s', k, freshId);
    RunMore(w, run, s');
  }

  lemma AfterRequest(w: World, s: Net, s': Net, k: int, freshId: int, out: Send, o: Hop)
    requires IsDelivery(w, s, s', k, freshId) && o in s.flight && o != s.flight[k]
    requires s.flight[k].pkt.kind == RR && s.flight[k].pkt.id !in s.seen[s.flight[k].to]
    requires out in AnswerRR(w[s.flight[k].to], s.flight[k].pkt, freshId)
    ensures var h := s.flight[k];
      && Hop(h.to, out.to, out.pkt) in s'.flight && s'.seen == s.seen[h.to := s.seen[h.to] + {h.pkt.id}]
      && s'.used == s.used + {freshId} && s'.waiting == s.waiting && s'.down == s.down && o in s'.flight
  {
    StillFlies(w, s, s', k, freshId, o);
    hide AnswerRR, Requesting;
    SentFlies(w, s, k, freshId, out);
  }

  lemma StillFlies(w: World, s: Net, s': Net, k: int, freshId: int, o: Hop)
    requires IsDelivery(w, s, s', k, freshId) && o in s.flight && o != s.flight[k]
    ensures o in s'.flight
  {
    hide Reaction, Requesting, Releases, Exits;
    var j :| 0 <= j < |s.flight| && s.flight[j] == o;
    assert s'.flight[if j < k then j else j - 1] == o;
  }

  lemma SomeRun(w: World, run: seq<Net>)
    requires Run(w, run)
    ensures |run| > 0
  {
  }

  lemma SentFlies(w: World, s: Net, k: int, freshId: int, out: Send)
    requires 0 <= k < |s.flight| && s.flight[k].to in w && s.flight[k].to in s.seen && s.flight[k].to in s.waiting
    requires s.flight[k].pkt.kind == RR && s.flight[k].pkt.id in s.sent && s.flight[k].pkt.id in s.got
    requires out in Reaction(w, s, s.flight[k], freshId)
    ensures Hop(s.flight[k].to, out.to, out.pkt) in Delivered(w, s, k, freshId).flight
  {
    var sends := Reaction(w, s, s.flight[k], freshId);
    var f := Without(s.flight, k);
    hide Reaction, Requesting, Releases;
    var i :| 0 <= i < |sends| && sends[i] == out;
    assert (f + Hops(s.flight[k].to, sends))[|f| + i] == Hop(s.flight[k].to, out.to, out.pkt);
  }

  // Node 1 queues data for node 4 and asks for the route.
  lemma Asked() returns (run: seq<Net>)
    ensures Reached(run, Around0(), Direct9(), {}, false, {7, 8, 9, 50})
  {
    var w := Diamond();
    var s := Net(Met({}, false), [], {}, {}, map[], map[], map[1 := [], 2 := [], 3 := [], 4 := []], {});
    DiamondOk();
    hide WorldOk;
    assert First(w, s);
    FirstRequest();
    var s' := Started(w, s, 1, 41, 50, [7, 8, 9]);
    AskedState(s, s');
    assert IsStart(w, s, s', 1, 41, 50, [7, 8, 9]);
    hide IsStart, Diamond, Started, First;
    run := [s];
    assert Run(w, run);
    RunMore(w, run, s');
    run := [s] + [s'];
  }

  lemma AskedState(s: Net, s': Net)
    requires s == Net(Met({}, false), [], {}, {}, map[], map[], map[1 := [], 2 := [], 3 := [], 4 := []], {})
    requires 1 in Diamond() && |Diamond()[1].ports| == 3 && GetMyid(Diamond()[1].ids, 0) == 12
    requires Send(2, Around0().pkt) in Requests(Diamond()[1], Diamond()[1].ports, 41, [7, 8, 9])
    requires Send(4, Direct9().pkt) in Requests(Diamond()[1], Diamond()[1].ports, 41, [7, 8, 9])
    requires s' == Started(Diamond(), s, 1, 41, 50, [7, 8, 9])
    ensures Around0() in s'.flight && Direct9() in s'.flight && s'.seen == Met({}, false)
    ensures s'.used == {7, 8, 9, 50} && s'.waiting == Held() && s'.down == {}
  {
    hide Requests, Diamond, Met, GetMyid;
    var sends := Requests(Diamond()[1], Diamond()[1].ports, 41, [7, 8, 9]);
    assert [] + [Packet(DATA, 50, 12, 41, [])] == [Packet(DATA, 50, 12, 41, [])];
    assert s'.waiting[1] == Held()[1];
    var i :| 0 <= i < |sends| && sends[i] == Send(2, Around0().pkt);
    assert s'.flight[i] == Around0();
    var j :| 0 <= j < |sends| && sends[j] == Send(4, Direct9().pkt);
    assert s'.flight[j] == Direct9();
    assert (set j | 0 <= j < 3 :: [7, 8, 9][j]) == {7, 8, 9} by {
      assert [7, 8, 9][0] == 7 && [7, 8, 9][1] == 8 && [7, 8, 9][2] == 9;
    }
  }

  // Node 1 asks for node 4. The request it sends to node 2 comes back to it over node 3, and it
  // passes it on like any other; the reply that node 4 sends ends at node 1 before the entries of
  // nodes 2 and 3 are rewritten. Data waits for it, and the first entry leads nowhere: node 1 exits.
  // The reply over the direct link, which is good, is left in flight, and the data in the queue.
  lemma LoopedRouteFails() returns (run: seq<Net>)
    ensures WorldOk(Diamond()) && Run(Diamond(), run) && |run| > 0
    ensures var s := run[|run| - 1]; s.down == {1} && s.waiting == Held() && LostAt(s, Hop(4, 1, Packet(Rr, 99, 41, 14, [14, 41])), [1, 4], 0, 99)
    ensures ExitAt(Diamond(), run, |run| - 2, 1)
  {
    DiamondOk();
    hide WorldOk, Run, Reached, AnswerRR, Held, LostAt, ExitAt;
    run := Asked();
    run := Answered(run);
    Hopping();
    run := Around(run);
    run := Exited(run);
  }

  function Reply100(): Hop { Hop(4, 1, Packet(Rr, 100, 41, 12, [12, 23, 31, 14, 41])) }

  lemma Exited(run: seq<Net>) returns (more: seq<Net>)
    requires Reached(run, Reply100(), Reply99(), {1, 2, 3, 4}, true, {7, 8, 9, 50, 99, 10, 11, 12, 100})
    ensures Run(Diamond(), more) && |more| > 0 && ExitAt(Diamond(), more, |more| - 2, 1)
    ensures var s := more[|more| - 1]; s.down == {1} && s.waiting == Held() && LostAt(s, Hop(4, 1, Packet(Rr, 99, 41, 14, [14, 41])), [1, 4], 0, 99)
  {
    hide Diamond, Run, IsDelivery, Exits;
    var w := Diamond();
    SomeRun(w, run);
    var s := run[|run| - 1];
    var s', k := OneMore(w, run, Reply100(), 200);
    WillExit(s);
    AfterExit(w, s, s', k, 200, Reply99());
    more := run + [s'];
    assert more[|more| - 2] == s && more[|more| - 1] == s';
    assert Arrives(w, more[|more| - 2], more[|more| - 1], Reply100(), k, 200);
  }

  lemma WillExit(s: Net)
    requires s.waiting == Held() && s.seen == Met({1, 2, 3, 4}, true)
    ensures Reply100().to in Diamond() && Reply100().to in s.seen && Reply100().to in s.waiting && Exits(Diamond(), s, Reply100())
  {
    NoWay();
    hide Diamond, Lookup, IsMyid;
    assert FirstFor([Packet(DATA, 50, 12, 41, [])], 41) == 0;
  }

  lemma AfterExit(w: World, s: Net, s': Net, k: int, freshId: int, o: Hop)
    requires IsDelivery(w, s, s', k, freshId) && Exits(w, s, s.flight[k]) && o in s.flight && o != s.flight[k]
    ensures s'.down == s.down + {s.flight[k].to} && s'.waiting == s.waiting && o in s'.flight
  {
    StillFlies(w, s, s', k, freshId, o);
    hide Reaction, Requesting;
  }

  // Each node on the way around the loop passes the request on, node 4 answers.
  lemma Hopping()
    ensures var w := Diamond(); 1 in w && 2 in w && 3 in w && 4 in w
    ensures Send(3, Packet(RR, 7, 12, 41, [12, 23])) in AnswerRR(Diamond()[2], Packet(RR, 7, 12, 41, [12]), 10)
    ensures Send(1, Packet(RR, 7, 12, 41, [12, 23, 31])) in AnswerRR(Diamond()[3], Packet(RR, 7, 12, 41, [12, 23]), 11)
    ensures Send(4, Packet(RR, 7, 12, 41, [12, 23, 31, 14])) in AnswerRR(Diamond()[1], Packet(RR, 7, 12, 41, [12, 23, 31]), 12)
    ensures Send(1, Packet(Rr, 100, 41, 12, [12, 23, 31, 14, 41])) in AnswerRR(Diamond()[4], Packet(RR, 7, 12, 41, [12, 23, 31, 14]), 100)
  {
    hide AnswerRR;
    LoopHop(Diamond()[2], 1, [12], 23, 3, 10);
    LoopHop(Diamond()[3], 0, [12, 23], 31, 1, 11);
    assert [12] + [23] == [12, 23] && [12, 23] + [31] == [12, 23, 31] && [12, 23, 31] + [14] == [12, 23, 31, 14];
    LoopHop(Diamond()[1], 2, [12, 23, 31], 14, 4, 12);
    LastHop();
  }

  lemma FirstRequest()
    ensures Send(2, Around0().pkt) in Requests(Diamond()[1], Diamond()[1].ports, 41, [7, 8, 9])
    ensures Send(4, Direct9().pkt) in Requests(Diamond()[1], Diamond()[1].ports, 41, [7, 8, 9])
  {
    var t := Diamond()[1];
    var ps := t.ports;
    var m := Send(2, Packet(RR, 7, 12, 41, [12]));
    assert ps[..1][..0] == [] && [7][..0] == [];
    assert m in Requests(t, ps[..1], 41, [7]);
    assert ps[..2][..1] == ps[..1] && [7, 8][..1] == [7];
    assert m in Requests(t, ps[..2], 41, [7, 8]);
    assert [7, 8, 9][..2] == [7, 8];
  }

  lemma LoopHop(t: Tables, i: int, path: seq<int>, mine: int, to: int, freshId: int)
    requires 0 <= i < |t.ports| && |path| > 0 && t.ports[i].peer != path[|path| - 1] && t.ports[i].sock == to
    requires (forall j :: 0 <= j < |t.ids| ==> t.ids[j].addr != 41) && AddrOf(t.ids, to) == mine && to != 0
    ensures Send(to, Packet(RR, 7, 12, 41, path + [mine])) in AnswerRR(t, Packet(RR, 7, 12, 41, path), freshId)
  {
    FloodOne(t, i, Packet(RR, 7, 12, 41, path), freshId);
  }

  lemma LastHop()
    ensures AnswerRR(Diamond()[4], Packet(RR, 7, 12, 41, [12, 23, 31, 14]), 100) == [Send(1, Packet(Rr, 100, 41, 12, [12, 23, 31, 14, 41]))]
  {
    var t := Diamond()[4];
    assert t.ids[0].addr == 41;
    assert [12, 23, 31, 14] + [41] == [12, 23, 31, 14, 41];
  }

  // Around the loop to node 4, and the answer.
  lemma Around(asked: seq<Net>) returns (run: seq<Net>)
    requires Reached(asked, Around0(), Reply99(), {}, true, {7, 8, 9, 50} + {99})
    requires var w := Diamond(); 1 in w && 2 in w && 3 in w && 4 in w
    requires Send(3, Packet(RR, 7, 12, 41, [12, 23])) in AnswerRR(Diamond()[2], Packet(RR, 7, 12, 41, [12]), 10)
    requires Send(1, Packet(RR, 7, 12, 41, [12, 23, 31])) in AnswerRR(Diamond()[3], Packet(RR, 7, 12, 41, [12, 23]), 11)
    requires Send(4, Packet(RR, 7, 12, 41, [12, 23, 31, 14])) in AnswerRR(Diamond()[1], Packet(RR, 7, 12, 41, [12, 23, 31]), 12)
    requires Send(1, Reply100().pkt) in AnswerRR(Diamond()[4], Packet(RR, 7, 12, 41, [12, 23, 31, 14]), 100)
    ensures Reached(run, Reply100(), Reply99(), {1, 2, 3, 4}, true, {7, 8, 9, 50, 99, 10, 11, 12, 100})
  {
    hide Reached, Diamond, AnswerRR;
    var u0 := {7, 8, 9, 50} + {99};
    run := Hopped(asked, Around0(), Reply99(), {}, u0, 10, Send(3, Packet(RR, 7, 12, 41, [12, 23])));
    run := Hopped(run, Hop(2, 3, Packet(RR, 7, 12, 41, [12, 23])), Reply99(), {} + {2}, u0 + {10}, 11, Send(1, Packet(RR, 7, 12, 41, [12, 23, 31])));
    run := Hopped(run, Hop(3, 1, Packet(RR, 7, 12, 41, [12, 23, 31])), Reply99(), {} + {2} + {3}, u0 + {10} + {11}, 12,
      Send(4, Packet(RR, 7, 12, 41, [12, 23, 31, 14])));
    run := Hopped(run, Hop(1, 4, Packet(RR, 7, 12, 41, [12, 23, 31, 14])), Reply99(), {} + {2} + {3} + {1}, u0 + {10} + {11} + {12}, 100,
      Send(1, Reply100().pkt));
    assert {} + {2} + {3} + {1} + {4} == {1, 2, 3, 4};
    assert u0 + {10} + {11} + {12} + {100} == {7, 8, 9, 50, 99, 10, 11, 12, 100};
  }

  lemma NoWay()
    ensures 1 in Diamond() && Lookup(Diamond()[1].ports, 23) == 0 && IsMyid(Diamond()[1].ids, 12)
  {
    var t := Diamond()[1];
    assert t.ids[0].addr == 12;
    assert t.ports[1..] == [Port(31, 3), Port(41, 4)] && t.ports[1..][1..] == [Port(41, 4)];
    assert Lookup([Port(41, 4)], 23) == 0;
  }

  lemma FloodOne(t: Tables, i: int, pkt: Packet, freshId: int)
    requires 0 <= i < |t.ports| && |pkt.path| > 0 && t.ports[i].peer != pkt.path[|pkt.path| - 1] && !IsMyid(t.ids, pkt.dst)
    ensures Send(t.ports[i].sock, pkt.(path := pkt.path + [GetMyid(t.ids, t.ports[i].sock)])) in AnswerRR(t, pkt, freshId)
  {
    FloodIs(t.ports, t.ids, pkt.path[|pkt.path| - 1], pkt, Send(t.ports[i].sock, pkt.(path := pkt.path + [GetMyid(t.ids, t.ports[i].sock)])));
  }

  // The example is a proper network.
  lemma DiamondOk()
    ensures WorldOk(Diamond())
  {
    var w := Diamond();
    hide Diamond, PortOk, Apart, TablesOk;
    forall n | n in w
      ensures TablesOk(w[n])
    {
      DiamondTables(n);
    }
    forall n, i | n in w && 0 <= i < |w[n].ports|
      ensures PortOk(w, n, i)
    {
      DiamondPort(n, i);
    }
    forall n, m | n in w && m in w
      ensures Apart(w, n, m)
    {
      DiamondApart(n, m);
    }
  }

  lemma DiamondTables(n: int)
    requires n in Diamond()
    ensures TablesOk(Diamond()[n])
  {
    assert n == 1 || n == 2 || n == 3 || n == 4;
  }

  lemma DiamondApart(n: int, m: int)
    requires n in Diamond() && m in Diamond()
    ensures Apart(Diamond(), n, m)
  {
    var w := Diamond();
    hide Diamond;
    forall a {:trigger Owns(w, n, a)} | Owns(w, n, a) && Owns(w, m, a)
      ensures n == m
    {
      DiamondOwner(n, a);
      DiamondOwner(m, a);
    }
  }

  // An address tells its node.
  lemma DiamondOwner(n: int, a: int)
    requires Owns(Diamond(), n, a)
    ensures a / 10 == n
  {
    var ids := Diamond()[n].ids;
    var i :| 0 <= i < |ids| && ids[i].addr == a;
    assert n == 1 || n == 2 || n == 3 || n == 4;
  }

  lemma DiamondPort(n: int, i: int)
    requires n in Diamond() && 0 <= i < |Diamond()[n].ports|
    ensures PortOk(Diamond(), n, i)
  {
    var w := Diamond();
    assert LinkVia(w[1], 0, 2) && LinkVia(w[1], 1, 3) && LinkVia(w[1], 2, 4) && LinkVia(w[2], 0, 1) && LinkVia(w[2], 1, 3);
    assert LinkVia(w[3], 0, 1) && LinkVia(w[3], 1, 2) && LinkVia(w[4], 0, 1);
    assert IdVia(w[n], i, w[n].ports[i].sock);
    DiamondAddr(w[n].ports[i].sock, n);
  }

  lemma DiamondAddr(n: int, m: int)
    requires n in Diamond() && m in Diamond() && exists i {:trigger LinkVia(Diamond()[n], i, m)} :: LinkVia(Diamond()[n], i, m)
    ensures Iface(Diamond(), n, m) == 10 * n + m
  {
    var t := Diamond()[n];
    var i :| LinkVia(t, i, m);
    assert n == 1 || n == 2 || n == 3 || n == 4;
    AddrFinds(t.ids, i);
  }
}
