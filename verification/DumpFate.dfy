/** What becomes of replies and data: they are taken unless a node on their way has exited, and when a node exits. */
module DumpFate {
  import opened DumpTables
  import opened DumpNode
  import opened DumpWorld
  import opened DumpReplies
  import opened DumpRoute
  import opened DumpNet
  import opened DumpRuns
  import opened DumpQuiet
  import opened DumpCopies

  // ---- a node exits

  ghost predicate DataFor(s: Net, n: int, dst: int)
    requires n in s.waiting
  { exists p :: p in s.waiting[n] && p.dst == dst }

  lemma SomeFor(q: seq<Packet>, dst: int)
    ensures FirstFor(q, dst) < |q| <==> exists p :: p in q && p.dst == dst
  {
    var i := FirstFor(q, dst);
    if i < |q| { assert q[i] in q; }
  }

  // The receiver of a reply exits exactly when it is the node that asked, data waits for the reply, and
  // the first entry does not lead on: it is left over, as the node was met again on the route, and its
  // node uses another address on the other side.
  lemma ExitsExactly(w: World, s: Net, h: Hop, r: seq<int>, c: int)
    requires Inv(w, s) && OnReply(w, s, h, r, c) && h.pkt.kind == Rr
    ensures h.to in w && h.to in s.seen && h.to in s.waiting && 1 <= c < |r|
    ensures Exits(w, s, h) <==> r[c - 1] == r[0] && !Leads(w, r, c, 1) && DataFor(s, h.to, h.pkt.src)
  {
    ReplyPlace(w, s, h, r, c);
    assert h.to in s.seen.Keys && h.to in s.waiting.Keys;
    assert s.seen[h.to] <= s.rrIds;
    SomeFor(s.waiting[h.to], h.pkt.src);
    ReplyIsFor(w, s, h, r, c);
    RouteAt(w, r, 1);
    hide WorldOk, OnTrack, QueuesOk, Lookup, FirstFor, Leads, Iface;
    if r[c - 1] == r[0] { FirstHop(w, r, h.pkt.path, c); }
  }

  // On a route whose nodes are distinct nobody exits.
  lemma DistinctNeverExits(w: World, s: Net, h: Hop, r: seq<int>, c: int)
    requires Inv(w, s) && OnReply(w, s, h, r, c) && h.pkt.kind == Rr && forall j :: 1 <= j < |r| - 1 ==> r[j] != r[0]
    ensures h.to in w && h.to in s.seen && h.to in s.waiting && !Exits(w, s, h)
  {
    hide WorldOk, Inv, OnReply, Exits;
    ExitsExactly(w, s, h, r, c);
  }

  // Step j of the run makes node n exit.
  ghost predicate ExitAt(w: World, run: seq<Net>, j: int, n: int) {
    && 0 <= j < |run| - 1
    && exists h, k, freshId {:trigger Arrives(w, run[j], run[j + 1], h, k, freshId)} ::
      Arrives(w, run[j], run[j + 1], h, k, freshId) && h.to == n && Exits(w, run[j], h)
  }

  lemma StepDown(w: World, s: Net, s': Net, n: int)
    requires Step(w, s, s')
    ensures n in s.down ==> n in s'.down
    ensures n in s'.down ==> n in s.down || exists h, k, freshId {:trigger Arrives(w, s, s', h, k, freshId)} ::
      Arrives(w, s, s', h, k, freshId) && h.to == n && Exits(w, s, h)
  {
    hide Reaction, Requests, Fresh, Requesting, Exits, Releases;
    if n1, dst, dataId, ids :| IsStart(w, s, s', n1, dst, dataId, ids) {
    } else {
      var k, freshId :| IsDelivery(w, s, s', k, freshId);
      assert Arrives(w, s, s', s.flight[k], k, freshId);
    }
  }

  lemma ExitDown(w: World, run: seq<Net>, j: int, n: int)
    requires ExitAt(w, run, j, n)
    ensures 0 <= j < |run| - 1 && n in run[j + 1].down
  {
    hide Reaction, Requesting, Exits, Releases;
    var h, k, freshId :| Arrives(w, run[j], run[j + 1], h, k, freshId) && h.to == n && Exits(w, run[j], h);
  }

  // The nodes that are down are those that a step of the run has made exit.
  lemma {:induction false} DownExactly(w: World, run: seq<Net>, i: int, n: int)
    requires Run(w, run) && 0 <= i < |run|
    ensures n in run[i].down <==> exists j {:trigger ExitAt(w, run, j, n)} :: 0 <= j < i && ExitAt(w, run, j, n)
  {
    hide Step, First, Exits, IsDelivery;
    if i == 0 {
      NobodyDown(w, run[0]);
    } else {
      DownExactly(w, run, i - 1, n);
      assert Step(w, run[i - 1], run[i]);
      StepDown(w, run[i - 1], run[i], n);
      if j :| 0 <= j < i && ExitAt(w, run, j, n) {
        if j == i - 1 { ExitDown(w, run, j, n); }
      }
      if n in run[i].down && n !in run[i - 1].down { assert ExitAt(w, run, i - 1, n); }
    }
  }

  lemma NobodyDown(w: World, s: Net)
    requires First(w, s)
    ensures s.down == {}
  {
  }

  // ---- arrivals

  ghost predicate Arrives(w: World, s: Net, s': Net, h: Hop, k: int, freshId: int) {
    0 <= k < |s.flight| && s.flight[k] == h && IsDelivery(w, s, s', k, freshId)
  }

  lemma HopStays(w: World, s: Net, s': Net, h: Hop)
    requires h in s.flight && Step(w, s, s')
    ensures h in s'.flight || exists k, freshId {:trigger Arrives(w, s, s', h, k, freshId)} :: Arrives(w, s, s', h, k, freshId)
  {
    hide Reaction, Requests, Fresh, Requesting;
    var j :| 0 <= j < |s.flight| && s.flight[j] == h;
    if n, dst, dataId, ids :| IsStart(w, s, s', n, dst, dataId, ids) {
      assert s'.flight[j] == h;
    } else {
      var k, freshId :| IsDelivery(w, s, s', k, freshId);
      if k != j {
        assert s'.flight[if j < k then j else j - 1] == h;
      } else {
        assert Arrives(w, s, s', h, k, freshId);
      }
    }
  }

  lemma OnReplyStays(w: World, s: Net, s': Net, h: Hop, r: seq<int>, c: int)
    requires OnReply(w, s, h, r, c) && Later(s, s')
    ensures OnReply(w, s', h, r, c)
  {
  }

  lemma ReplyPlace(w: World, s: Net, h: Hop, r: seq<int>, c: int)
    requires Inv(w, s) && OnReply(w, s, h, r, c)
    ensures 1 <= c < |r| && h.to in w && WorldOk(w) && (IsMyid(w[h.to].ids, h.pkt.dst) <==> r[c - 1] == r[0])
  {
    RewrittenIs(w, r, h.pkt.path, c);
    hide WorldOk;
    RouteAt(w, r, c - 1);
    ReplyIsFor(w, s, h, r, c);
  }


  // A packet with this id is left in flight for a node of r between lo and hi that has exited.
  ghost predicate LostOn(s: Net, r: seq<int>, lo: int, hi: int, id: int) {
    exists h, m {:trigger LostAt(s, h, r, m, id)} :: lo <= m <= hi && LostAt(s, h, r, m, id)
  }

  ghost predicate LostAt(s: Net, h: Hop, r: seq<int>, m: int, id: int) {
    h in s.flight && h.pkt.kind != RR && h.pkt.id == id && 0 <= m < |r| && h.to == r[m] && r[m] in s.down
  }

  lemma LostWider(s: Net, r: seq<int>, lo: int, hi: int, lo': int, hi': int, id: int)
    requires LostOn(s, r, lo, hi, id) && lo' <= lo && hi <= hi'
    ensures LostOn(s, r, lo', hi', id)
  {
    var h, m :| lo <= m <= hi && LostAt(s, h, r, m, id);
    assert LostAt(s, h, r, m, id);
  }

  lemma LostNow(s: Net, h: Hop, r: seq<int>, m: int, lo: int, hi: int)
    requires Rest(s) && h in s.flight && h.pkt.kind != RR && 0 <= m < |r| && h.to == r[m] && lo <= m <= hi
    ensures LostOn(s, r, lo, hi, h.pkt.id)
  {
    assert LostAt(s, h, r, m, h.pkt.id);
  }

  // What has arrived where it is for, or has been dropped, is not left in flight.
  lemma GoneIsNotLost(w: World, run: seq<Net>, i: int, h: Hop, k: int, freshId: int, r: seq<int>, lo: int, hi: int)
    requires Run(w, run) && 0 <= i < |run| - 1 && Arrives(w, run[i], run[i + 1], h, k, freshId) && h.pkt.kind != RR
    requires h.to in w && (IsMyid(w[h.to].ids, h.pkt.dst) || (h.to in run[i].seen && h.to in run[i].waiting && |Reaction(w, run[i], h, freshId)| == 0))
    ensures forall j {:trigger Copies(run[j], h.pkt.id)} :: i < j < |run| ==> Copies(run[j], h.pkt.id) == 0
    ensures !LostOn(run[|run| - 1], r, lo, hi, h.pkt.id)
  {
    var id := h.pkt.id;
    hide First, Step, Inv, Counted, Copies, IsMyid, Reaction, Single, LostAt;
    RunKeeps(w, run, i);
    RunSingle(w, run, i);
    GoneNow(w, run[i], run[i + 1], h, k, freshId);
    forall j {:trigger Copies(run[j], id)} | i < j < |run|
      ensures Copies(run[j], id) == 0
    {
      GoneStays(w, run, i + 1, j, id);
    }
    var last := run[|run| - 1];
    if LostOn(last, r, lo, hi, id) {
      var g, m :| lo <= m <= hi && LostAt(last, g, r, m, id);
      LeftCopy(last, g, r, m, id);
    }
  }

  lemma LeftCopy(s: Net, g: Hop, r: seq<int>, m: int, id: int)
    requires LostAt(s, g, r, m, id)
    ensures Copies(s, id) >= 1
  {
    hide Copies;
    var k :| 0 <= k < |s.flight| && s.flight[k] == g;
    SomeCopy(s, k);
  }

  lemma GoneNow(w: World, s: Net, s': Net, h: Hop, k: int, freshId: int)
    requires Inv(w, s) && Single(s) && Arrives(w, s, s', h, k, freshId) && h.pkt.kind != RR
    requires h.to in w && (IsMyid(w[h.to].ids, h.pkt.dst) || (h.to in s.seen && h.to in s.waiting && |Reaction(w, s, h, freshId)| == 0))
    ensures h.pkt.id in s'.used && Copies(s', h.pkt.id) == 0
  {
    hide Inv, Copies, IsMyid, Reaction, IsDelivery;
    DeliveredKnown(w, s, s', k, freshId);
    OnlyCopy(s, k, k);
    assert Copies(s, h.pkt.id) <= 1;
    DeliverCopies(w, s, s', k, freshId, h.pkt.id);
    CopiesNat(s', h.pkt.id);
    UsedMore(w, s, s', k, freshId);
  }

  lemma DeliveredKnown(w: World, s: Net, s': Net, k: int, freshId: int)
    requires IsDelivery(w, s, s', k, freshId)
    ensures 0 <= k < |s.flight| && s.flight[k].to in w && s.flight[k].to in s.seen && s.flight[k].to in s.waiting && s.flight[k].to !in s.down
  {
  }

  // ---- replies

  // Step j of the run takes the reply with this id, at position b of its route, at the node that asked for it.
  ghost predicate TakenAt(w: World, run: seq<Net>, j: int, r: seq<int>, b: int, id: int) {
    && 0 <= j < |run| - 1 && 0 <= b < |r| && r[b] == r[0]
    && exists h, k, freshId {:trigger Arrives(w, run[j], run[j + 1], h, k, freshId)} ::
      Arrives(w, run[j], run[j + 1], h, k, freshId) && IsTaken(w, run[j], h, r, b, id)
  }

  ghost predicate IsTaken(w: World, s: Net, h: Hop, r: seq<int>, b: int, id: int) {
    h.pkt.kind == Rr && h.pkt.id == id && OnReply(w, s, h, r, b + 1) && h.to in w && IsMyid(w[h.to].ids, h.pkt.dst)
  }

  lemma TakenNow(w: World, run: seq<Net>, i: int, h: Hop, k: int, freshId: int, r: seq<int>, c: int)
    requires 0 <= i < |run| - 1 && Arrives(w, run[i], run[i + 1], h, k, freshId) && h.pkt.kind == Rr
    requires OnReply(w, run[i], h, r, c) && 1 <= c < |r| && r[c - 1] == r[0] && h.to in w && IsMyid(w[h.to].ids, h.pkt.dst)
    ensures TakenAt(w, run, i, r, Home(r, c - 1), h.pkt.id)
  {
    hide OnReply, Arrives, IsMyid;
    assert IsTaken(w, run[i], h, r, c - 1, h.pkt.id);
  }

  lemma OnwardsIs(w: World, s: Net, s': Net, k: int, r: seq<int>, c: int, g: Hop)
    requires Onwards(w, s, s', k, r, c, g)
    ensures 2 <= c < |r| && g in s'.flight && g.pkt.kind == Rr && OnReply(w, s', g, r, c - 1) && g.to == r[c - 2]
    ensures 0 <= k < |s.flight| && g.pkt.id == s.flight[k].pkt.id
  {
    hide OnReply;
    assert s'.flight[|s'.flight| - 1] == g;
  }

  lemma ReplyTo(w: World, s: Net, h: Hop, r: seq<int>, c: int)
    requires OnReply(w, s, h, r, c)
    ensures 1 <= c < |r| && h.to == r[c - 1]
  {
  }

  lemma {:induction false} ReplyTakenOrLost(w: World, run: seq<Net>, i: int, h: Hop, r: seq<int>, c: int)
    requires Run(w, run) && 0 <= i < |run| && h in run[i].flight && h.pkt.kind == Rr && OnReply(w, run[i], h, r, c)
    requires Rest(run[|run| - 1])
    ensures 1 <= c < |r| && (LostOn(run[|run| - 1], r, Home(r, c - 1), c - 1, h.pkt.id) ||
      exists j {:trigger TakenAt(w, run, j, r, Home(r, c - 1), h.pkt.id)} :: i <= j && TakenAt(w, run, j, r, Home(r, c - 1), h.pkt.id))
    decreases |run| - i
  {
    hide Inv, Counted, Step, First, OnReply, IsDelivery, IsMyid, Later, TakenAt, Onwards, WorldOk, LostOn, Rest;
    ReplyTo(w, run[i], h, r, c);
    if i == |run| - 1 {
      LostNow(run[i], h, r, c - 1, Home(r, c - 1), c - 1);
    } else {
      RunKeeps(w, run, i);
      var s, s' := run[i], run[i + 1];
      assert Step(w, s, s');
      ReplyPlace(w, s, h, r, c);
      StepLater(w, s, s');
      OnReplyStays(w, s, s', h, r, c);
      HopStays(w, s, s', h);
      if h in s'.flight {
        ReplyTakenOrLost(w, run, i + 1, h, r, c);
      } else {
        var k, freshId :| Arrives(w, s, s', h, k, freshId);
        if IsMyid(w[h.to].ids, h.pkt.dst) {
          TakenNow(w, run, i, h, k, freshId, r, c);
        } else {
          var g := StepReply(w, s, s', k, freshId, r, c);
          OnwardsIs(w, s, s', k, r, c, g);
          ReplyTakenOrLost(w, run, i + 1, g, r, c - 1);
          assert Home(r, c - 1) == Home(r, c - 2);
          if LostOn(run[|run| - 1], r, Home(r, c - 2), c - 2, h.pkt.id) {
            LostWider(run[|run| - 1], r, Home(r, c - 2), c - 2, Home(r, c - 1), c - 1, h.pkt.id);
          }
        }
      }
    }
  }

  // When a run comes to rest, a reply that was in flight has been taken by the node that asked for it
  // exactly when it is not left in flight for a node on its remaining way that has exited.
  lemma ReplyReaches(w: World, run: seq<Net>, i: int, h: Hop, r: seq<int>, c: int)
    requires Run(w, run) && 0 <= i < |run| && h in run[i].flight && h.pkt.kind == Rr && OnReply(w, run[i], h, r, c)
    requires Rest(run[|run| - 1])
    ensures 1 <= c < |r|
    ensures (exists j {:trigger TakenAt(w, run, j, r, Home(r, c - 1), h.pkt.id)} :: i <= j && TakenAt(w, run, j, r, Home(r, c - 1), h.pkt.id))
      <==> !LostOn(run[|run| - 1], r, Home(r, c - 1), c - 1, h.pkt.id)
  {
    hide Run, OnReply, Rest, TakenAt, LostOn;
    ReplyTakenOrLost(w, run, i, h, r, c);
    var b, id := Home(r, c - 1), h.pkt.id;
    if j :| i <= j && TakenAt(w, run, j, r, b, id) {
      TakenNotLost(w, run, j, r, b, c - 1, id);
    }
  }

  lemma TakenNotLost(w: World, run: seq<Net>, j: int, r: seq<int>, b: int, hi: int, id: int)
    requires Run(w, run) && TakenAt(w, run, j, r, b, id)
    ensures !LostOn(run[|run| - 1], r, b, hi, id)
  {
    hide Run, Arrives, IsMyid, OnReply, LostOn, Reaction;
    var h, k, freshId :| Arrives(w, run[j], run[j + 1], h, k, freshId) && IsTaken(w, run[j], h, r, b, id);
    GoneIsNotLost(w, run, j, h, k, freshId, r, b, hi);
  }

  // ---- data

  // Step j of the run takes the data packet at node n.
  ghost predicate DataTaken(w: World, run: seq<Net>, j: int, pkt: Packet, n: int) {
    && 0 <= j < |run| - 1 && n in w && IsMyid(w[n].ids, pkt.dst)
    && exists k, freshId, m {:trigger Arrives(w, run[j], run[j + 1], Hop(m, n, pkt), k, freshId)} :: Arrives(w, run[j], run[j + 1], Hop(m, n, pkt), k, freshId)
  }

  lemma DataGoesOn(w: World, s: Net, s': Net, h: Hop, k: int, freshId: int, r: seq<int>, c: int, i: int)
    requires Inv(w, s) && Arrives(w, s, s', h, k, freshId) && h.pkt.kind == DATA && OnData(w, h, r, c, i)
    requires 1 <= c < |r| && 1 <= i < |r| - 1 && Leads(w, r, c, i + 1)
    ensures var g := Hop(h.to, r[i + 1], h.pkt); g in s'.flight && OnData(w, g, r, c, i + 1)
  {
    DataStep(w, r, h.pkt, c, i);
    NotYet(w, r, h.pkt.dst, i);
    RewrittenIs(w, r, h.pkt.path, c);
    hide WorldOk, QueuesOk, OnTrack, TablesKept, Leads, Owns, Route, OnceEach, Rewritten, ForwardData, IsMyid;
    var out := Reaction(w, s, h, freshId);
    assert out == [Send(r[i + 1], h.pkt)];
    assert s'.flight[|s'.flight| - 1] == Hop(h.to, r[i + 1], h.pkt);
  }

  lemma DataPlace(w: World, s: Net, h: Hop, r: seq<int>, c: int, i: int)
    requires Inv(w, s) && OnData(w, h, r, c, i)
    ensures 1 <= i < |r| && 1 <= c < |r| && h.to == r[i] && h.to in w && (IsMyid(w[h.to].ids, h.pkt.dst) <==> i == |r| - 1)
  {
    RewrittenIs(w, r, h.pkt.path, c);
    hide WorldOk;
    RouteAt(w, r, i);
    DataArrives(w, h, r, c, i);
  }

  lemma LeadsOn(w: World, r: seq<int>, c: int, i: int)
    requires 0 <= i < |r| - 1 && c < |r| && FirstBad(w, r, c, i) == |r|
    ensures Leads(w, r, c, i + 1) && FirstBad(w, r, c, i + 1) == |r|
  {
  }

  lemma DataTakenNow(w: World, run: seq<Net>, i: int, h: Hop, k: int, freshId: int, n: int)
    requires 0 <= i < |run| - 1 && Arrives(w, run[i], run[i + 1], h, k, freshId) && h.to == n && n in w && IsMyid(w[n].ids, h.pkt.dst)
    ensures DataTaken(w, run, i, h.pkt, n)
  {
    hide Arrives, IsMyid;
    assert h == Hop(h.from, n, h.pkt);
  }

  lemma {:induction false} DataTakenOrLost(w: World, run: seq<Net>, i: int, h: Hop, r: seq<int>, c: int, at: int)
    requires Run(w, run) && 0 <= i < |run| && h in run[i].flight && h.pkt.kind == DATA && OnData(w, h, r, c, at)
    requires 1 <= at < |r| && 1 <= c < |r| && FirstBad(w, r, c, at) == |r| && Rest(run[|run| - 1])
    ensures LostOn(run[|run| - 1], r, at, |r| - 1, h.pkt.id) ||
      exists j {:trigger DataTaken(w, run, j, h.pkt, r[|r| - 1])} :: i <= j && DataTaken(w, run, j, h.pkt, r[|r| - 1])
    decreases |run| - i
  {
    hide Inv, Counted, Step, First, OnData, IsDelivery, IsMyid, DataTaken, WorldOk, Arrives, Leads, LostOn, Rest;
    RunKeeps(w, run, i);
    DataPlace(w, run[i], h, r, c, at);
    if i == |run| - 1 {
      LostNow(run[i], h, r, at, at, |r| - 1);
    } else {
      var s, s' := run[i], run[i + 1];
      assert Step(w, s, s');
      HopStays(w, s, s', h);
      if h in s'.flight {
        DataTakenOrLost(w, run, i + 1, h, r, c, at);
      } else {
        var k, freshId :| Arrives(w, s, s', h, k, freshId);
        if at == |r| - 1 {
          DataTakenNow(w, run, i, h, k, freshId, r[|r| - 1]);
        } else {
          LeadsOn(w, r, c, at);
          DataGoesOn(w, s, s', h, k, freshId, r, c, at);
          DataTakenOrLost(w, run, i + 1, Hop(h.to, r[at + 1], h.pkt), r, c, at + 1);
          if LostOn(run[|run| - 1], r, at + 1, |r| - 1, h.pkt.id) {
            LostWider(run[|run| - 1], r, at + 1, |r| - 1, at, |r| - 1, h.pkt.id);
          }
        }
      }
    }
  }

  lemma DataStops(w: World, s: Net, h: Hop, freshId: int, r: seq<int>, c: int, i: int)
    requires Inv(w, s) && h.pkt.kind == DATA && OnData(w, h, r, c, i) && 1 <= c < |r| && 1 <= i < |r| - 1 && !Leads(w, r, c, i + 1)
    ensures h.to in w && h.to in s.seen && h.to in s.waiting && |Reaction(w, s, h, freshId)| == 0
  {
    DataPlace(w, s, h, r, c, i);
    assert h.to in s.seen.Keys && h.to in s.waiting.Keys;
    DataStep(w, r, h.pkt, c, i);
  }

  // Data whose way ends at an entry that does not lead on is never taken.
  lemma {:induction false} DataNeverTaken(w: World, run: seq<Net>, i: int, j: int, h: Hop, r: seq<int>, c: int, at: int)
    requires Run(w, run) && 0 <= i <= j && i < |run| && h in run[i].flight && h.pkt.kind == DATA && OnData(w, h, r, c, at)
    requires 1 <= at < |r| && 1 <= c < |r| && FirstBad(w, r, c, at) < |r|
    ensures !DataTaken(w, run, j, h.pkt, r[|r| - 1])
    decreases j - i
  {
    hide Inv, Counted, Step, First, OnData, IsDelivery, IsMyid, DataTaken, WorldOk, Arrives, Leads, Single, Copies, Reaction;
    RunKeeps(w, run, i);
    DataPlace(w, run[i], h, r, c, at);
    if j < |run| - 1 {
      if i == j {
        NotTakenHere(w, run, i, h, r[|r| - 1]);
      } else {
        var s, s' := run[i], run[i + 1];
        assert Step(w, s, s');
        HopStays(w, s, s', h);
        if h in s'.flight {
          DataNeverTaken(w, run, i + 1, j, h, r, c, at);
        } else {
          var k, freshId :| Arrives(w, s, s', h, k, freshId);
          if Leads(w, r, c, at + 1) {
            DataGoesOn(w, s, s', h, k, freshId, r, c, at);
            DataNeverTaken(w, run, i + 1, j, Hop(h.to, r[at + 1], h.pkt), r, c, at + 1);
          } else {
            DataStops(w, s, h, freshId, r, c, at);
            GoneIsNotLost(w, run, i, h, k, freshId, r, 0, 0);
            NoneToTake(w, run, j, h.pkt, r[|r| - 1]);
          }
        }
      }
    } else {
      TooLate(w, run, j, h.pkt, r[|r| - 1]);
    }
  }

  lemma TooLate(w: World, run: seq<Net>, j: int, pkt: Packet, n: int)
    requires j >= |run| - 1
    ensures !DataTaken(w, run, j, pkt, n)
  {
  }

  lemma NoneToTake(w: World, run: seq<Net>, j: int, pkt: Packet, n: int)
    requires 0 <= j < |run| && Copies(run[j], pkt.id) == 0 && pkt.kind != RR
    ensures !DataTaken(w, run, j, pkt, n)
  {
    hide Copies, IsMyid, IsDelivery;
    if DataTaken(w, run, j, pkt, n) {
      var k, freshId, m :| Arrives(w, run[j], run[j + 1], Hop(m, n, pkt), k, freshId);
      SomeCopy(run[j], k);
    }
  }

  lemma NotTakenHere(w: World, run: seq<Net>, j: int, h: Hop, n: int)
    requires Run(w, run) && 0 <= j < |run| - 1 && h in run[j].flight && h.pkt.kind != RR && h.to in w && !IsMyid(w[h.to].ids, h.pkt.dst)
    ensures !DataTaken(w, run, j, h.pkt, n)
  {
    RunSingle(w, run, j);
    hide Run, Single, IsMyid, IsDelivery;
    if DataTaken(w, run, j, h.pkt, n) {
      var k, freshId, m :| Arrives(w, run[j], run[j + 1], Hop(m, n, h.pkt), k, freshId);
      var i :| 0 <= i < |run[j].flight| && run[j].flight[i] == h;
      OnlyCopy(run[j], k, i);
    }
  }

  // When a run comes to rest, a data packet that was in flight on its route has been taken at the end
  // exactly when all entries on its remaining way lead on, and it is not left in flight for a node on
  // this way that has exited.
  lemma DataReaches(w: World, run: seq<Net>, i: int, h: Hop, r: seq<int>, c: int, at: int)
    requires Run(w, run) && 0 <= i < |run| && h in run[i].flight && h.pkt.kind == DATA && OnData(w, h, r, c, at)
    requires 1 <= at < |r| && 1 <= c < |r| && Rest(run[|run| - 1])
    ensures (exists j {:trigger DataTaken(w, run, j, h.pkt, r[|r| - 1])} :: i <= j && DataTaken(w, run, j, h.pkt, r[|r| - 1]))
      <==> FirstBad(w, r, c, at) == |r| && !LostOn(run[|run| - 1], r, at, |r| - 1, h.pkt.id)
  {
    hide Run, OnData, Rest, DataTaken, LostOn;
    if FirstBad(w, r, c, at) < |r| {
      forall j {:trigger DataTaken(w, run, j, h.pkt, r[|r| - 1])} | i <= j
        ensures !DataTaken(w, run, j, h.pkt, r[|r| - 1])
      {
        DataNeverTaken(w, run, i, j, h, r, c, at);
      }
    } else {
      DataTakenOrLost(w, run, i, h, r, c, at);
      var n := r[|r| - 1];
      if j :| i <= j && DataTaken(w, run, j, h.pkt, n) {
        DataTakenNotLost(w, run, j, h.pkt, r, at, |r| - 1);
      }
    }
  }

  lemma DataTakenNotLost(w: World, run: seq<Net>, j: int, pkt: Packet, r: seq<int>, lo: int, hi: int)
    requires Run(w, run) && |r| > 0 && DataTaken(w, run, j, pkt, r[|r| - 1]) && pkt.kind != RR
    ensures !LostOn(run[|run| - 1], r, lo, hi, pkt.id)
  {
    hide Run, Arrives, IsMyid, LostOn, Reaction;
    var k, freshId, m :| Arrives(w, run[j], run[j + 1], Hop(m, r[|r| - 1], pkt), k, freshId);
    GoneIsNotLost(w, run, j, Hop(m, r[|r| - 1], pkt), k, freshId, r, lo, hi);
  }
}
