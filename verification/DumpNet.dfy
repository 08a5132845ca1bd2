/** All runs of a network of DUMP nodes: packets in flight, and what every step keeps. */
module DumpNet {
  import opened DumpTables
  import opened DumpNode
  import opened DumpWorld
  import opened DumpRoute

  datatype Hop = Hop(from: int, to: int, pkt: Packet)

  // seen: the request table of every node; rrIds and used: the packet ids drawn so far;
  // sent and got count the requests of each id that were sent and that arrived; waiting: the data
  // that every node holds back until it knows the route; down: the nodes that have exited.
  datatype Net = Net(seen: map<int, set<int>>, flight: seq<Hop>, rrIds: set<int>, used: set<int>,
                     sent: map<int, int>, got: map<int, int>, waiting: map<int, seq<Packet>>, down: set<int>)

  function Hops(n: int, sends: seq<Send>): (hs: seq<Hop>)
    ensures |hs| == |sends| && forall i :: 0 <= i < |hs| ==> hs[i] == Hop(n, sends[i].to, sends[i].pkt)
  { seq(|sends|, i requires 0 <= i < |sends| => Hop(n, sends[i].to, sends[i].pkt)) }

  function Without(f: seq<Hop>, k: int): seq<Hop>
    requires 0 <= k < |f|
  { f[..k] + f[k + 1..] }

  ghost predicate Fresh(s: Net, dataId: int, ids: seq<int>) {
    && dataId !in s.used && dataId !in ids && (forall i :: 0 <= i < |ids| ==> ids[i] !in s.used) && forall i, j :: 0 <= i < j < |ids| ==> ids[i] != ids[j]
  }

  // A node has data for dst: it queues it and asks for the route.
  ghost function Started(w: World, s: Net, n: int, dst: int, dataId: int, ids: seq<int>): Net
    requires n in w && |ids| == |w[n].ports| && n in s.waiting
  {
    var new_ := set i | 0 <= i < |ids| :: ids[i];
    s.(flight := s.flight + Hops(n, Requests(w[n], w[n].ports, dst, ids)), rrIds := s.rrIds + new_, used := s.used + new_ + {dataId},
       sent := map i | i in s.sent.Keys + new_ :: if i in new_ then 1 else s.sent[i],
       got := map i | i in s.got.Keys + new_ :: if i in new_ then 0 else s.got[i],
       waiting := s.waiting[n := s.waiting[n] + [Packet(DATA, dataId, GetMyid(w[n].ids, 0), dst, [])]])
  }

  // The data that h, a reply, releases at its receiver.
  function Data(s: Net, h: Hop): seq<Packet>
    requires h.to in s.waiting
  { Released(s.waiting[h.to], h.pkt.src) }

  // A reply that ends where it is meant for and tells a way out.
  predicate Releases(w: World, s: Net, h: Hop)
    requires h.to in w && h.to in s.seen
  {
    && h.pkt.kind == Rr && h.pkt.id !in s.seen[h.to] && |h.pkt.path| >= 2
    && IsMyid(w[h.to].ids, h.pkt.dst) && Lookup(w[h.to].ports, h.pkt.path[1]) != 0
  }

  // A reply that ends where it is meant for while data waits for it, and tells no way out: the node exits.
  predicate Exits(w: World, s: Net, h: Hop)
    requires h.to in w && h.to in s.seen && h.to in s.waiting
  {
    && h.pkt.kind == Rr && h.pkt.id !in s.seen[h.to] && |h.pkt.path| >= 2
    && IsMyid(w[h.to].ids, h.pkt.dst) && Lookup(w[h.to].ports, h.pkt.path[1]) == 0
    && FirstFor(s.waiting[h.to], h.pkt.src) < |s.waiting[h.to]|
  }

  // What the node that a packet reaches sends.
  function Reaction(w: World, s: Net, h: Hop, freshId: int): seq<Send>
    requires h.to in w && h.to in s.seen && h.to in s.waiting
  {
    var t := w[h.to];
    match h.pkt.kind
    case RR => if h.pkt.id in s.seen[h.to] then [] else AnswerRR(t, h.pkt, freshId)
    case Rr =>
      if h.pkt.id in s.seen[h.to] || |h.pkt.path| < 2 then []
      else if IsMyid(t.ids, h.pkt.dst) then (if Lookup(t.ports, h.pkt.path[1]) == 0 then [] else DataSends(t, h.pkt, Data(s, h)))
      else ForwardRr(t, h.pkt)
    case DATA => if |h.pkt.path| == 0 || IsMyid(t.ids, h.pkt.dst) then [] else ForwardData(t, h.pkt)
  }

  function Requesting(sends: seq<Send>): int {
    if |sends| == 0 then 0 else Requesting(sends[..|sends| - 1]) + if sends[|sends| - 1].pkt.kind == RR then 1 else 0
  }

  ghost predicate Waits(h: Hop, data: seq<Packet>) {
    forall p {:trigger p in data} :: p in data ==> p.kind == DATA && p.dst == h.pkt.src
  }

  // The k-th packet in flight arrives.
  function Delivered(w: World, s: Net, k: int, freshId: int): Net
    requires 0 <= k < |s.flight| && s.flight[k].to in w && s.flight[k].to in s.seen && s.flight[k].to in s.waiting
    requires s.flight[k].pkt.kind == RR ==> s.flight[k].pkt.id in s.sent && s.flight[k].pkt.id in s.got
  {
    var h := s.flight[k];
    var out := Reaction(w, s, h, freshId);
    s.(flight := Without(s.flight, k) + Hops(h.to, out), used := s.used + {freshId},
       seen := if h.pkt.kind == RR then s.seen[h.to := s.seen[h.to] + {h.pkt.id}] else s.seen,
       sent := if h.pkt.kind == RR then s.sent[h.pkt.id := s.sent[h.pkt.id] + Requesting(out)] else s.sent,
       got := if h.pkt.kind == RR then s.got[h.pkt.id := s.got[h.pkt.id] + 1] else s.got,
       waiting := if Releases(w, s, h) then s.waiting[h.to := Remaining(s.waiting[h.to], h.pkt.src)] else s.waiting,
       down := if Exits(w, s, h) then s.down + {h.to} else s.down)
  }

  // ---- what holds of every packet in flight

  // A request has come along r, whose last node it has not reached yet.
  ghost predicate OnRequest(w: World, s: Net, h: Hop, r: seq<int>) {
    && h.pkt.id in s.rrIds && Route(w, r) && Recorded(w, r, h.pkt.path)
    && h.from == r[|r| - 2] && h.to == r[|r| - 1] && h.pkt.src == Iface(w, r[0], r[1])
    && OnceEach(r[..|r| - 1])
    && forall i {:trigger r[i]} :: 1 <= i < |r| - 1 ==> r[i] in s.seen && h.pkt.id in s.seen[r[i]]
  }

  // The reply to a request that came along r, rewritten from entry c on. Its way back has not
  // passed the node that asked.
  ghost predicate OnReply(w: World, s: Net, h: Hop, r: seq<int>, c: int) {
    && h.pkt.id in s.used && h.pkt.id !in s.rrIds && Route(w, r) && OnceEach(r) && Rewritten(w, r, h.pkt.path, c)
    && h.from == r[c] && h.to == r[c - 1] && h.pkt.dst == Iface(w, r[0], r[1]) && Owns(w, r[|r| - 1], h.pkt.src)
    && forall i {:trigger r[i]} :: c <= i < |r| - 1 ==> r[i] != r[0]
  }

  // A data packet on its way from r[i - 1] to r[i] on the route r; the reply that brought the
  // route stopped at r[c - 1], the node that asked.
  ghost predicate OnData(w: World, h: Hop, r: seq<int>, c: int, i: int) {
    && Route(w, r) && OnceEach(r) && Rewritten(w, r, h.pkt.path, c) && r[c - 1] == r[0]
    && Owns(w, r[|r| - 1], h.pkt.dst) && 1 <= i < |r| && h.from == r[i - 1] && h.to == r[i]
  }

  ghost predicate OnTrack(w: World, s: Net, h: Hop) {
    match h.pkt.kind
    case RR => exists r {:trigger OnRequest(w, s, h, r)} :: OnRequest(w, s, h, r)
    case Rr => exists r, c {:trigger OnReply(w, s, h, r, c)} :: OnReply(w, s, h, r, c)
    case DATA => exists r, c, i {:trigger OnData(w, h, r, c, i)} :: OnData(w, h, r, c, i)
  }

  ghost predicate TablesKept(w: World, s: Net) {
    && s.seen.Keys == w.Keys && s.waiting.Keys == w.Keys && s.rrIds <= s.used
    && forall n {:trigger s.seen[n]} :: n in s.seen ==> s.seen[n] <= s.rrIds
  }

  ghost predicate OnlyData(q: seq<Packet>) { forall p {:trigger p in q} :: p in q ==> p.kind == DATA }

  ghost predicate QueuesOk(s: Net) { forall n {:trigger s.waiting[n]} :: n in s.waiting ==> OnlyData(s.waiting[n]) }

  ghost predicate Inv(w: World, s: Net) {
    && WorldOk(w) && TablesKept(w, s) && QueuesOk(s)
    && forall h {:trigger OnTrack(w, s, h)} :: h in s.flight ==> OnTrack(w, s, h)
  }

  // Tables only grow.
  ghost predicate Later(s: Net, s': Net) {
    && s.seen.Keys == s'.seen.Keys && s.used <= s'.used && s.rrIds <= s'.rrIds && s.down <= s'.down
    && (forall i {:trigger i in s'.rrIds} :: i in s'.rrIds && i !in s.rrIds ==> i !in s.used)
    && forall n {:trigger s'.seen[n]} :: n in s.seen && n in s'.seen ==> s.seen[n] <= s'.seen[n]
  }

  lemma SeenGrows(s: Net, s': Net, n: int)
    requires Later(s, s') && n in s.seen
    ensures n in s'.seen && s.seen[n] <= s'.seen[n]
  {
    assert n in s'.seen.Keys;
    var _ := s'.seen[n];
  }

  lemma TrackStays(w: World, s: Net, s': Net, h: Hop)
    requires OnTrack(w, s, h) && Later(s, s')
    ensures OnTrack(w, s', h)
  {
    hide Route, Recorded, Rewritten, OnceEach, Owns;
    match h.pkt.kind {
      case RR =>
        var r :| OnRequest(w, s, h, r);
        forall i {:trigger r[i]} | 1 <= i < |r| - 1
          ensures r[i] in s'.seen && h.pkt.id in s'.seen[r[i]]
        {
          assert r[i] in s.seen && h.pkt.id in s.seen[r[i]];
          assert r[i] in s'.seen.Keys;
          SeenGrows(s, s', r[i]);
        }
        assert OnRequest(w, s', h, r);
      case Rr =>
        var r, c :| OnReply(w, s, h, r, c);
        assert OnReply(w, s', h, r, c);
      case DATA =>
    }
  }

  // ---- the three kinds of packet arrive

  lemma ExtendRequest(w: World, r: seq<int>, path: seq<int>, m: int)
    requires WorldOk(w) && Route(w, r) && Recorded(w, r, path) && Link(w, r[|r| - 1], m)
    ensures Route(w, r + [m]) && Recorded(w, r + [m], path + [Iface(w, r[|r| - 1], m)])
  {
  }

  lemma NotMetBefore(w: World, s: Net, h: Hop, r: seq<int>)
    requires OnRequest(w, s, h, r) && h.to in s.seen && h.pkt.id !in s.seen[h.to]
    ensures OnceEach(r)
  {
    forall i, j | 1 <= i < j < |r|
      ensures r[i] != r[j]
    {
      if j < |r| - 1 {
        assert r[..|r| - 1][i] != r[..|r| - 1][j];
      } else {
        assert r[i] in s.seen && h.pkt.id in s.seen[r[i]];
      }
    }
  }

  // A flooded copy goes on along the route.
  lemma FloodTracks(w: World, s: Net, s': Net, h: Hop, r: seq<int>, out: Send)
    requires WorldOk(w) && OnRequest(w, s, h, r) && Later(s, s') && h.to in s.seen && h.pkt.id !in s.seen[h.to] && h.to in s'.seen && h.pkt.id in s'.seen[h.to]
    requires h.to in w && |h.pkt.path| > 0
    requires out in Flood(w[h.to].ports, w[h.to].ids, h.pkt.path[|h.pkt.path| - 1], h.pkt)
    ensures out.pkt.kind == h.pkt.kind && OnRequest(w, s', Hop(h.to, out.to, out.pkt), r + [out.to])
  {
    NotMetBefore(w, s, h, r);
    FloodIs(w[h.to].ports, w[h.to].ids, h.pkt.path[|h.pkt.path| - 1], h.pkt, out);
    hide WorldOk, Route, Recorded, Flood;
    var m := out.to;
    assert Link(w, h.to, m) by {
      var i :| 0 <= i < |w[h.to].ports| && w[h.to].ports[i].sock == m;
      assert LinkVia(w[h.to], i, m);
    }
    OwnIface(w, h.to, m);
    ExtendRequest(w, r, h.pkt.path, m);
    assert (r + [m])[..|r|] == r;
    RequestLong(w, s, h, r);
    SeenAlong(s, s', h, r, m);
  }

  lemma RequestLong(w: World, s: Net, h: Hop, r: seq<int>)
    requires OnRequest(w, s, h, r)
    ensures |r| >= 2 && |h.pkt.path| == |r| - 1
  {
  }

  lemma SeenAlong(s: Net, s': Net, h: Hop, r: seq<int>, m: int)
    requires |r| >= 2 && h.to == r[|r| - 1] && Later(s, s') && h.to in s'.seen && h.pkt.id in s'.seen[h.to]
    requires forall i {:trigger r[i]} :: 1 <= i < |r| - 1 ==> r[i] in s.seen && h.pkt.id in s.seen[r[i]]
    ensures var q := r + [m]; forall i {:trigger q[i]} :: 1 <= i < |q| - 1 ==> q[i] in s'.seen && h.pkt.id in s'.seen[q[i]]
  {
    var q := r + [m];
    forall i {:trigger q[i]} | 1 <= i < |q| - 1
      ensures q[i] in s'.seen && h.pkt.id in s'.seen[q[i]]
    {
      assert q[i] == r[i];
    }
  }

  // The answer of the node that was asked for starts the way back.
  lemma AnswerTracks(w: World, s: Net, s': Net, h: Hop, r: seq<int>, freshId: int, out: Send)
    requires WorldOk(w) && OnRequest(w, s, h, r) && h.to in s.seen && h.pkt.id !in s.seen[h.to] && h.to in w
    requires IsMyid(w[h.to].ids, h.pkt.dst) && freshId in s'.used && freshId !in s'.rrIds
    requires out in AnswerRR(w[h.to], h.pkt, freshId)
    ensures out.pkt.kind == Rr && OnReply(w, s', Hop(h.to, out.to, out.pkt), r, |r| - 1)
  {
    NotMetBefore(w, s, h, r);
    hide Route, WorldOk, OnceEach, Lookup;
    var n := |r| - 1;
    RouteAt(w, r, n - 1) by { assert Route(w, r); RequestLong(w, s, h, r); }
    assert h.pkt.path[n - 1] == Iface(w, r[n - 1], r[n]);
    LookupAt(w, r[n], r[n - 1]);
    OwnIface(w, r[n], r[n - 1]);
    assert Owns(w, r[n], h.pkt.dst);
    RewrittenAtFirst(w, r, h.pkt.path);
  }

  lemma RewrittenAtFirst(w: World, r: seq<int>, path: seq<int>)
    requires Recorded(w, r, path) && |r| >= 2
    ensures Rewritten(w, r, path + [Iface(w, r[|r| - 1], r[|r| - 2])], |r| - 1)
  {
  }

  // A reply that has not reached the node that asked goes one node back.
  lemma ReplyTracks(w: World, s: Net, s': Net, h: Hop, r: seq<int>, c: int)
    requires WorldOk(w) && OnReply(w, s, h, r, c) && h.to in w && !IsMyid(w[h.to].ids, h.pkt.dst) && Later(s, s')
    ensures c >= 2 && var path := h.pkt.path[c - 1 := Iface(w, r[c - 1], r[c - 2])];
      && ForwardRr(w[h.to], h.pkt) == [Send(r[c - 2], h.pkt.(path := path))]
      && OnReply(w, s', Hop(h.to, r[c - 2], h.pkt.(path := path)), r, c - 1)
  {
    hide WorldOk, Rewritten;
    RouteAt(w, r, 0);
    OwnIface(w, r[0], r[1]);
    assert h.to != r[0];
    RewrittenLong(w, r, h.pkt.path, c);
    ReplyStep(w, r, c, h.pkt);
  }

  lemma RewrittenLong(w: World, r: seq<int>, path: seq<int>, c: int)
    requires Rewritten(w, r, path, c)
    ensures |path| == |r| && 1 <= c < |r|
  {
  }

  // A reply is for its receiver exactly when the receiver asked.
  lemma ReplyIsFor(w: World, s: Net, h: Hop, r: seq<int>, c: int)
    requires WorldOk(w) && OnReply(w, s, h, r, c) && h.to in w
    ensures |h.pkt.path| == |r| >= 2 && 1 <= c < |r| && (IsMyid(w[h.to].ids, h.pkt.dst) <==> r[c - 1] == r[0])
  {
    hide WorldOk;
    RouteAt(w, r, 0);
    OwnerIs(w, h.to, r[0], r[1]);
  }

  lemma {:induction false} DataSendsAre(t: Tables, reply: Packet, ps: seq<Packet>, out: Send)
    requires |reply.path| >= 2 && out in DataSends(t, reply, ps)
    ensures out.to == Lookup(t.ports, reply.path[1]) && exists p :: p in ps && out.pkt == p.(path := reply.path)
  {
    var n := |ps| - 1;
    if out in DataSends(t, reply, ps[..n]) {
      DataSendsAre(t, reply, ps[..n], out);
      var p :| p in ps[..n] && out.pkt == p.(path := reply.path);
      assert p in ps;
    } else {
      assert ps[n] in ps && out.pkt == ps[n].(path := reply.path);
    }
  }

  // Waiting data starts on the route.
  lemma ReleaseTracks(w: World, s: Net, h: Hop, r: seq<int>, c: int, data: seq<Packet>, out: Send)
    requires WorldOk(w) && OnReply(w, s, h, r, c) && h.to in w && |h.pkt.path| >= 2 && IsMyid(w[h.to].ids, h.pkt.dst) && Waits(h, data)
    requires Lookup(w[h.to].ports, h.pkt.path[1]) != 0 && out in DataSends(w[h.to], h.pkt, data)
    ensures out.pkt.kind == DATA && OnData(w, Hop(h.to, out.to, out.pkt), r, c, 1)
  {
    DataSendsAre(w[h.to], h.pkt, data, out);
    ReplyIsFor(w, s, h, r, c);
    hide WorldOk, DataSends;
    NextHop(w, r, h.pkt.path, c, 1);
  }

  // Data goes on to the next node of the route.
  lemma DataTracks(w: World, h: Hop, r: seq<int>, c: int, i: int, out: Send)
    requires WorldOk(w) && OnData(w, h, r, c, i) && h.to in w && !IsMyid(w[h.to].ids, h.pkt.dst)
    requires out in ForwardData(w[h.to], h.pkt)
    ensures i + 1 < |r| && out.pkt == h.pkt && OnData(w, Hop(h.to, out.to, out.pkt), r, c, i + 1)
  {
    NotYet(w, r, h.pkt.dst, i);
    hide WorldOk;
    DataStep(w, r, h.pkt, c, i);
  }

  // Data is taken only by the end of its route.
  lemma DataArrives(w: World, h: Hop, r: seq<int>, c: int, i: int)
    requires WorldOk(w) && OnData(w, h, r, c, i) && h.to in w
    ensures IsMyid(w[h.to].ids, h.pkt.dst) <==> i == |r| - 1
  {
    NotYet(w, r, h.pkt.dst, i);
  }

  lemma DataWaits(s: Net, h: Hop)
    requires h.to in s.waiting && QueuesOk(s)
    ensures Waits(h, Data(s, h))
  {
    ReleasedWaited(s.waiting[h.to], h.pkt.src);
    assert OnlyData(s.waiting[h.to]);
  }

  // ---- every step keeps the invariant

  lemma {:induction false} RemainingFrom(q: seq<Packet>, dst: int)
    ensures forall p {:trigger p in Remaining(q, dst)} :: p in Remaining(q, dst) ==> p in q
    decreases |q|
  {
    var i := FirstFor(q, dst);
    if i < |q| {
      RemainingFrom(Deleted(q, i), dst);
      forall p {:trigger p in Remaining(q, dst)} | p in Remaining(q, dst)
        ensures p in q
      {
        assert p in Deleted(q, i);
      }
    }
  }

  lemma QueuesStay(w: World, s: Net, k: int, freshId: int)
    requires QueuesOk(s) && 0 <= k < |s.flight| && s.flight[k].to in w && s.flight[k].to in s.seen && s.flight[k].to in s.waiting
    requires s.flight[k].pkt.kind == RR ==> s.flight[k].pkt.id in s.sent && s.flight[k].pkt.id in s.got
    ensures QueuesOk(Delivered(w, s, k, freshId))
  {
    var h := s.flight[k];
    RemainingFrom(s.waiting[h.to], h.pkt.src);
    assert OnlyData(s.waiting[h.to]);
    hide Reaction, Releases, Remaining;
  }

  lemma ReactionTracks(w: World, s: Net, k: int, freshId: int, out: Send)
    requires Inv(w, s) && 0 <= k < |s.flight| && s.flight[k].to in w && freshId !in s.used
    requires s.flight[k].pkt.kind == RR ==> s.flight[k].pkt.id in s.sent && s.flight[k].pkt.id in s.got
    requires out in Reaction(w, s, s.flight[k], freshId)
    ensures OnTrack(w, Delivered(w, s, k, freshId), Hop(s.flight[k].to, out.to, out.pkt))
  {
    var h := s.flight[k];
    var s' := Delivered(w, s, k, freshId);
    assert OnTrack(w, s, h);
    DeliveryLater(w, s, k, freshId);
    hide WorldOk, OnRequest, OnReply, OnData, Later, AnswerRR, ForwardRr, ForwardData, DataSends, Delivered, IsMyid, Releases, Data, QueuesOk, Waits, Route;
    match h.pkt.kind {
      case RR =>
        var r :| OnRequest(w, s, h, r);
        RequestTracks(w, s, s', h, r, freshId, out);
      case Rr =>
        ReplyReactionTracks(w, s, s', h, freshId, out);
      case DATA =>
        var r, c, i :| OnData(w, h, r, c, i);
        DataTracks(w, h, r, c, i, out);
    }
  }

  lemma ReplyReactionTracks(w: World, s: Net, s': Net, h: Hop, freshId: int, out: Send)
    requires WorldOk(w) && QueuesOk(s) && Later(s, s') && h.to in w && h.to in s.seen && h.to in s.waiting
    requires h.pkt.kind == Rr && OnTrack(w, s, h) && out in Reaction(w, s, h, freshId)
    ensures OnTrack(w, s', Hop(h.to, out.to, out.pkt))
  {
    hide WorldOk, OnReply, OnData, Later, ForwardRr, DataSends, IsMyid, Releases, Data, QueuesOk, Waits, Lookup;
    var r, c :| OnReply(w, s, h, r, c);
    if IsMyid(w[h.to].ids, h.pkt.dst) {
      DataWaits(s, h);
      ReleaseTracks(w, s, h, r, c, Data(s, h), out);
    } else {
      ReplyTracks(w, s, s', h, r, c);
    }
  }

  lemma RequestTracks(w: World, s: Net, s': Net, h: Hop, r: seq<int>, freshId: int, out: Send)
    requires WorldOk(w) && OnRequest(w, s, h, r) && h.to in w && h.to in s.seen && h.pkt.id !in s.seen[h.to] && Later(s, s') && h.pkt.kind == RR
    requires freshId in s'.used && freshId !in s'.rrIds && h.to in s'.seen && h.pkt.id in s'.seen[h.to]
    requires out in AnswerRR(w[h.to], h.pkt, freshId)
    ensures OnTrack(w, s', Hop(h.to, out.to, out.pkt))
  {
    RequestLong(w, s, h, r);
    if IsMyid(w[h.to].ids, h.pkt.dst) {
      AnswerTracks(w, s, s', h, r, freshId, out);
      assert OnReply(w, s', Hop(h.to, out.to, out.pkt), r, |r| - 1);
    } else {
      FloodTracks(w, s, s', h, r, out);
      assert OnRequest(w, s', Hop(h.to, out.to, out.pkt), r + [out.to]);
    }
  }

  lemma DeliveryLater(w: World, s: Net, k: int, freshId: int)
    requires TablesKept(w, s) && 0 <= k < |s.flight| && s.flight[k].to in w && freshId !in s.used
    requires s.flight[k].pkt.kind == RR ==> s.flight[k].pkt.id in s.rrIds && s.flight[k].pkt.id in s.sent && s.flight[k].pkt.id in s.got
    ensures var s' := Delivered(w, s, k, freshId);
      && Later(s, s') && TablesKept(w, s') && freshId in s'.used && freshId !in s'.rrIds
      && (s.flight[k].pkt.kind == RR ==> s.flight[k].to in s'.seen && s.flight[k].pkt.id in s'.seen[s.flight[k].to])
  {
  }

  lemma DeliverKeeps(w: World, s: Net, k: int, freshId: int)
    requires Inv(w, s) && 0 <= k < |s.flight| && s.flight[k].to in w && freshId !in s.used
    requires s.flight[k].pkt.kind == RR ==> s.flight[k].pkt.id in s.sent && s.flight[k].pkt.id in s.got
    ensures Inv(w, Delivered(w, s, k, freshId))
  {
    var h := s.flight[k];
    var s' := Delivered(w, s, k, freshId);
    assert OnTrack(w, s, h);
    assert h.pkt.kind == RR ==> h.pkt.id in s.rrIds;
    DeliveryLater(w, s, k, freshId);
    QueuesStay(w, s, k, freshId);
    var out := Reaction(w, s, h, freshId);
    assert s'.flight == Without(s.flight, k) + Hops(h.to, out);
    hide WorldOk, Later, Delivered, Reaction, TablesKept, QueuesOk;
    forall g | g in s'.flight
      ensures OnTrack(w, s', g)
    {
      if g in Without(s.flight, k) {
        assert OnTrack(w, s, g);
        TrackStays(w, s, s', g);
      } else {
        var i :| 0 <= i < |out| && g == Hop(h.to, out[i].to, out[i].pkt);
        ReactionTracks(w, s, k, freshId, out[i]);
      }
    }
  }
}
