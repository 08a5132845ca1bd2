/** Networks of DUMP nodes, and routes through them. */
module DumpWorld {
  import opened DumpTables

  type World = map<int, Tables>

  ghost predicate LinkVia(t: Tables, i: int, m: int) { 0 <= i < |t.ports| && t.ports[i].sock == m }

  ghost predicate Link(w: World, n: int, m: int) { n in w && exists i {:trigger LinkVia(w[n], i, m)} :: LinkVia(w[n], i, m) }

  // The address of n's end of its link to m.
  function Iface(w: World, n: int, m: int): int { if n in w then AddrOf(w[n].ids, m) else INADDR_ANY }

  ghost predicate IdVia(t: Tables, i: int, m: int) { 0 <= i < |t.ids| && t.ids[i].sock == m }

  ghost predicate TablesOk(t: Tables) {
    && (forall j, k :: 0 <= j < k < |t.ports| ==> t.ports[j].peer != t.ports[k].peer && t.ports[j].sock != t.ports[k].sock)
    && (forall j, k :: 0 <= j < k < |t.ids| ==> t.ids[j].sock != t.ids[k].sock)
    && (forall j {:trigger t.ids[j]} :: 0 <= j < |t.ids| ==> t.ids[j].sock > 0)
  }

  // Links have two ends, the neighbour table holds the address of the other one.
  ghost predicate PortOk(w: World, n: int, i: int)
    requires n in w && 0 <= i < |w[n].ports|
  {
    var m := w[n].ports[i].sock;
    && m > 0 && m != n && m in w && Link(w, m, n) && w[n].ports[i].peer == Iface(w, m, n)
    && exists j {:trigger IdVia(w[n], j, m)} :: IdVia(w[n], j, m)
  }

  ghost predicate Owns(w: World, n: int, a: int) { n in w && IsMyid(w[n].ids, a) }

  // No address belongs to two nodes.
  ghost predicate Apart(w: World, n: int, m: int) { forall a {:trigger Owns(w, n, a)} :: Owns(w, n, a) && Owns(w, m, a) ==> n == m }

  ghost predicate WorldOk(w: World) {
    && (forall n {:trigger w[n]} :: n in w ==> TablesOk(w[n]))
    && (forall n, i {:trigger PortOk(w, n, i)} :: n in w && 0 <= i < |w[n].ports| ==> PortOk(w, n, i))
    && (forall n, m {:trigger Apart(w, n, m)} :: n in w && m in w ==> Apart(w, n, m))
  }

  lemma LinkBack(w: World, n: int, m: int)
    requires WorldOk(w) && Link(w, n, m)
    ensures n in w && m in w && Link(w, m, n) && m != n && m > 0
  {
    var i :| LinkVia(w[n], i, m);
    assert PortOk(w, n, i);
  }

  // A node finds a neighbour by the address of the neighbour's end of their link.
  lemma LookupAt(w: World, n: int, m: int)
    requires WorldOk(w) && Link(w, n, m)
    ensures n in w && Lookup(w[n].ports, Iface(w, m, n)) == m && m != 0
  {
    var i :| LinkVia(w[n], i, m);
    assert PortOk(w, n, i);
    LookupFinds(w[n].ports, i);
  }

  // ... and by no other address.
  lemma LookupOnly(w: World, n: int, a: int)
    requires WorldOk(w) && n in w && Lookup(w[n].ports, a) != 0
    ensures Link(w, n, Lookup(w[n].ports, a)) && a == Iface(w, Lookup(w[n].ports, a), n)
  {
    var m := Lookup(w[n].ports, a);
    LookupIs(w[n].ports, a);
    var i :| 0 <= i < |w[n].ports| && w[n].ports[i] == Port(a, m);
    assert LinkVia(w[n], i, m) && PortOk(w, n, i);
  }

  lemma OwnIface(w: World, n: int, m: int)
    requires WorldOk(w) && Link(w, n, m)
    ensures Owns(w, n, Iface(w, n, m)) && GetMyid(w[n].ids, m) == Iface(w, n, m)
  {
    var i :| LinkVia(w[n], i, m);
    assert PortOk(w, n, i);
    var j :| IdVia(w[n], j, m);
    AddrFinds(w[n].ids, j);
    assert w[n].ids[j].addr == Iface(w, n, m);
  }

  lemma OwnerIs(w: World, n: int, m: int, x: int)
    requires WorldOk(w) && Link(w, m, x) && n in w
    ensures IsMyid(w[n].ids, Iface(w, m, x)) <==> n == m
  {
    OwnIface(w, m, x);
    assert Apart(w, n, m);
    assert Owns(w, n, Iface(w, m, x)) ==> n == m;
  }

  // ---- routes

  ghost predicate Route(w: World, r: seq<int>) {
    |r| >= 2 && forall i {:trigger r[i]} :: 0 <= i < |r| - 1 ==> Link(w, r[i], r[i + 1])
  }

  lemma RouteAt(w: World, r: seq<int>, i: int)
    requires WorldOk(w) && Route(w, r) && 0 <= i < |r|
    ensures r[i] in w && r[i] != 0
    ensures i + 1 < |r| ==> Link(w, r[i], r[i + 1]) && Link(w, r[i + 1], r[i])
  {
    if i + 1 < |r| {
      assert Link(w, r[i], r[i + 1]);
      LinkBack(w, r[i], r[i + 1]);
      LinkBack(w, r[i + 1], r[i]);
    } else {
      assert Link(w, r[i - 1], r[i]);
      LinkBack(w, r[i - 1], r[i]);
    }
  }

  // Nobody but the first node is met twice.
  ghost predicate OnceEach(r: seq<int>) { forall i, j {:trigger r[i], r[j]} :: 1 <= i < j < |r| ==> r[i] != r[j] }

  // ---- what the path of a packet says

  // A request: every node it left wrote the address of the link it left by.
  ghost predicate Recorded(w: World, r: seq<int>, path: seq<int>) {
    |r| == |path| + 1 && forall i {:trigger path[i]} :: 0 <= i < |path| ==> path[i] == Iface(w, r[i], r[i + 1])
  }

  // A reply: from entry c on, the address of the link towards the node before.
  ghost predicate Rewritten(w: World, r: seq<int>, path: seq<int>, c: int) {
    && |path| == |r| && 1 <= c < |r|
    && forall i {:trigger path[i]} :: 0 <= i < |r| ==> path[i] == if i >= c then Iface(w, r[i], r[i - 1]) else Iface(w, r[i], r[i + 1])
  }

  lemma EntryOwner(w: World, r: seq<int>, path: seq<int>, c: int, n: int, i: int)
    requires WorldOk(w) && Route(w, r) && Rewritten(w, r, path, c) && 0 <= i < |r| && n in w
    ensures IsMyid(w[n].ids, path[i]) <==> n == r[i]
  {
    RouteAt(w, r, i);
    if i >= c {
      RouteAt(w, r, i - 1);
      OwnerIs(w, n, r[i], r[i - 1]);
    } else {
      OwnerIs(w, n, r[i], r[i + 1]);
    }
  }

  // A reply that reaches a node for which it is not meant goes to the node before it on the
  // route, with one more entry rewritten.
  lemma ReplyStep(w: World, r: seq<int>, c: int, pkt: Packet)
    requires WorldOk(w) && Route(w, r) && OnceEach(r) && Rewritten(w, r, pkt.path, c) && c >= 2 && r[c - 1] != r[0] && r[c - 1] in w
    ensures var path := pkt.path[c - 1 := Iface(w, r[c - 1], r[c - 2])];
      && ForwardRr(w[r[c - 1]], pkt) == [Send(r[c - 2], pkt.(path := path))]
      && Rewritten(w, r, path, c - 1)
  {
    var n, i := r[c - 1], c - 1;
    EntryOwner(w, r, pkt.path, c, n, i);
    forall j | 0 <= j < i
      ensures !IsMyid(w[n].ids, pkt.path[j])
    {
      EntryOwner(w, r, pkt.path, c, n, j);
      assert j >= 1 ==> r[j] != r[i];
    }
    FirstMineIs(w[n].ids, pkt.path, i);
    RouteAt(w, r, i - 1);
    assert pkt.path[i - 1] == Iface(w, r[i - 1], r[i]);
    LookupAt(w, n, r[i - 1]);
    OwnIface(w, n, r[i - 1]);
  }

  // The link addresses that a data packet needs at position i: the one found in its path leads
  // to r[i] exactly when entry i was rewritten, or r[i] uses one address on both links.
  lemma NextHop(w: World, r: seq<int>, path: seq<int>, c: int, i: int)
    requires WorldOk(w) && Route(w, r) && Rewritten(w, r, path, c) && 1 <= i < |r| && r[i - 1] in w
    ensures Lookup(w[r[i - 1]].ports, path[i]) == if i >= c || Iface(w, r[i], r[i + 1]) == Iface(w, r[i], r[i - 1]) then r[i] else 0
  {
    RouteAt(w, r, i - 1);
    LookupAt(w, r[i - 1], r[i]);
    if i < c && Lookup(w[r[i - 1]].ports, path[i]) != 0 {
      var m := Lookup(w[r[i - 1]].ports, path[i]);
      LookupOnly(w, r[i - 1], path[i]);
      RouteAt(w, r, i);
      LinkBack(w, r[i - 1], m);
      OwnIface(w, m, r[i - 1]);
      EntryOwner(w, r, path, c, m, i);
    }
  }
}
