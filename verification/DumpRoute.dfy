/** Where a data packet goes along the path that a reply brought back. */
module DumpRoute {
  import opened DumpTables
  import opened DumpWorld

  // The nodes a data packet reaches from n on; no route is longer than fuel.
  function Visits(w: World, pkt: Packet, n: int, fuel: nat): seq<int>
    decreases fuel
  {
    if n !in w then []
    else if IsMyid(w[n].ids, pkt.dst) || fuel == 0 then [n]
    else
      var s := ForwardData(w[n], pkt);
      if |s| == 0 then [n] else [n] + Visits(w, pkt, s[0].to, fuel - 1)
  }

  // ... when node n, which asked for the route, sends it.
  function Trace(w: World, pkt: Packet, n: int, fuel: nat): seq<int> {
    if n !in w || |pkt.path| < 2 then [n]
    else
      var first := Lookup(w[n].ports, pkt.path[1]);
      if first == 0 then [n] else [n] + Visits(w, pkt, first, fuel)
  }

  // The node at i uses the same address towards both its neighbours on the route.
  predicate SameAddress(w: World, r: seq<int>, i: int)
    requires 1 <= i < |r| - 1
  { Iface(w, r[i], r[i + 1]) == Iface(w, r[i], r[i - 1]) }

  // Entry i of the path leads to r[i].
  predicate Leads(w: World, r: seq<int>, c: int, i: int)
    requires 1 <= i < |r| && c < |r|
  { i >= c || SameAddress(w, r, i) }

  lemma DataStep(w: World, r: seq<int>, pkt: Packet, c: int, i: int)
    requires WorldOk(w) && Route(w, r) && OnceEach(r) && Rewritten(w, r, pkt.path, c) && 1 <= i < |r| - 1
    ensures r[i] in w && ForwardData(w[r[i]], pkt) == if Leads(w, r, c, i + 1) then [Send(r[i + 1], pkt)] else []
  {
    RouteAt(w, r, i);
    EntryOwner(w, r, pkt.path, c, r[i], i);
    forall j | i < j < |pkt.path|
      ensures !IsMyid(w[r[i]].ids, pkt.path[j])
    {
      EntryOwner(w, r, pkt.path, c, r[i], j);
    }
    LastMineIs(w[r[i]].ids, pkt.path, i);
    NextHop(w, r, pkt.path, c, i + 1);
    RouteAt(w, r, i + 1);
  }

  lemma NotYet(w: World, r: seq<int>, dst: int, i: int)
    requires WorldOk(w) && Route(w, r) && OnceEach(r) && Owns(w, r[|r| - 1], dst) && 1 <= i < |r|
    ensures r[i] in w && (IsMyid(w[r[i]].ids, dst) <==> i == |r| - 1)
  {
    RouteAt(w, r, i);
    assert Apart(w, r[i], r[|r| - 1]);
    assert Owns(w, r[i], dst) ==> r[i] == r[|r| - 1];
  }

  // The first position after i whose entry does not lead on; the length of the route if all do.
  function FirstBad(w: World, r: seq<int>, c: int, i: int): (b: int)
    requires 0 <= i < |r| && c < |r|
    ensures i < b <= |r| && (b < |r| ==> !Leads(w, r, c, b)) && forall j :: i < j < b ==> Leads(w, r, c, j)
    decreases |r| - i
  { if i + 1 == |r| || !Leads(w, r, c, i + 1) then i + 1 else FirstBad(w, r, c, i + 1) }

  lemma {:induction false} VisitsAre(w: World, r: seq<int>, pkt: Packet, c: int, i: int, fuel: nat)
    requires WorldOk(w) && Route(w, r) && OnceEach(r) && Rewritten(w, r, pkt.path, c) && Owns(w, r[|r| - 1], pkt.dst)
    requires 1 <= i < |r| && fuel >= |r| - 1 - i && c < |r|
    ensures Visits(w, pkt, r[i], fuel) == r[i..FirstBad(w, r, c, i)]
    decreases |r| - i
  {
    hide WorldOk, Route, OnceEach, Rewritten, Owns, IsMyid, ForwardData, Leads;
    NotYet(w, r, pkt.dst, i);
    if i == |r| - 1 {
      assert r[i..i + 1] == [r[i]];
    } else {
      DataStep(w, r, pkt, c, i);
      if Leads(w, r, c, i + 1) {
        VisitsAre(w, r, pkt, c, i + 1, fuel - 1);
        var b := FirstBad(w, r, c, i + 1);
        assert r[i..b] == [r[i]] + r[i + 1..b];
      } else {
        assert r[i..i + 1] == [r[i]];
      }
    }
  }

  lemma TraceIs(w: World, r: seq<int>, pkt: Packet, c: int, fuel: nat)
    requires WorldOk(w) && Route(w, r) && OnceEach(r) && Rewritten(w, r, pkt.path, c) && Owns(w, r[|r| - 1], pkt.dst) && fuel >= |r|
    ensures Trace(w, pkt, r[0], fuel) == r[..FirstBad(w, r, c, 0)]
  {
    RouteLong(w, r, pkt.path, c);
    hide WorldOk, Route, OnceEach, Rewritten, Owns, Leads, Visits;
    RouteAt(w, r, 0);
    RouteAt(w, r, 1);
    FirstHop(w, r, pkt.path, c);
    if Leads(w, r, c, 1) {
      VisitsAre(w, r, pkt, c, 1, fuel);
      var b := FirstBad(w, r, c, 1);
      assert r[..b] == [r[0]] + r[1..b];
    } else {
      assert r[..1] == [r[0]];
    }
  }

  lemma RouteLong(w: World, r: seq<int>, path: seq<int>, c: int)
    requires Route(w, r) && Rewritten(w, r, path, c)
    ensures |r| >= 2 && |path| == |r| && 1 <= c < |r|
  {
  }

  lemma FirstHop(w: World, r: seq<int>, path: seq<int>, c: int)
    requires WorldOk(w) && Route(w, r) && Rewritten(w, r, path, c) && r[0] in w
    ensures Lookup(w[r[0]].ports, path[1]) == if Leads(w, r, c, 1) then r[1] else 0
  {
    NextHop(w, r, path, c, 1);
  }

  // A data packet on the path of a reply that stopped rewriting at entry c visits the nodes of
  // the route, in order, to the destination exactly when every node whose entry was not rewritten
  // uses one address on both sides.
  lemma DataFollowsRoute(w: World, r: seq<int>, pkt: Packet, c: int, fuel: nat)
    requires WorldOk(w) && Route(w, r) && OnceEach(r) && Rewritten(w, r, pkt.path, c) && Owns(w, r[|r| - 1], pkt.dst) && fuel >= |r|
    ensures Trace(w, pkt, r[0], fuel) == r <==> forall i :: 1 <= i < c ==> SameAddress(w, r, i)
  {
    TraceIs(w, r, pkt, c, fuel);
    RouteLong(w, r, pkt.path, c);
    hide WorldOk, Route, OnceEach, Rewritten, Owns, Trace;
    var b := FirstBad(w, r, c, 0);
    assert r[..b] == r <==> b == |r| by { assert |r[..b]| == b; }
    if b < |r| {
      assert !SameAddress(w, r, b) && 1 <= b < c;
    } else {
      forall i | 1 <= i < c
        ensures SameAddress(w, r, i)
      {
        assert Leads(w, r, c, i);
      }
    }
  }

  // With distinct nodes every entry but the first is rewritten, and the route is followed.
  lemma DistinctRouteFollowed(w: World, r: seq<int>, pkt: Packet, fuel: nat)
    requires WorldOk(w) && Route(w, r) && OnceEach(r) && Rewritten(w, r, pkt.path, 1) && Owns(w, r[|r| - 1], pkt.dst) && fuel >= |r|
    ensures Trace(w, pkt, r[0], fuel) == r
  {
    DataFollowsRoute(w, r, pkt, 1, fuel);
  }
}
