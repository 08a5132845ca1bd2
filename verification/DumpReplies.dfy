/** Where a reply goes on its way back along the path that a request recorded. */
module DumpReplies {
  import opened DumpTables
  import opened DumpWorld

  // The nodes a reply reaches from n on, until one of them is the one it is meant for.
  function Returns(w: World, pkt: Packet, n: int, fuel: nat): seq<int>
    decreases fuel
  {
    if n !in w then []
    else if IsMyid(w[n].ids, pkt.dst) || fuel == 0 then [n]
    else
      var s := ForwardRr(w[n], pkt);
      if |s| == 0 then [n] else [n] + Returns(w, s[0].pkt, s[0].to, fuel - 1)
  }

  // The first position met on the way back from i that holds the node that asked.
  function Home(r: seq<int>, i: int): (b: int)
    requires 0 <= i < |r|
    ensures 0 <= b <= i && r[b] == r[0] && forall j {:trigger r[j]} :: b < j <= i ==> r[j] != r[0]
  { if r[i] == r[0] then i else Home(r, i - 1) }

  ghost predicate Backwards(v: seq<int>, r: seq<int>, i: int, b: int)
    requires 0 <= b <= i < |r|
  { |v| == i - b + 1 && forall j {:trigger v[j]} :: 0 <= j <= i - b ==> v[j] == r[i - j] }

  lemma ForMe(w: World, r: seq<int>, dst: int, i: int)
    requires WorldOk(w) && Route(w, r) && dst == Iface(w, r[0], r[1]) && 0 <= i < |r|
    ensures r[i] in w && (IsMyid(w[r[i]].ids, dst) <==> r[i] == r[0])
  {
    RouteAt(w, r, 0);
    RouteAt(w, r, i);
    OwnerIs(w, r[i], r[0], r[1]);
  }

  // A reply rewritten from entry c on visits r[c - 1], r[c - 2] and so on, in this order, and its
  // way ends at the node that asked, the first time that it is met. With distinct nodes this is
  // the first node of the route, after c - 1 steps.
  lemma {:induction false} ReplyComesHome(w: World, r: seq<int>, pkt: Packet, c: int, fuel: nat)
    requires WorldOk(w) && Route(w, r) && OnceEach(r) && Rewritten(w, r, pkt.path, c) && pkt.dst == Iface(w, r[0], r[1]) && fuel >= c - 1
    ensures 1 <= c < |r| && Backwards(Returns(w, pkt, r[c - 1], fuel), r, c - 1, Home(r, c - 1))
    decreases c
  {
    hide WorldOk, Route, OnceEach, Rewritten, ForwardRr, IsMyid, Backwards, Iface, Returns;
    RewrittenIs(w, r, pkt.path, c);
    ForMe(w, r, pkt.dst, c - 1);
    if r[c - 1] == r[0] {
      ReturnsEnd(w, r, pkt, c, fuel);
    } else {
      var on := Onward(w, r, c, pkt);
      ReplyStep(w, r, c, pkt);
      ReplyComesHome(w, r, on, c - 1, fuel - 1);
      ReturnsOn(w, pkt, r[c - 1], fuel, r[c - 2], on);
      OneMoreBack(Returns(w, on, r[c - 2], fuel - 1), r, c - 1, Home(r, c - 1));
    }
  }

  function Onward(w: World, r: seq<int>, c: int, pkt: Packet): Packet
    requires 2 <= c < |r| == |pkt.path|
  { pkt.(path := pkt.path[c - 1 := Iface(w, r[c - 1], r[c - 2])]) }

  lemma ReturnsEnd(w: World, r: seq<int>, pkt: Packet, c: int, fuel: nat)
    requires 1 <= c < |r| && r[c - 1] == r[0] && r[c - 1] in w && IsMyid(w[r[c - 1]].ids, pkt.dst)
    ensures Backwards(Returns(w, pkt, r[c - 1], fuel), r, c - 1, c - 1)
  {
  }

  lemma ReturnsOn(w: World, pkt: Packet, n: int, fuel: nat, m: int, on: Packet)
    requires n in w && !IsMyid(w[n].ids, pkt.dst) && fuel > 0 && ForwardRr(w[n], pkt) == [Send(m, on)]
    ensures Returns(w, pkt, n, fuel) == [n] + Returns(w, on, m, fuel - 1)
  {
  }

  lemma OneMoreBack(v: seq<int>, r: seq<int>, i: int, b: int)
    requires 0 <= b < i < |r| && Backwards(v, r, i - 1, b)
    ensures Backwards([r[i]] + v, r, i, b)
  {
  }

  lemma RewrittenIs(w: World, r: seq<int>, path: seq<int>, c: int)
    requires Rewritten(w, r, path, c)
    ensures |path| == |r| && 1 <= c < |r|
  {
  }

  lemma DistinctHome(r: seq<int>, i: int)
    requires 0 <= i < |r| && forall j :: 1 <= j <= i ==> r[j] != r[0]
    ensures Home(r, i) == 0
  {
  }
}
