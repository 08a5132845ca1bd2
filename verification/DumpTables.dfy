/** The tables of a DUMP node: its neighbours, its own addresses, and the packets. */
module DumpTables {
  // A neighbour is reached through a socket, and known by the address of its end of the link.
  // Sockets are named after the node they lead to; 0 stands for no socket.
  datatype Port = Port(peer: int, sock: int)

  // The address of our end of the link behind a socket.
  datatype MyId = MyId(sock: int, addr: int)

  datatype Tables = Tables(ports: seq<Port>, ids: seq<MyId>)

  datatype Kind = RR | Rr | DATA

  datatype Packet = Packet(kind: Kind, id: int, src: int, dst: int, path: seq<int>)

  datatype Send = Send(to: int, pkt: Packet)

  const INADDR_ANY := 0

  // dump_lookup_neighbor
  function Lookup(ports: seq<Port>, peer: int): int {
    if |ports| == 0 then 0 else if ports[0].peer == peer then ports[0].sock else Lookup(ports[1..], peer)
  }

  // dump_is_myid
  predicate IsMyid(ids: seq<MyId>, addr: int) {
    exists i :: 0 <= i < |ids| && ids[i].addr == addr
  }

  function AddrOf(ids: seq<MyId>, sock: int): int {
    if |ids| == 0 then INADDR_ANY else if ids[0].sock == sock then ids[0].addr else AddrOf(ids[1..], sock)
  }

  // dump_get_myid
  function GetMyid(ids: seq<MyId>, sock: int): int {
    if sock == 0 && |ids| > 0 then ids[0].addr else AddrOf(ids, sock)
  }

  // What a node calls itself, for no link in particular, is one of its own addresses, if it has any.
  lemma OwnName(ids: seq<MyId>)
    ensures |ids| > 0 ==> IsMyid(ids, GetMyid(ids, 0))
  {
    if |ids| > 0 { assert ids[0].addr == GetMyid(ids, 0); }
  }

  // ---- what the handlers send

  // The request as it goes out to one neighbour, with the own end of that link added to its path.
  function FloodCopy(port: Port, ids: seq<MyId>, pkt: Packet): Send {
    Send(port.sock, pkt.(path := pkt.path + [GetMyid(ids, port.sock)]))
  }

  // To every neighbour but the sender of the request.
  function Flood(ports: seq<Port>, ids: seq<MyId>, prev: int, pkt: Packet): seq<Send> {
    if |ports| == 0 then []
    else
      var rest := Flood(ports[..|ports| - 1], ids, prev, pkt);
      var p := ports[|ports| - 1];
      if p.peer == prev then rest else rest + [FloodCopy(p, ids, pkt)]
  }

  // dump_receive_RR for an id that is not in the table; fresh is the id of the reply.
  function AnswerRR(t: Tables, pkt: Packet, freshId: int): seq<Send> {
    if |pkt.path| == 0 then []
    else
      var prev := pkt.path[|pkt.path| - 1];
      if IsMyid(t.ids, pkt.dst) then
        var back := Lookup(t.ports, prev);
        if back == 0 then [] else [Send(back, Packet(Rr, freshId, pkt.dst, pkt.src, pkt.path + [GetMyid(t.ids, back)]))]
      else Flood(t.ports, t.ids, prev, pkt)
  }

  // The first entry that is one of our addresses.
  function FirstMine(ids: seq<MyId>, path: seq<int>): int {
    if |path| == 0 then 0 else if IsMyid(ids, path[0]) then 0 else 1 + FirstMine(ids, path[1..])
  }

  // The last one; -1 when there is none.
  function LastMine(ids: seq<MyId>, path: seq<int>): int {
    if |path| == 0 then -1 else if IsMyid(ids, path[|path| - 1]) then |path| - 1 else LastMine(ids, path[..|path| - 1])
  }

  // dump_receive_Rr at a node that did not ask for the route: rewrite the own entry, send it back.
  function ForwardRr(t: Tables, pkt: Packet): seq<Send> {
    var i := FirstMine(t.ids, pkt.path);
    if i >= |pkt.path| || i <= 0 then []
    else
      var back := Lookup(t.ports, pkt.path[i - 1]);
      if back == 0 then [] else [Send(back, pkt.(path := pkt.path[i := GetMyid(t.ids, back)]))]
  }

  // dump_receive_DATA at a node that is not the destination.
  function ForwardData(t: Tables, pkt: Packet): seq<Send> {
    var i := LastMine(t.ids, pkt.path);
    if i < 0 || i + 1 >= |pkt.path| then []
    else
      var next := Lookup(t.ports, pkt.path[i + 1]);
      if next == 0 then [] else [Send(next, pkt)]
  }

  // ---- facts about the tables

  lemma {:induction false} LookupFinds(ports: seq<Port>, i: int)
    requires 0 <= i < |ports| && forall j, k :: 0 <= j < k < |ports| ==> ports[j].peer != ports[k].peer
    ensures Lookup(ports, ports[i].peer) == ports[i].sock
  {
    if i > 0 {
      assert ports[0].peer != ports[i].peer;
      assert ports[1..][i - 1] == ports[i];
      LookupFinds(ports[1..], i - 1);
    }
  }

  lemma {:induction false} LookupIs(ports: seq<Port>, peer: int)
    ensures Lookup(ports, peer) != 0 ==> exists i :: 0 <= i < |ports| && ports[i] == Port(peer, Lookup(ports, peer))
  {
    if |ports| > 0 {
      if ports[0].peer == peer {
        assert ports[0] == Port(peer, ports[0].sock);
      } else {
        LookupIs(ports[1..], peer);
        if Lookup(ports[1..], peer) != 0 {
          var i :| 0 <= i < |ports[1..]| && ports[1..][i] == Port(peer, Lookup(ports, peer));
          assert ports[i + 1] == Port(peer, Lookup(ports, peer));
        }
      }
    }
  }

  lemma {:induction false} AddrFinds(ids: seq<MyId>, i: int)
    requires 0 <= i < |ids| && forall j, k :: 0 <= j < k < |ids| ==> ids[j].sock != ids[k].sock
    ensures AddrOf(ids, ids[i].sock) == ids[i].addr
  {
    if i > 0 {
      assert ids[0].sock != ids[i].sock;
      assert ids[1..][i - 1] == ids[i];
      AddrFinds(ids[1..], i - 1);
    }
  }

  lemma {:induction false} FirstMineIs(ids: seq<MyId>, path: seq<int>, i: int)
    requires 0 <= i < |path| && IsMyid(ids, path[i]) && forall j :: 0 <= j < i ==> !IsMyid(ids, path[j])
    ensures FirstMine(ids, path) == i
  {
    if i > 0 {
      assert !IsMyid(ids, path[0]);
      assert path[1..][i - 1] == path[i];
      FirstMineIs(ids, path[1..], i - 1);
    }
  }

  lemma {:induction false} LastMineIs(ids: seq<MyId>, path: seq<int>, i: int)
    requires 0 <= i < |path| && IsMyid(ids, path[i]) && forall j :: i < j < |path| ==> !IsMyid(ids, path[j])
    ensures LastMine(ids, path) == i
  {
    if i < |path| - 1 {
      assert !IsMyid(ids, path[|path| - 1]);
      LastMineIs(ids, path[..|path| - 1], i);
    }
  }

  // What a flood sends: one copy per neighbour, except over the link the request came from.
  lemma {:induction false} FloodIs(ports: seq<Port>, ids: seq<MyId>, prev: int, pkt: Packet, s: Send)
    ensures s in Flood(ports, ids, prev, pkt) <==>
      exists i :: 0 <= i < |ports| && ports[i].peer != prev && s == FloodCopy(ports[i], ids, pkt)
  {
    if |ports| > 0 {
      var n := |ports| - 1;
      FloodIs(ports[..n], ids, prev, pkt, s);
      if s == FloodCopy(ports[n], ids, pkt) && ports[n].peer != prev {
        assert ports[n].peer != prev && s == FloodCopy(ports[n], ids, pkt);
      }
      if i :| 0 <= i < |ports[..n]| && ports[..n][i].peer != prev && s == FloodCopy(ports[..n][i], ids, pkt) {
        assert ports[i] == ports[..n][i];
      }
      if i :| 0 <= i < |ports| && ports[i].peer != prev && s == FloodCopy(ports[i], ids, pkt) {
        if i < n { assert ports[..n][i] == ports[i]; }
      }
    }
  }

  lemma {:induction false} FloodSize(ports: seq<Port>, ids: seq<MyId>, prev: int, pkt: Packet)
    ensures |Flood(ports, ids, prev, pkt)| <= |ports|
    ensures (exists i :: 0 <= i < |ports| && ports[i].peer == prev) ==> |Flood(ports, ids, prev, pkt)| <= |ports| - 1
  {
    if |ports| > 0 {
      var n := |ports| - 1;
      FloodSize(ports[..n], ids, prev, pkt);
      if i :| 0 <= i < |ports| && ports[i].peer == prev {
        if i < n { assert ports[..n][i].peer == prev; }
      }
    }
  }
}
