/** A DUMP node and its packet handlers. */
module DumpNode {
  import opened DumpTables

  // dump_del_send_queue on the i-th waiting packet: deleting the second one drops the head too.
  function Deleted(q: seq<Packet>, i: int): seq<Packet>
    requires 0 <= i < |q|
  { if i <= 1 then q[i + 1..] else q[..i] + q[i + 1..] }

  // The other packets stay exactly when it is not the second one that is deleted.
  lemma DeletedKeepsOthers(q: seq<Packet>, i: int)
    requires 0 <= i < |q|
    ensures Deleted(q, i) == q[..i] + q[i + 1..] <==> i != 1
  {
    if i == 1 { assert |Deleted(q, i)| != |q[..i] + q[i + 1..]|; }
  }

  // dump_lookup_send_queue: the first packet that waits for dst; |q| when there is none.
  function FirstFor(q: seq<Packet>, dst: int): (i: int)
    ensures 0 <= i <= |q| && (i < |q| ==> q[i].dst == dst) && forall j :: 0 <= j < i ==> q[j].dst != dst
  { if |q| == 0 then 0 else if q[0].dst == dst then 0 else 1 + FirstFor(q[1..], dst) }

  // What leaves the queue, in order, once the route to dst is known.
  function Released(q: seq<Packet>, dst: int): seq<Packet>
    decreases |q|
  {
    var i := FirstFor(q, dst);
    if i >= |q| then [] else [q[i]] + Released(Deleted(q, i), dst)
  }

  function Remaining(q: seq<Packet>, dst: int): seq<Packet>
    decreases |q|
  {
    var i := FirstFor(q, dst);
    if i >= |q| then q else Remaining(Deleted(q, i), dst)
  }

  lemma ReleasedStep(q: seq<Packet>, dst: int)
    requires FirstFor(q, dst) < |q|
    ensures var i := FirstFor(q, dst); Released(q, dst) == [q[i]] + Released(Deleted(q, i), dst) && Remaining(q, dst) == Remaining(Deleted(q, i), dst)
    ensures |Deleted(q, FirstFor(q, dst))| < |q|
  {
  }

  lemma ReleasedEnd(q: seq<Packet>, dst: int)
    requires FirstFor(q, dst) >= |q|
    ensures Released(q, dst) == [] && Remaining(q, dst) == q
  {
  }

  // Only packets for that destination leave the queue.
  lemma {:induction false} ReleasedWaited(q: seq<Packet>, dst: int)
    ensures forall p {:trigger p in Released(q, dst)} :: p in Released(q, dst) ==> p in q && p.dst == dst
    decreases |q|
  {
    var i := FirstFor(q, dst);
    if i < |q| {
      ReleasedWaited(Deleted(q, i), dst);
      forall p {:trigger p in Released(q, dst)} | p in Released(q, dst)
        ensures p in q && p.dst == dst
      {
        assert p == q[i] || p in Released(Deleted(q, i), dst);
        assert p in Deleted(q, i) ==> p in q;
      }
    }
  }

  // The data packets, each with the route the reply brought.
  function DataSends(t: Tables, reply: Packet, ps: seq<Packet>): seq<Send>
    requires |reply.path| >= 2
  {
    if |ps| == 0 then []
    else DataSends(t, reply, ps[..|ps| - 1]) + [Send(Lookup(t.ports, reply.path[1]), ps[|ps| - 1].(path := reply.path))]
  }

  lemma NoDataSends(t: Tables, reply: Packet)
    requires |reply.path| >= 2
    ensures DataSends(t, reply, []) == []
  {
  }

  lemma DataSendsMore(t: Tables, reply: Packet, ps: seq<Packet>, p: Packet)
    requires |reply.path| >= 2
    ensures DataSends(t, reply, ps + [p]) == DataSends(t, reply, ps) + [Send(Lookup(t.ports, reply.path[1]), p.(path := reply.path))]
  {
    assert (ps + [p])[..|ps|] == ps;
  }

  lemma Regroup(ps: seq<Packet>, p: Packet, qs: seq<Packet>)
    ensures ps + ([p] + qs) == (ps + [p]) + qs
  {
  }

  class Node {
    const t: Tables
    var rrSeen: set<int>
    var replySeen: set<int>
    var waiting: seq<Packet>
    var outbox: seq<Send>

    constructor (t: Tables)
      ensures this.t == t && rrSeen == {} && replySeen == {} && waiting == [] && outbox == []
    {
      this.t := t;
      rrSeen, replySeen, waiting, outbox := {}, {}, [], [];
    }

    method Emit(to: int, pkt: Packet)
      modifies this`outbox
      ensures outbox == old(outbox) + [Send(to, pkt)]
    {
      outbox := outbox + [Send(to, pkt)];
    }

    // dump_receive_RR
    method ReceiveRR(pkt: Packet, freshId: int)
      modifies this`rrSeen, this`outbox
      ensures rrSeen == old(rrSeen) + {pkt.id}
      ensures outbox == old(outbox) + if pkt.id in old(rrSeen) then [] else AnswerRR(t, pkt, freshId)
    {
      if pkt.id in rrSeen { return; }
      rrSeen := rrSeen + {pkt.id};
      if |pkt.path| == 0 { return; }
      var n := |pkt.path|;
      var npath := new int[n + 1];
      var prev := pkt.path[n - 1];
      for k := 0 to n
        invariant npath[..k] == pkt.path[..k]
        modifies npath
      {
        npath[k] := pkt.path[k];
      }
      assert npath[..n] == pkt.path;
      if IsMyid(t.ids, pkt.dst) {
        var back := Lookup(t.ports, prev);
        npath[n] := GetMyid(t.ids, back);
        assert npath[..] == pkt.path + [GetMyid(t.ids, back)];
        // dump_send_Rr refuses socket 0
        if back != 0 { Emit(back, Packet(Rr, freshId, pkt.dst, pkt.src, npath[..])); }
      } else {
        FloodAll(pkt, npath, prev);
      }
    }

    // send it to all neighbors ... but the sender
    method FloodAll(pkt: Packet, npath: array<int>, prev: int)
      requires npath.Length == |pkt.path| + 1 && npath[..|pkt.path|] == pkt.path
      modifies this`outbox, npath
      ensures outbox == old(outbox) + Flood(t.ports, t.ids, prev, pkt)
    {
      var n := |pkt.path|;
      var index := 0;
      while index < |t.ports|
        invariant 0 <= index <= |t.ports| && npath[..n] == pkt.path
        invariant outbox == old(outbox) + Flood(t.ports[..index], t.ids, prev, pkt)
      {
        var actual := t.ports[index];
        assert t.ports[..index + 1][..index] == t.ports[..index];
        if actual.peer != prev {
          npath[n] := GetMyid(t.ids, actual.sock);
          assert npath[..] == pkt.path + [GetMyid(t.ids, actual.sock)];
          Emit(actual.sock, pkt.(path := npath[..]));
        }
        index := index + 1;
      }
      assert t.ports[..|t.ports|] == t.ports;
    }

    // dump_receive_Rr; down tells that the node gave up because the route starts nowhere.
    method ReceiveRr(pkt: Packet) returns (down: bool)
      requires |pkt.path| == 1 ==> !IsMyid(t.ids, pkt.dst)
      modifies this`replySeen, this`waiting, this`outbox
      ensures replySeen == old(replySeen) + if pkt.id in rrSeen then {} else {pkt.id}
      ensures pkt.id in rrSeen ==> outbox == old(outbox) && waiting == old(waiting) && !down
      ensures pkt.id !in rrSeen && |pkt.path| > 0 && !IsMyid(t.ids, pkt.dst) ==>
        outbox == old(outbox) + ForwardRr(t, pkt) && waiting == old(waiting) && !down
      ensures pkt.id !in rrSeen && |pkt.path| > 0 && IsMyid(t.ids, pkt.dst) && Lookup(t.ports, pkt.path[1]) != 0 ==>
        outbox == old(outbox) + DataSends(t, pkt, Released(old(waiting), pkt.src)) && waiting == Remaining(old(waiting), pkt.src) && !down
      ensures |pkt.path| == 0 || (IsMyid(t.ids, pkt.dst) && Lookup(t.ports, pkt.path[1]) == 0) ==> outbox == old(outbox) && waiting == old(waiting)
      ensures down <==> pkt.id !in rrSeen && |pkt.path| > 0 && IsMyid(t.ids, pkt.dst) && Lookup(t.ports, pkt.path[1]) == 0
                        && FirstFor(old(waiting), pkt.src) < |old(waiting)|
    {
      down := false;
      // looks in the table of the requests
      if pkt.id in rrSeen { return; }
      replySeen := replySeen + {pkt.id};
      if |pkt.path| == 0 { return; }
      if IsMyid(t.ids, pkt.dst) {
        down := ReleaseData(pkt);
      } else {
        var path := new int[|pkt.path|](i requires 0 <= i < |pkt.path| => pkt.path[i]);
        var i := 0;
        while i < path.Length && !IsMyid(t.ids, path[i])
          invariant 0 <= i <= path.Length == |pkt.path| && path[..] == pkt.path
          invariant FirstMine(t.ids, pkt.path) == i + FirstMine(t.ids, pkt.path[i..])
        {
          assert pkt.path[i..][1..] == pkt.path[i + 1..];
          i := i + 1;
        }
        assert FirstMine(t.ids, pkt.path) == i;
        if i < path.Length && i > 0 {
          var back := Lookup(t.ports, path[i - 1]);
          path[i] := GetMyid(t.ids, back);
          assert path[..] == pkt.path[i := GetMyid(t.ids, back)];
          if back != 0 { Emit(back, pkt.(path := path[..])); }
        }
      }
    }

    // The packets for the destination that has answered leave the queue.
    method ReleaseData(pkt: Packet) returns (down: bool)
      requires |pkt.path| >= 2
      modifies this`waiting, this`outbox
      ensures Lookup(t.ports, pkt.path[1]) != 0 ==>
        outbox == old(outbox) + DataSends(t, pkt, Released(old(waiting), pkt.src)) && waiting == Remaining(old(waiting), pkt.src) && !down
      ensures Lookup(t.ports, pkt.path[1]) == 0 ==> outbox == old(outbox) && waiting == old(waiting)
      ensures down <==> Lookup(t.ports, pkt.path[1]) == 0 && FirstFor(old(waiting), pkt.src) < |old(waiting)|
    {
      hide Released, Remaining, FirstFor, DataSends, Lookup, Deleted;
      assert DataSends(t, pkt, []) == [] by { NoDataSends(t, pkt); }
      ghost var sent := [];
      var i := FirstFor(waiting, pkt.src);
      down := false;
      while i < |waiting| && !down
        invariant i == FirstFor(waiting, pkt.src)
        invariant outbox == old(outbox) + DataSends(t, pkt, sent)
        invariant Released(old(waiting), pkt.src) == sent + Released(waiting, pkt.src)
        invariant Remaining(old(waiting), pkt.src) == Remaining(waiting, pkt.src)
        invariant down ==> Lookup(t.ports, pkt.path[1]) == 0
        invariant Lookup(t.ports, pkt.path[1]) == 0 ==> outbox == old(outbox) && waiting == old(waiting)
        invariant down ==> FirstFor(old(waiting), pkt.src) < |old(waiting)|
        invariant i < |waiting| ==> FirstFor(old(waiting), pkt.src) < |old(waiting)|
        decreases |waiting|, !down
      {
        var next := Lookup(t.ports, pkt.path[1]);
        if next == 0 {
          down := true;
        } else {
          ReleasedStep(waiting, pkt.src);
          DataSendsMore(t, pkt, sent, waiting[i]);
          Regroup(sent, waiting[i], Released(Deleted(waiting, i), pkt.src));
          Emit(next, waiting[i].(path := pkt.path));
          sent := sent + [waiting[i]];
          waiting := Deleted(waiting, i);
          i := FirstFor(waiting, pkt.src);
        }
      }
      if !down {
        ReleasedEnd(waiting, pkt.src);
        assert sent + [] == sent;
      }
    }

    // dump_receive_DATA, with the scan from the last entry of the path
    method ReceiveData(pkt: Packet) returns (mine: bool)
      modifies this`outbox
      ensures mine <==> |pkt.path| > 0 && IsMyid(t.ids, pkt.dst)
      ensures outbox == old(outbox) + if mine || |pkt.path| == 0 then [] else ForwardData(t, pkt)
    {
      if |pkt.path| == 0 { return false; }
      mine := IsMyid(t.ids, pkt.dst);
      if !mine {
        var i := |pkt.path| - 1;
        assert pkt.path[..|pkt.path|] == pkt.path;
        while i >= 0 && !IsMyid(t.ids, pkt.path[i])
          invariant -1 <= i < |pkt.path| && LastMine(t.ids, pkt.path) == LastMine(t.ids, pkt.path[..i + 1])
        {
          assert pkt.path[..i + 1][..i] == pkt.path[..i];
          i := i - 1;
        }
        assert LastMine(t.ids, pkt.path) == i;
        if 0 <= i && i + 1 < |pkt.path| {
          var next := Lookup(t.ports, pkt.path[i + 1]);
          if next != 0 { Emit(next, pkt); }
        }
      }
    }

    // dump_send: queue the data and ask every neighbour for the route
    method Request(dst: int, dataId: int, ids: seq<int>)
      requires |ids| == |t.ports|
      modifies this`waiting, this`outbox
      ensures waiting == old(waiting) + [Packet(DATA, dataId, GetMyid(t.ids, 0), dst, [])]
      ensures outbox == old(outbox) + Requests(t, t.ports, dst, ids)
    {
      waiting := waiting + [Packet(DATA, dataId, GetMyid(t.ids, 0), dst, [])];
      var index := 0;
      while index < |t.ports|
        invariant 0 <= index <= |t.ports| && waiting == old(waiting) + [Packet(DATA, dataId, GetMyid(t.ids, 0), dst, [])]
        invariant outbox == old(outbox) + Requests(t, t.ports[..index], dst, ids[..index])
      {
        var sock := t.ports[index].sock;
        var path := [GetMyid(t.ids, sock)];
        assert t.ports[..index + 1][..index] == t.ports[..index] && ids[..index + 1][..index] == ids[..index];
        Emit(sock, Packet(RR, ids[index], GetMyid(t.ids, sock), dst, path));
        index := index + 1;
      }
      assert t.ports[..|t.ports|] == t.ports && ids[..|t.ports|] == ids;
    }
  }

  // One request per neighbour, each with an id of its own.
  function Requests(t: Tables, ports: seq<Port>, dst: int, ids: seq<int>): seq<Send>
    requires |ids| == |ports|
  {
    if |ports| == 0 then []
    else
      var n := |ports| - 1;
      var me := GetMyid(t.ids, ports[n].sock);
      Requests(t, ports[..n], dst, ids[..n]) + [Send(ports[n].sock, Packet(RR, ids[n], me, dst, [me]))]
  }
}
