/** Replies and data are never doubled: every packet of these kinds is at one place at most. */
module DumpCopies {
  import opened DumpTables
  import opened DumpNode
  import opened DumpWorld
  import opened DumpNet
  import opened DumpTotals
  import opened DumpRuns

  // ---- how often a packet id is there

  function Copy(h: Hop, id: int): int { if h.pkt.kind != RR && h.pkt.id == id then 1 else 0 }

  function Copied(id: int): Hop -> int { (h: Hop) => Copy(h, id) }

  function Queued(q: seq<Packet>, id: int): nat {
    if |q| == 0 then 0 else Queued(q[..|q| - 1], id) + if q[|q| - 1].id == id then 1 else 0
  }

  function Waiting(s: Net, id: int): map<int, int> { map n | n in s.waiting :: Queued(s.waiting[n], id) }

  // In flight and in the queues together.
  ghost function Copies(s: Net, id: int): int { Total(s.flight, Copied(id)) + Sum(Waiting(s, id)) }

  ghost predicate Single(s: Net) {
    forall id {:trigger Copies(s, id)} :: 0 <= Copies(s, id) <= 1 && (id !in s.used ==> Copies(s, id) == 0)
  }

  lemma {:induction false} QueuedSum(p: seq<Packet>, q: seq<Packet>, id: int)
    ensures Queued(p + q, id) == Queued(p, id) + Queued(q, id)
  {
    if |q| == 0 {
      assert p + q == p;
    } else {
      assert (p + q)[..|p + q| - 1] == p + q[..|q| - 1];
      QueuedSum(p, q[..|q| - 1], id);
    }
  }

  lemma QueuedOne(p: Packet, id: int)
    ensures Queued([p], id) == if p.id == id then 1 else 0
  {
    assert [p][..0] == [];
  }

  lemma {:induction false} QueuedTail(q: seq<Packet>, i: int, id: int)
    requires 0 <= i < |q|
    ensures Queued(Deleted(q, i), id) + Queued([q[i]], id) <= Queued(q, id)
  {
    hide Queued;
    assert q == q[..i] + ([q[i]] + q[i + 1..]);
    QueuedSum(q[..i], [q[i]] + q[i + 1..], id);
    QueuedSum([q[i]], q[i + 1..], id);
    QueuedSum(q[..i], q[i + 1..], id);
  }

  // What leaves a queue and what stays in it was in it.
  lemma {:induction false} QueuedSplit(q: seq<Packet>, dst: int, id: int)
    ensures Queued(Released(q, dst), id) + Queued(Remaining(q, dst), id) <= Queued(q, id)
    decreases |q|
  {
    hide Queued;
    var i := FirstFor(q, dst);
    if i < |q| {
      QueuedSplit(Deleted(q, i), dst, id);
      QueuedTail(q, i, id);
      QueuedSum([q[i]], Released(Deleted(q, i), dst), id);
    } else {
      assert Released(q, dst) == [];
      NoneQueued(id);
    }
  }

  lemma NoneQueued(id: int)
    ensures Queued([], id) == 0
  {
  }

  lemma {:induction false} TotalZero(f: seq<Hop>, v: Hop -> int)
    requires forall i {:trigger f[i]} :: 0 <= i < |f| ==> v(f[i]) == 0
    ensures Total(f, v) == 0
  {
    if |f| > 0 { TotalZero(f[..|f| - 1], v); }
  }

  lemma {:induction false} DataCopies(t: Tables, n: int, reply: Packet, ps: seq<Packet>, id: int)
    requires |reply.path| >= 2 && OnlyData(ps)
    ensures Total(Hops(n, DataSends(t, reply, ps)), Copied(id)) == Queued(ps, id)
  {
    if |ps| > 0 {
      var m := |ps| - 1;
      forall p {:trigger p in ps[..m]} | p in ps[..m]
        ensures p.kind == DATA
      {
        assert p in ps;
      }
      DataCopies(t, n, reply, ps[..m], id);
      var hs := Hops(n, DataSends(t, reply, ps));
      assert hs[..|hs| - 1] == Hops(n, DataSends(t, reply, ps[..m]));
      assert ps[m] in ps;
    }
  }

  // ---- what a step does to the number

  lemma WaitingNat(s: Net, id: int)
    ensures Sum(Waiting(s, id)) >= 0
  {
    hide Sum;
    SumNat(Waiting(s, id));
  }

  lemma CopiesNat(s: Net, id: int)
    ensures Copies(s, id) >= 0
  {
    hide Sum, Total;
    WaitingNat(s, id);
    TotalNat(s.flight, Copied(id));
  }

  lemma StartCopies(w: World, s: Net, n: int, dst: int, dataId: int, ids: seq<int>, id: int)
    requires n in w && |ids| == |w[n].ports| && n in s.waiting
    ensures Copies(Started(w, s, n, dst, dataId, ids), id) == Copies(s, id) + if id == dataId then 1 else 0
  {
    var s' := Started(w, s, n, dst, dataId, ids);
    var out := Requests(w[n], w[n].ports, dst, ids);
    var hs := Hops(n, out);
    forall i {:trigger hs[i]} | 0 <= i < |hs|
      ensures Copied(id)(hs[i]) == 0
    {
      RequestsAre(w[n], w[n].ports, dst, ids, out[i]);
    }
    TotalZero(hs, Copied(id));
    TotalSum(s.flight, hs, Copied(id));
    hide Sum, Total, Requests, Queued, Copied, Copy;
    var p := Packet(DATA, dataId, GetMyid(w[n].ids, 0), dst, []);
    QueuedSum(s.waiting[n], [p], id);
    QueuedOne(p, id);
    SumUpdate(Waiting(s, id), n, Queued(s.waiting[n] + [p], id));
    assert Waiting(s', id) == Waiting(s, id)[n := Queued(s.waiting[n] + [p], id)];
  }

  lemma ForwardCopies(n: int, out: seq<Send>, pkt: Packet, id: int)
    requires |out| <= 1 && forall i {:trigger out[i]} :: 0 <= i < |out| ==> out[i].pkt.id == pkt.id
    ensures Total(Hops(n, out), Copied(id)) <= if pkt.id == id then 1 else 0
  {
    if |out| == 1 {
      assert Hops(n, out) == [Hop(n, out[0].to, out[0].pkt)];
      TotalOne(Hop(n, out[0].to, out[0].pkt), Copied(id));
    }
  }

  lemma AnswerCopies(w: World, h: Hop, freshId: int, id: int)
    requires h.to in w && h.pkt.kind == RR
    ensures Total(Hops(h.to, AnswerRR(w[h.to], h.pkt, freshId)), Copied(id)) <= if id == freshId then 1 else 0
  {
    var t, out := w[h.to], AnswerRR(w[h.to], h.pkt, freshId);
    if IsMyid(t.ids, h.pkt.dst) {
      ForwardCopies(h.to, out, Packet(Rr, freshId, 0, 0, []), id);
    } else {
      var hs := Hops(h.to, out);
      forall i {:trigger hs[i]} | 0 <= i < |hs|
        ensures Copied(id)(hs[i]) == 0
      {
        FloodIs(t.ports, t.ids, h.pkt.path[|h.pkt.path| - 1], h.pkt, out[i]);
      }
      TotalZero(hs, Copied(id));
    }
  }

  // A reply that is not at its end, and data, go on alone.
  lemma PassedOn(w: World, s: Net, h: Hop, freshId: int)
    requires h.to in w && h.to in s.seen && h.to in s.waiting && h.pkt.kind != RR && !IsMyid(w[h.to].ids, h.pkt.dst)
    ensures var out := Reaction(w, s, h, freshId); |out| <= 1 && forall i {:trigger out[i]} :: 0 <= i < |out| ==> out[i].pkt.id == h.pkt.id
  {
  }

  lemma FlightCopies(w: World, s: Net, s': Net, k: int, freshId: int, id: int)
    requires IsDelivery(w, s, s', k, freshId)
    ensures Total(s'.flight, Copied(id)) ==
      Total(s.flight, Copied(id)) - Copy(s.flight[k], id) + Total(Hops(s.flight[k].to, Reaction(w, s, s.flight[k], freshId)), Copied(id))
  {
    hide Total, Reaction, Requesting, Releases, Exits;
    TotalSum(Without(s.flight, k), Hops(s.flight[k].to, Reaction(w, s, s.flight[k], freshId)), Copied(id));
    TotalWithout(s.flight, k, Copied(id));
  }

  lemma SameWaiting(w: World, s: Net, s': Net, k: int, freshId: int)
    requires IsDelivery(w, s, s', k, freshId) && !Releases(w, s, s.flight[k])
    ensures s'.waiting == s.waiting
  {
    hide Reaction, Requesting, Releases, Exits;
  }

  // No packet is doubled, an answer has the fresh id, and what is taken is gone.
  lemma DeliverCopies(w: World, s: Net, s': Net, k: int, freshId: int, id: int)
    requires Inv(w, s) && IsDelivery(w, s, s', k, freshId)
    ensures Copies(s', id) <= Copies(s, id) + if id == freshId && s.flight[k].pkt.kind == RR then 1 else 0
    ensures var h := s.flight[k];
      h.pkt.kind != RR && h.pkt.id == id && |Reaction(w, s, h, freshId)| == 0 ==> Copies(s', id) < Copies(s, id)
    ensures var h := s.flight[k]; h.pkt.kind != RR && h.pkt.id == id && IsMyid(w[h.to].ids, h.pkt.dst) ==> Copies(s', id) < Copies(s, id)
  {
    var h := s.flight[k];
    FlightCopies(w, s, s', k, freshId, id);
    var out := Reaction(w, s, h, freshId);
    if Releases(w, s, h) {
      ReleaseCopies(w, s, s', k, freshId, id);
    } else {
      SameWaiting(w, s, s', k, freshId);
      hide Inv, IsDelivery, Total, Sum, Queued, AnswerRR, ForwardRr, ForwardData, DataSends, Lookup;
      TotalNone(Copied(id));
      assert out == [] ==> Hops(h.to, out) == [];
      if h.pkt.kind == RR {
        if h.pkt.id !in s.seen[h.to] { AnswerCopies(w, h, freshId, id); }
      } else if !IsMyid(w[h.to].ids, h.pkt.dst) {
        PassedOn(w, s, h, freshId);
        ForwardCopies(h.to, out, h.pkt, id);
      }
    }
  }

  lemma ReleaseCopies(w: World, s: Net, s': Net, k: int, freshId: int, id: int)
    requires Inv(w, s) && IsDelivery(w, s, s', k, freshId) && Releases(w, s, s.flight[k])
    ensures Total(Hops(s.flight[k].to, Reaction(w, s, s.flight[k], freshId)), Copied(id)) + Sum(Waiting(s', id)) <= Sum(Waiting(s, id))
  {
    hide WorldOk, OnTrack, Sum, Total, Queued, Released, Remaining, Exits, Requesting, Lookup, IsMyid, DataSends, TablesKept, Copied;
    var h := s.flight[k];
    DataWaits(s, h);
    assert OnlyData(Data(s, h));
    DataCopies(w[h.to], h.to, h.pkt, Data(s, h), id);
    QueuedSplit(s.waiting[h.to], h.pkt.src, id);
    var left := Remaining(s.waiting[h.to], h.pkt.src);
    SumUpdate(Waiting(s, id), h.to, Queued(left, id));
    assert Waiting(s', id) == Waiting(s, id)[h.to := Queued(left, id)];
  }

  // ---- every run

  lemma {:induction false} SumZero(m: map<int, int>)
    requires forall k :: k in m ==> m[k] == 0
    ensures Sum(m) == 0
    decreases |m|
  {
    if k :| k in m {
      SumPick(m, k);
      SumZero(m - {k});
    }
  }

  lemma FirstSingle(w: World, s: Net)
    requires First(w, s)
    ensures Single(s)
  {
    hide Sum, WorldOk;
    forall id {:trigger Copies(s, id)}
      ensures Copies(s, id) == 0
    {
      SumZero(Waiting(s, id));
    }
  }

  lemma StepCopies(w: World, s: Net, s': Net, id: int)
    requires Inv(w, s) && Step(w, s, s') && Single(s)
    ensures 0 <= Copies(s', id) <= 1 && (id !in s'.used ==> Copies(s', id) == 0) && (id in s.used ==> Copies(s', id) <= Copies(s, id))
  {
    hide Inv, Copies;
    CopiesNat(s', id);
    assert Copies(s, id) <= 1;
    if n, dst, dataId, ids :| IsStart(w, s, s', n, dst, dataId, ids) {
      StartCopies(w, s, n, dst, dataId, ids, id);
    } else {
      var k, freshId :| IsDelivery(w, s, s', k, freshId);
      DeliverCopies(w, s, s', k, freshId, id);
      UsedMore(w, s, s', k, freshId);
      hide IsDelivery;
    }
  }

  lemma UsedMore(w: World, s: Net, s': Net, k: int, freshId: int)
    requires IsDelivery(w, s, s', k, freshId)
    ensures s'.used == s.used + {freshId} && freshId !in s.used
  {
    hide Reaction, Requesting, Releases, Exits;
  }

  lemma {:induction false} RunSingle(w: World, run: seq<Net>, i: int)
    requires Run(w, run) && 0 <= i < |run|
    ensures Single(run[i])
  {
    hide First, Step, Inv, Counted, Copies;
    if i == 0 {
      FirstSingle(w, run[0]);
    } else {
      RunSingle(w, run, i - 1);
      RunKeeps(w, run, i - 1);
      forall id {:trigger Copies(run[i], id)}
        ensures 0 <= Copies(run[i], id) <= 1 && (id !in run[i].used ==> Copies(run[i], id) == 0)
      {
        StepCopies(w, run[i - 1], run[i], id);
      }
    }
  }

  // What is gone does not come back.
  lemma {:induction false} GoneStays(w: World, run: seq<Net>, i: int, j: int, id: int)
    requires Run(w, run) && 0 <= i <= j < |run| && id in run[i].used && Copies(run[i], id) == 0
    ensures id in run[j].used && Copies(run[j], id) == 0
  {
    hide First, Inv, Counted, Copies, Step, Later;
    if i < j {
      GoneStays(w, run, i, j - 1, id);
      RunKeeps(w, run, j - 1);
      RunSingle(w, run, j - 1);
      assert Step(w, run[j - 1], run[j]);
      StepCopies(w, run[j - 1], run[j], id);
      StepLater(w, run[j - 1], run[j]);
      LaterUsed(run[j - 1], run[j]);
    }
  }

  lemma LaterUsed(s: Net, s': Net)
    requires Later(s, s')
    ensures s.used <= s'.used && s.down <= s'.down
  {
  }

  // A packet in flight is the only one with its id.
  lemma OnlyCopy(s: Net, k: int, j: int)
    requires Single(s) && 0 <= k < |s.flight| && 0 <= j < |s.flight|
    requires s.flight[k].pkt.kind != RR && s.flight[j].pkt.kind != RR && s.flight[k].pkt.id == s.flight[j].pkt.id
    ensures k == j && s.flight[k].pkt.id in s.used
  {
    var id := s.flight[k].pkt.id;
    hide Total, Sum;
    assert Copies(s, id) <= 1;
    WaitingNat(s, id);
    TotalWithout(s.flight, k, Copied(id));
    TotalNat(Without(s.flight, k), Copied(id));
    if k != j {
      var i := if j < k then j else j - 1;
      assert Without(s.flight, k)[i] == s.flight[j];
      TotalWithout(Without(s.flight, k), i, Copied(id));
      TotalNat(Without(Without(s.flight, k), i), Copied(id));
    }
  }

  lemma SomeCopy(s: Net, k: int)
    requires 0 <= k < |s.flight| && s.flight[k].pkt.kind != RR
    ensures Copies(s, s.flight[k].pkt.id) >= 1
  {
    var id := s.flight[k].pkt.id;
    hide Total, Sum;
    WaitingNat(s, id);
    TotalWithout(s.flight, k, Copied(id));
    TotalNat(Without(s.flight, k), Copied(id));
  }
}
