/** The queue of packets that wait for a route, as linked cells. */
module DumpQueue {
  import opened DumpTables
  import opened DumpNode

  // A packet in memory; the queue compares packets by address.
  class Held {
    const pkt: Packet

    constructor (pkt: Packet)
      ensures this.pkt == pkt
    {
      this.pkt := pkt;
    }
  }

  class Cell {
    const held: Held
    var next: Cell?

    constructor (held: Held)
      ensures this.held == held && next == null
    {
      this.held := held;
      next := null;
    }
  }

  function Packets(cs: seq<Cell>): (q: seq<Packet>)
    ensures |q| == |cs| && forall i {:trigger q[i]} {:trigger cs[i]} :: 0 <= i < |cs| ==> q[i] == cs[i].held.pkt
  { seq(|cs|, i requires 0 <= i < |cs| => cs[i].held.pkt) }

  // The cells that are left when the loop has found place i.
  ghost function Fewer(cs: seq<Cell>, i: nat): seq<Cell>
    requires i < |cs|
  { if i <= 1 then cs[i + 1..] else cs[..i] + cs[i + 1..] }

  lemma FewerPackets(cs: seq<Cell>, i: nat)
    requires i < |cs|
    ensures Packets(Fewer(cs, i)) == Deleted(Packets(cs), i)
  {
  }

  class SendQueue {
    var head: Cell?
    ghost var cells: seq<Cell>

    ghost predicate Chained()
      reads this, cells
    {
      && head == At(0)
      && (forall i {:trigger cells[i].next} :: 0 <= i < |cells| ==> cells[i].next == At(i + 1))
    }

    // The cell at place i; null is the end.
    ghost function At(i: nat): Cell?
      reads this
    { if i < |cells| then cells[i] else null }

    ghost predicate Valid()
      reads this, cells
    {
      && Chained()
      && (forall i, j {:trigger cells[i], cells[j]} :: 0 <= i < j < |cells| ==> cells[i] != cells[j] && cells[i].held != cells[j].held)
    }

    ghost function Contents(): (q: seq<Packet>)
      reads this
      ensures |q| == |cells|
    { Packets(cells) }

    constructor ()
      ensures Valid() && cells == []
    {
      head, cells := null, [];
    }

    // dump_add_send_queue: to the end
    method Add(held: Held)
      requires Valid() && forall i :: 0 <= i < |cells| ==> cells[i].held != held
      modifies this, cells
      ensures Valid() && Contents() == old(Contents()) + [held.pkt] && fresh(set c | c in cells && c !in old(cells))
    {
      var cell := new Cell(held);
      var tmp := head;
      if tmp != null {
        ghost var i := 0;
        while tmp.next != null
          invariant 0 <= i < |cells| && tmp == cells[i] && Valid() && cells == old(cells)
          decreases |cells| - i
        {
          tmp := tmp.next;
          i := i + 1;
        }
        tmp.next := cell;
      } else {
        head := cell;
      }
      cells := cells + [cell];
      assert Contents() == old(Contents()) + [held.pkt];
    }

    // dump_lookup_send_queue: the first packet for dst
    method Lookup(dst: int) returns (held: Held?)
      requires Valid()
      ensures var i := FirstFor(Contents(), dst); if i < |cells| then held == cells[i].held else held == null
    {
      var tmp := head;
      ghost var i := 0;
      while tmp != null
        invariant 0 <= i <= |cells| && tmp == At(i)
        invariant forall j {:trigger cells[j]} :: 0 <= j < i ==> cells[j].held.pkt.dst != dst
        decreases |cells| - i
      {
        if tmp.held.pkt.dst == dst {
          FirstAt(Contents(), dst, i);
          return tmp.held;
        }
        tmp := tmp.next;
        i := i + 1;
      }
      FirstAt(Contents(), dst, i);
      held := null;
    }

    method Unhook(ghost i: nat, prev: Cell?, tmp: Cell)
      requires Valid() && i < |cells| && tmp == cells[i] && prev == At(if i == 0 then 0 else i - 1)
      modifies this, cells
      ensures Valid() && cells == Fewer(old(cells), i)
    {
      hide Packets;
      if prev == head {
        head := tmp.next;
        cells := cells[i + 1..];
      } else {
        prev.next := tmp.next;
        cells := cells[..i] + cells[i + 1..];
      }
    }

    // dump_del_send_queue: prev is one cell behind tmp, except at the start, where it is the head
    // too; this is what makes the second cell take the first one with it.
    method Delete(held: Held) returns (ghost i: nat)
      requires Valid()
      modifies this, cells
      ensures Valid() && i <= |old(cells)| && (forall j :: 0 <= j < i ==> old(cells)[j].held != held)
      ensures if i < |old(cells)| then old(cells)[i].held == held && Contents() == Deleted(old(Contents()), i) else Contents() == old(Contents())
    {
      var tmp, prev := head, head;
      i := 0;
      while tmp != null
        invariant i <= |cells| && tmp == At(i) && prev == At(if i == 0 then 0 else i - 1)
        invariant Valid() && cells == old(cells) && forall j :: 0 <= j < i ==> cells[j].held != held
        decreases |cells| - i
      {
        if tmp.held == held {
          Unhook(i, prev, tmp);
          FewerPackets(old(cells), i);
          return;
        }
        prev := tmp;
        tmp := tmp.next;
        i := i + 1;
      }
    }
  }

  lemma {:induction false} FirstAt(q: seq<Packet>, dst: int, i: int)
    requires 0 <= i <= |q| && (i < |q| ==> q[i].dst == dst) && forall j {:trigger q[j]} :: 0 <= j < i ==> q[j].dst != dst
    ensures FirstFor(q, dst) == i
  {
    var k := FirstFor(q, dst);
    assert k < |q| ==> q[k].dst == dst;
  }
}
