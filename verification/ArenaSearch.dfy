/** The search for an arena tries every arena there is before a new one is made. */
module ArenaSearch {
  import opened Options
  import opened ArenaRing

  // ---- what a thread has done since its scan began

  // tried: the arenas whose mutex it has found taken; base: those in the ring when the scan began.
  datatype Scanned = Scanned(tried: set<ArenaId>, base: set<ArenaId>)

  ghost function Members(ring: seq<ArenaId>): set<ArenaId> { set a | a in ring }

  // A step of the thread itself, from state s.
  ghost function OwnStep(s: State, ring: seq<ArenaId>, u: Thread, was: Scanned): Scanned {
    match Of(s, u)
    case Idle => Scanned({}, Members(ring))
    case Wait(_) => Scanned({}, Members(ring))
    case Try(a, _, _, _) => if a in s.owner then was.(tried := was.tried + {a}) else was
    case _ => was
  }

  ghost function RingOf(t: Thread, moves: seq<(Thread, Move)>): seq<ArenaId> {
    if |moves| == 0 then [MAIN]
    else
      var n := |moves| - 1;
      var before, ring := Run(Boot(t), moves[..n]), RingOf(t, moves[..n]);
      if before == None || |ring| == 0 then ring else RingAfter(before.value, ring, moves[n].0)
  }

  ghost function ScanOf(t: Thread, moves: seq<(Thread, Move)>, u: Thread): Scanned {
    if |moves| == 0 then Scanned({}, {MAIN})
    else
      var n := |moves| - 1;
      var before, was := Run(Boot(t), moves[..n]), ScanOf(t, moves[..n], u);
      if before == None || moves[n].0 != u then was else OwnStep(before.value, RingOf(t, moves[..n]), u, was)
  }

  // ---- what that is at each place of the scan

  // Arena x is done with when the scan, which began at start, is where left arenas are left: it has been found
  // taken, or is the one the thread had found taken before it began to search.
  ghost predicate DoneWith(ring: seq<ArenaId>, c: Scanned, x: ArenaId, start: ArenaId, retried: bool, left: int) {
    Left(ring, x, start) > left ==> x in c.tried || (x == start && !retried)
  }

  ghost predicate AllDone(ring: seq<ArenaId>, c: Scanned, start: ArenaId, retried: bool, left: int) {
    forall x {:trigger DoneWith(ring, c, x, start, retried, left)} :: x in c.base ==> DoneWith(ring, c, x, start, retried, left)
  }

  ghost predicate Complete(c: Scanned, start: ArenaId, retried: bool) {
    forall x {:trigger x in c.base} :: x in c.base ==> x in c.tried || (x == start && !retried)
  }

  ghost predicate OnePossiblyLeft(c: Scanned) { exists start :: Complete(c, start, false) }

  ghost predicate ScanKnown(s: State, ring: seq<ArenaId>, u: Thread, c: Scanned) {
    && c.base <= Members(ring)
    && match Of(s, u)
      case Try(a, start, retried, _) => AllDone(ring, c, start, retried, Left(ring, a, start))
      case Next(a, start, retried, _) => AllDone(ring, c, start, retried, Left(ring, a, start) - 1)
      case Ask(start) => Complete(c, start, false)
      case Create => OnePossiblyLeft(c)
      case _ => true
  }

  lemma LeftKept(ring: seq<ArenaId>, b: ArenaId, x: ArenaId, y: ArenaId, start: ArenaId)
    requires |ring| > 0 && Distinct(ring) && b !in ring && x in ring && y in ring && start in ring
    ensures var more := Inserted(ring, b); Left(more, x, start) > Left(more, y, start) <==> Left(ring, x, start) > Left(ring, y, start)
    ensures var more := Inserted(ring, b); Left(more, x, start) >= Left(more, y, start) <==> Left(ring, x, start) >= Left(ring, y, start)
  {
    hide Index, Inserted;
    InsertedIndex(ring, b, x);
    InsertedIndex(ring, b, y);
    InsertedIndex(ring, b, start);
    FirstIndex(ring);
  }

  lemma DoneKept(ring: seq<ArenaId>, b: ArenaId, c: Scanned, a: ArenaId, start: ArenaId, retried: bool, d: int)
    requires |ring| > 0 && Distinct(ring) && b !in ring && a in ring && start in ring && c.base <= Members(ring) && 0 <= d <= 1
    requires AllDone(ring, c, start, retried, Left(ring, a, start) - d)
    ensures AllDone(Inserted(ring, b), c, start, retried, Left(Inserted(ring, b), a, start) - d)
  {
    hide Left, Inserted, Distinct;
    var more := Inserted(ring, b);
    var was, left := Left(ring, a, start) - d, Left(more, a, start) - d;
    forall x {:trigger DoneWith(more, c, x, start, retried, left)} | x in c.base
      ensures DoneWith(more, c, x, start, retried, left)
    {
      LeftKept(ring, b, x, a, start);
      assert DoneWith(ring, c, x, start, retried, was);
    }
  }

  lemma MembersGrow(ring: seq<ArenaId>, b: ArenaId)
    requires |ring| > 0
    ensures Members(ring) <= Members(Inserted(ring, b))
  {
    var more := Inserted(ring, b);
    forall x | x in ring
      ensures x in more
    {
      var i :| 0 <= i < |ring| && ring[i] == x;
      assert more[if i == 0 then 0 else i + 1] == x;
    }
  }

  // A step of another thread.
  lemma OtherKnown(s: State, ring: seq<ArenaId>, v: Thread, m: Move, s': State, u: Thread, c: Scanned)
    requires Inv(s, ring) && |ring| > 0 && Do(s, v, m) == Some(s') && u != v && ScanKnown(s, ring, u, c)
    ensures ScanKnown(s', RingAfter(s, ring, v), u, c)
  {
    hide Inv, Do, Inserted, Left, Distinct, Index, AllDone, Complete, PlaceOk, ThreadOk, Members;
    StepFrames(s, ring, v, m, u);
    ThreadIs(s, ring, u);
    ScanPlaces(s, ring, u);
    PublisherIs(s, ring, v);
    RingDistinct(s.next, ring) by { Linked(s, ring); }
    if Of(s, v).Publish? {
      var b := Of(s, v).a;
      MembersGrow(ring, b);
      match Of(s, u)
      case Try(a, start, retried, _) => DoneKept(ring, b, c, a, start, retried, 0);
      case Next(a, start, retried, _) => DoneKept(ring, b, c, a, start, retried, 1);
      case _ =>
    }
  }

  lemma PublisherIs(s: State, ring: seq<ArenaId>, v: Thread)
    requires Inv(s, ring)
    ensures Of(s, v).Publish? ==> Of(s, v).a !in ring
  {
    ThreadIs(s, ring, v);
  }

  // ---- the steps of the scan itself

  lemma NothingAhead(ring: seq<ArenaId>, c: Scanned, a: ArenaId, start: ArenaId, retried: bool)
    requires start in ring && c.base <= Members(ring) && Left(ring, a, start) >= |ring|
    ensures AllDone(ring, c, start, retried, Left(ring, a, start))
  {
    forall x {:trigger DoneWith(ring, c, x, start, retried, Left(ring, a, start))} | x in c.base
      ensures DoneWith(ring, c, x, start, retried, Left(ring, a, start))
    {
      SomeLeft(ring, x, start);
    }
  }

  lemma SameLeft(ring: seq<ArenaId>, x: ArenaId, y: ArenaId, start: ArenaId)
    requires x in ring && y in ring && start in ring && Left(ring, x, start) == Left(ring, y, start)
    ensures x == y
  {
    hide Index;
  }

  // The scan has begun behind start.
  lemma OnlyStart(ring: seq<ArenaId>, c: Scanned, a: ArenaId, start: ArenaId)
    requires start in ring && c.base <= Members(ring) && Left(ring, a, start) >= |ring| - 1
    ensures AllDone(ring, c, start, false, Left(ring, a, start))
  {
    hide Left, Index;
    forall x {:trigger DoneWith(ring, c, x, start, false, Left(ring, a, start))} | x in c.base
      ensures DoneWith(ring, c, x, start, false, Left(ring, a, start))
    {
      SomeLeft(ring, x, start);
      SelfLeft(ring, start);
      if Left(ring, x, start) > Left(ring, a, start) { SameLeft(ring, x, start, start); }
    }
  }

  lemma OneMore(ring: seq<ArenaId>, c: Scanned, a: ArenaId, start: ArenaId, retried: bool)
    requires a in ring && start in ring && c.base <= Members(ring) && AllDone(ring, c, start, retried, Left(ring, a, start))
    ensures AllDone(ring, c.(tried := c.tried + {a}), start, retried, Left(ring, a, start) - 1)
  {
    hide Left, Index;
    var d := c.(tried := c.tried + {a});
    forall x {:trigger DoneWith(ring, d, x, start, retried, Left(ring, a, start) - 1)} | x in d.base
      ensures DoneWith(ring, d, x, start, retried, Left(ring, a, start) - 1)
    {
      assert DoneWith(ring, c, x, start, retried, Left(ring, a, start));
      if Left(ring, x, start) == Left(ring, a, start) { SameLeft(ring, x, a, start); }
    }
  }

  lemma RoundDone(ring: seq<ArenaId>, c: Scanned, start: ArenaId, retried: bool)
    requires start in ring && c.base <= Members(ring) && AllDone(ring, c, start, retried, 0)
    ensures Complete(c, start, retried) && OnePossiblyLeft(c)
  {
    hide Left;
    forall x {:trigger x in c.base} | x in c.base
      ensures x in c.tried || (x == start && !retried)
    {
      assert DoneWith(ring, c, x, start, retried, 0);
      SomeLeft(ring, x, start);
    }
    assert Complete(c, start, false);
  }

  // How far the next arena is from start.
  lemma NextLeft(s: State, ring: seq<ArenaId>, a: ArenaId, start: ArenaId)
    requires Inv(s, ring) && a in ring && start in ring
    ensures a in s.next && s.next[a] in ring
    ensures Left(ring, s.next[a], start) == if s.next[a] == start then |ring| else Left(ring, a, start) - 1
    ensures s.next[a] == start ==> Left(ring, a, start) == 1
  {
    hide Inv, Cycle, Index, Left, After;
    TryOk(s, ring, a, start);
    Linked(s, ring);
    if s.next[a] == start { LastLeft(s.next, ring, a); }
  }

  lemma LastLeft(next: map<ArenaId, ArenaId>, ring: seq<ArenaId>, a: ArenaId)
    requires Cycle(next, ring) && a in ring
    ensures a in next && Left(ring, a, next[a]) == 1
  {
    Successor(next, ring, a);
    hide Cycle, Index, After;
  }

  lemma BeginPlace(s: State, u: Thread, m: Move, s': State)
    requires Begin(s, u, m) == Some(s') && Of(s, u).Idle?
    ensures var p := Of(s', u); p.Back? || p.First? || p.Idle? || p.Fork? || p == Try(MAIN, MAIN, false, 0)
  {
  }

  lemma ScanPlace(s: State, u: Thread, s': State)
    requires Scan(s, u) == Some(s')
    ensures var p := Of(s', u);
      match Of(s, u)
      case First(start) => if start in s.next then p == Try(s.next[start], start, false, 0) else p == WaitMain
      case Try(a, start, retried, k) => if a in s.owner then p == Next(a, start, retried, k + 1) else p.Leave? || p.Back?
      case Next(a, start, retried, k) =>
        && a in s.next
        && if s.next[a] != start then p == Try(s.next[a], start, retried, k) else if retried then p == Create else p == Ask(start)
      case Ask(start) => p == Create || p == Wait(start)
      case Wait(start) => p == Try(start, start, true, 0)
      case _ => p.Back?
  {
  }

  lemma BeginKnown(s: State, ring: seq<ArenaId>, u: Thread, m: Move, s': State)
    requires Inv(s, ring) && Begin(s, u, m) == Some(s') && Of(s, u).Idle?
    ensures ScanKnown(s', ring, u, Scanned({}, Members(ring)))
  {
    hide Inv, Left, AllDone, Complete, OnePossiblyLeft, Begin, Of, Members, Index, Cycle;
    OneMember(s, ring);
    BeginPlace(s, u, m, s');
    SelfLeft(ring, MAIN);
    NothingAhead(ring, Scanned({}, Members(ring)), MAIN, MAIN, false);
  }

  lemma ScanStepKnown(s: State, ring: seq<ArenaId>, u: Thread, s': State, c: Scanned)
    requires Inv(s, ring) && |ring| > 0 && Scan(s, u) == Some(s') && ScanKnown(s, ring, u, c)
    ensures ScanKnown(s', ring, u, OwnStep(s, ring, u, c))
  {
    hide Scan, Inv, Left, AllDone, Complete, OnePossiblyLeft, PlaceOk, ThreadOk, Members, Of, Index, Cycle;
    ThreadIs(s, ring, u);
    ScanPlaces(s, ring, u);
    ScanPlace(s, u, s');
    match Of(s, u) {
      case First(start) =>
        NextLeft(s, ring, start, start);
        SelfLeft(ring, start);
        OnlyStart(ring, c, s.next[start], start);
      case Try(a, start, retried, _) =>
        if a in s.owner { OneMore(ring, c, a, start, retried); }
      case Next(a, start, retried, _) =>
        NextLeft(s, ring, a, start);
        if s.next[a] == start { RoundDone(ring, c, start, retried); }
      case Ask(start) =>
        AskKnown(c, start);
      case Wait(start) =>
        SelfLeft(ring, start);
        NothingAhead(ring, Scanned({}, Members(ring)), start, start, true);
      case _ =>
    }
  }

  lemma ScanPlaces(s: State, ring: seq<ArenaId>, u: Thread)
    requires ThreadOk(s, ring, u)
    ensures match Of(s, u)
      case Try(a, start, _, _) => a in ring && start in ring
      case Next(a, start, _, _) => a in ring && start in ring
      case First(start) => start in ring
      case Ask(start) => start in ring
      case Wait(start) => start in ring
      case WaitMain => false
      case _ => true
  {
  }

  lemma AskKnown(c: Scanned, start: ArenaId)
    requires Complete(c, start, false)
    ensures OnePossiblyLeft(c)
  {
  }

  lemma OwnKnown(s: State, ring: seq<ArenaId>, u: Thread, m: Move, s': State, c: Scanned)
    requires Inv(s, ring) && |ring| > 0 && Do(s, u, m) == Some(s') && ScanKnown(s, ring, u, c)
    ensures ScanKnown(s', RingAfter(s, ring, u), u, OwnStep(s, ring, u, c))
  {
    hide Begin, Scan, Make, Forking, Inv, ScanKnown, OwnStep;
    var p := Of(s, u);
    if p.Idle? {
      BeginKnown(s, ring, u, m, s');
      assert OwnStep(s, ring, u, c) == Scanned({}, Members(ring)) by { IdleStep(s, ring, u, c); }
    } else if p.Back? {
      BackKnown(s, ring, u, c);
    } else if InScan(p) {
      ScanStepKnown(s, ring, u, s', c);
    } else if InMake(p) {
      MakeKnown(s, ring, u, m, s', c);
    } else {
      ForkKnown(s, ring, u, m, s', c);
    }
  }

  lemma IdleStep(s: State, ring: seq<ArenaId>, u: Thread, c: Scanned)
    requires Of(s, u).Idle?
    ensures OwnStep(s, ring, u, c) == Scanned({}, Members(ring))
  {
  }

  lemma BackKnown(s: State, ring: seq<ArenaId>, u: Thread, c: Scanned)
    requires Of(s, u).Back? && ScanKnown(s, ring, u, c)
    ensures ScanKnown(At(s, u, Idle), ring, u, OwnStep(s, ring, u, c))
  {
  }

  lemma MakeKnown(s: State, ring: seq<ArenaId>, u: Thread, m: Move, s': State, c: Scanned)
    requires |ring| > 0 && Make(s, u, m) == Some(s') && ScanKnown(s, ring, u, c)
    ensures ScanKnown(s', RingAfter(s, ring, u), u, OwnStep(s, ring, u, c))
  {
    if Of(s, u).Publish? { MembersGrow(ring, Of(s, u).a); }
    hide Members, Inserted;
  }

  lemma ForkKnown(s: State, ring: seq<ArenaId>, u: Thread, m: Move, s': State, c: Scanned)
    requires |ring| > 0 && Forking(s, u, m) == Some(s') && ScanKnown(s, ring, u, c)
    ensures ScanKnown(s', RingAfter(s, ring, u), u, OwnStep(s, ring, u, c))
  {
    hide Members, Inserted;
  }

  // ---- every run

  lemma {:induction false} RunKnown(t: Thread, moves: seq<(Thread, Move)>, s: State, u: Thread)
    requires Reached(t, moves, s)
    ensures Inv(s, RingOf(t, moves)) && ScanKnown(s, RingOf(t, moves), u, ScanOf(t, moves, u))
  {
    hide Inv, Do, Boot, RingAfter, OwnStep, ScanKnown;
    if |moves| == 0 {
      BootOk(t);
      BootKnown(t, u);
    } else {
      var n := |moves| - 1;
      var was, ring, c := Run(Boot(t), moves[..n]).value, RingOf(t, moves[..n]), ScanOf(t, moves[..n], u);
      RunKnown(t, moves[..n], was, u);
      OneMember(was, ring);
      StepKeeps(was, ring, moves[n].0, moves[n].1, s);
      if moves[n].0 == u { OwnKnown(was, ring, u, moves[n].1, s, c); } else { OtherKnown(was, ring, moves[n].0, moves[n].1, s, u, c); }
    }
  }

  lemma BootKnown(t: Thread, u: Thread)
    ensures ScanKnown(Boot(t), [MAIN], u, Scanned({}, {MAIN}))
  {
    assert Of(Boot(t), u) == Idle;
  }

  // A thread that asks for list_lock, or comes to make a new arena, has found the mutex of every arena
  // taken that was in the ring when it began to search, but for the one it had tried before.
  lemma TriesAll(t: Thread, moves: seq<(Thread, Move)>, s: State, u: Thread)
    requires Reached(t, moves, s)
    ensures Of(s, u).Ask? ==> Complete(ScanOf(t, moves, u), Of(s, u).start, false)
    ensures Of(s, u).Create? ==> OnePossiblyLeft(ScanOf(t, moves, u))
    ensures var ring, p := RingOf(t, moves), Of(s, u);
      p.Try? ==> AllDone(ring, ScanOf(t, moves, u), p.start, p.retried, Left(ring, p.a, p.start))
  {
    hide Inv, Reached, AllDone, Complete, OnePossiblyLeft;
    RunKnown(t, moves, s, u);
  }

  // A thread that wants an arena has one way open: it takes the one it remembers if its mutex is free, searches on
  // from there if it is taken, and from main_arena if it remembers none.
  lemma OneWayOpen(s: State, u: Thread)
    requires Of(s, u).Idle?
    ensures var direct, on, first := Do(s, u, Direct), Do(s, u, FromTsd), Do(s, u, FromNull);
      if u !in s.tsd then direct == on == None && first != None
      else if s.tsd[u] in s.owner then direct == first == None && on != None
      else on == first == None && direct != None && Of(direct.value, u) == Back(Some(s.tsd[u])) && Owns(direct.value, u, s.tsd[u])
  {
  }

  // The ring is searched for a second time exactly when list_lock is taken; otherwise a new arena is made at once.
  lemma SecondRound(s: State, u: Thread, s': State)
    requires Of(s, u).Ask? && Do(s, u, Go) == Some(s')
    ensures if s.list == None then Of(s', u).Create? && s'.list == Some(u) else Of(s', u) == Wait(Of(s, u).start) && s'.list == s.list
  {
  }
}
