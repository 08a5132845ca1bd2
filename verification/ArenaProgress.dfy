/** When the threads of arena_get2 and of the fork handlers can wait for each other for ever, and when they cannot. */
module ArenaProgress {
  import opened Options
  import opened ArenaRing

  // ---- the deadlock

  // The thread v keeps list_lock while it waits for the mutex of a; u keeps that mutex and waits
  // for list_lock, or is v itself.
  ghost predicate Stuck(s: State, u: Thread, v: Thread, a: ArenaId) {
    && Of(s, v) == LockAt(a) && s.list == Some(v) && Owns(s, u, a)
    && (u == v || Of(s, u).Ask? || Of(s, u).Wait? || Of(s, u).Fork?)
  }

  lemma StuckBlocked(s: State, u: Thread, v: Thread, a: ArenaId, w: Thread, m: Move)
    requires Stuck(s, u, v, a) && (w == v || Of(s, w).Wait? || Of(s, w).Fork?)
    ensures Do(s, w, m) == None
  {
  }

  lemma StuckStays(s: State, ring: seq<ArenaId>, u: Thread, v: Thread, a: ArenaId, w: Thread, m: Move, s': State)
    requires Inv(s, ring) && Stuck(s, u, v, a) && Do(s, w, m) == Some(s')
    ensures Stuck(s', u, v, a)
  {
    if w == v || (w == u && !Of(s, u).Ask?) { StuckBlocked(s, u, v, a, w, m); }
    if w == u && w != v { AskWaits(s, u, v, a, m, s'); }
    hide Do, Inv;
    if w != u { StepFrames(s, ring, w, m, u); }
    if w != v { StepFrames(s, ring, w, m, v); }
  }

  lemma AskWaits(s: State, u: Thread, v: Thread, a: ArenaId, m: Move, s': State)
    requires Stuck(s, u, v, a) && u != v && Do(s, u, m) == Some(s')
    ensures Of(s', u).Wait? && s'.owner == s.owner
  {
  }

  lemma {:induction false} RunOn(t: Thread, first: seq<(Thread, Move)>, s: State, more: seq<(Thread, Move)>, s': State)
    requires Reached(t, first, s) && Run(s, more) == Some(s')
    ensures Reached(t, first + more, s')
  {
    hide Do;
    if |more| == 0 {
      assert first + more == first;
    } else {
      var n := |more| - 1;
      RunOn(t, first, s, more[..n], Run(s, more[..n]).value);
      assert (first + more)[..|first| + n] == first + more[..n];
    }
  }

  lemma {:induction false} StuckRun(t: Thread, first: seq<(Thread, Move)>, s: State, u: Thread, v: Thread, a: ArenaId, more: seq<(Thread, Move)>, s': State)
    requires Reached(t, first, s) && Stuck(s, u, v, a) && Run(s, more) == Some(s')
    ensures Stuck(s', u, v, a)
  {
    hide Stuck, Do;
    if |more| > 0 {
      var n := |more| - 1;
      var mid := Run(s, more[..n]).value;
      StuckRun(t, first, s, u, v, a, more[..n], mid);
      RunOn(t, first, s, more[..n], mid);
      var ring := RunKeeps(t, first + more[..n], mid);
      StuckStays(mid, ring, u, v, a, more[n].0, more[n].1, s');
    }
  }

  // Such a state is a deadlock, for any arena: in every continuation v keeps list_lock and cannot
  // move, and no thread that waits for list_lock, to fork or to get an arena, ever moves again.
  lemma StuckForEver(t: Thread, first: seq<(Thread, Move)>, s: State, u: Thread, v: Thread, a: ArenaId,
                     more: seq<(Thread, Move)>, s': State, w: Thread, m: Move)
    requires Reached(t, first, s) && Stuck(s, u, v, a) && Run(s, more) == Some(s')
    ensures Stuck(s', u, v, a)
    ensures w == v || Of(s', w).Wait? || Of(s', w).Fork? ==> Do(s', w, m) == None
  {
    hide Stuck, Do;
    StuckRun(t, first, s, u, v, a, more, s');
    if w == v || Of(s', w).Wait? || Of(s', w).Fork? { StuckBlocked(s', u, v, a, w, m); }
  }

  // public_mALLOc asks for another arena while it holds main_arena.mutex: with a fork at the same
  // time both threads wait for ever, whatever the others do.
  lemma MallocAgainstFork() returns (moves: seq<(Thread, Move)>, s: State)
    ensures Reached(0, moves, s) && Of(s, 0) == Wait(MAIN) && Stuck(s, 0, 1, MAIN)
    ensures forall more, s' {:trigger Run(s, more) == Some(s')} :: Run(s, more) == Some(s') ==> Stuck(s', 0, 1, MAIN)
  {
    var s0 := Boot(0);
    var s1 := Do(s0, 0, Direct).value;
    var s2 := Do(s1, 0, Go).value;
    var s3 := Do(s2, 0, FromMain).value;
    var s4 := Do(s3, 0, Go).value;
    var s5 := Do(s4, 0, Go).value;
    var s6 := Do(s5, 0, Go).value;
    var s7 := Do(s6, 1, LockAll).value;
    var s8 := Do(s7, 1, Go).value;
    s := Do(s8, 0, Go).value;
    moves := [(0, Direct), (0, Go), (0, FromMain), (0, Go), (0, Go), (0, Go), (1, LockAll), (1, Go), (0, Go)];
    assert Reached(0, moves, s) by {
      hide Do;
      assert Run(s0, moves[..0]) == Some(s0);
      var all := [s0, s1, s2, s3, s4, s5, s6, s7, s8, s];
      RunSteps(s0, moves, all, 9);
      assert moves[..9] == moves;
    }
    var st := s;
    forall more, s' {:trigger Run(st, more) == Some(s')} | Run(st, more) == Some(s')
      ensures Stuck(s', 0, 1, MAIN)
    {
      StuckRun(0, [(0, Direct), (0, Go), (0, FromMain), (0, Go), (0, Go), (0, Go), (1, LockAll), (1, Go), (0, Go)], st, 0, 1, MAIN, more, s');
    }
  }

  lemma {:induction false} RunSteps(s: State, moves: seq<(Thread, Move)>, all: seq<State>, n: nat)
    requires n <= |moves| && |all| == |moves| + 1 && all[0] == s
    requires forall i :: 0 <= i < n ==> Do(all[i], moves[i].0, moves[i].1) == Some(all[i + 1])
    ensures Run(s, moves[..n]) == Some(all[n])
  {
    hide Do;
    if n > 0 {
      RunSteps(s, moves, all, n - 1);
      assert moves[..n][..n - 1] == moves[..n - 1];
    }
  }


  // ---- the guard

  // No thread begins a fork, or the search for an arena, while it keeps the mutex of one.
  ghost predicate Calm(s: State, t: Thread, m: Move) {
    Of(s, t).Idle? && (m.FromTsd? || m.FromNull? || m.FromMain? || m.LockAll?) ==> forall a {:trigger Owns(s, t, a)} :: !Owns(s, t, a)
  }

  ghost predicate Calmly(s: State, moves: seq<(Thread, Move)>) {
    |moves| == 0 ||
    (var n := |moves| - 1; var r := Run(s, moves[..n]);
      Calmly(s, moves[..n]) && r != None && Calm(r.value, moves[n].0, moves[n].1))
  }

  ghost predicate CalmReached(t: Thread, moves: seq<(Thread, Move)>, s: State) { Reached(t, moves, s) && Calmly(Boot(t), moves) }

  ghost predicate OwnsNone(s: State, t: Thread) { forall a {:trigger Owns(s, t, a)} :: !Owns(s, t, a) }

  // A thread that looks for an arena, or waits, keeps no mutex; ptmalloc_lock_all keeps those it has come past.
  ghost predicate CalmPlace(s: State, ring: seq<ArenaId>, t: Thread) {
    match Of(s, t)
    case Idle => true
    case Back(_) => true
    case Link(_) => true
    case Publish(_) => true
    case Leave(_) => true
    case All => true
    case UnlockAt(_) => true
    case Release => true
    case LockAt(a) => forall x {:trigger Owns(s, t, x)} :: Owns(s, t, x) ==> x in ring && Index(ring, x) < Index(ring, a)
    case _ => OwnsNone(s, t)
  }

  ghost predicate CalmState(s: State, ring: seq<ArenaId>) {
    forall t {:trigger Of(s, t)} {:trigger CalmPlace(s, ring, t)} :: CalmPlace(s, ring, t)
  }

  lemma BeginCalm(s: State, ring: seq<ArenaId>, t: Thread, m: Move, s': State)
    requires Of(s, t) == Idle && Calm(s, t, m) && Begin(s, t, m) == Some(s')
    ensures CalmPlace(s', ring, t)
  {
    hide Index;
    assert forall a {:trigger Owns(s', t, a)} :: (m.FromTsd? || m.FromNull? || m.FromMain? || m.LockAll?) && Owns(s', t, a) ==> Owns(s, t, a);
  }

  lemma ScanCalm(s: State, ring: seq<ArenaId>, t: Thread, s': State)
    requires CalmPlace(s, ring, t) && Scan(s, t) == Some(s')
    ensures CalmPlace(s', ring, t)
  {
    hide Index;
    assert OwnsNone(s, t);
    assert s'.owner == s.owner ==> forall a {:trigger Owns(s', t, a)} :: Owns(s', t, a) ==> Owns(s, t, a);
  }

  lemma ForkingCalm(s: State, ring: seq<ArenaId>, t: Thread, m: Move, s': State)
    requires Cycle(s.next, ring) && PlaceOk(s, ring, t) && CalmPlace(s, ring, t) && Forking(s, t, m) == Some(s')
    ensures CalmPlace(s', ring, t)
  {
    hide Index, Cycle;
    if Of(s, t).Fork? {
      assert forall x {:trigger Owns(s', t, x)} :: Owns(s', t, x) ==> Owns(s, t, x);
    } else if Of(s, t).LockAt? && Of(s', t).LockAt? {
      var a := Of(s, t).a;
      Successor(s.next, ring, a);
      forall x {:trigger Owns(s', t, x)} | Owns(s', t, x)
        ensures x in ring && Index(ring, x) < Index(ring, s.next[a])
      {
        if x != a { assert Owns(s, t, x); }
      }
    }
  }

  lemma MoverCalm(s: State, ring: seq<ArenaId>, t: Thread, m: Move, s': State)
    requires Inv(s, ring) && CalmPlace(s, ring, t) && Calm(s, t, m) && Do(s, t, m) == Some(s') && |ring| > 0
    ensures CalmPlace(s', RingAfter(s, ring, t), t)
  {
    ThreadIs(s, ring, t);
    Linked(s, ring);
    hide Inv, Index, Cycle, PlaceOk, Begin, Scan, Forking, CalmPlace, Calm, ThreadOk;
    var p := Of(s, t);
    if p.Idle? {
      BeginCalm(s, ring, t, m, s');
    } else if p.Back? || InMake(p) {
      QuietCalm(s, ring, t, m, s');
    } else if InScan(p) {
      ScanCalm(s, ring, t, s');
    } else {
      ForkingCalm(s, ring, t, m, s');
    }
  }

  lemma QuietCalm(s: State, ring: seq<ArenaId>, t: Thread, m: Move, s': State)
    requires |ring| > 0 && (Of(s, t).Back? || InMake(Of(s, t))) && Do(s, t, m) == Some(s')
    ensures CalmPlace(s', RingAfter(s, ring, t), t)
  {
    hide Index, Begin, Scan, Forking;
  }

  lemma StepCalm(s: State, ring: seq<ArenaId>, t: Thread, m: Move, s': State)
    requires Inv(s, ring) && CalmState(s, ring) && Calm(s, t, m) && Do(s, t, m) == Some(s')
    ensures |ring| > 0 && CalmState(s', RingAfter(s, ring, t))
  {
    OneMember(s, ring);
    hide Inv, Do, Calm, CalmPlace, RingAfter;
    forall u {:trigger Of(s', u)} {:trigger CalmPlace(s', RingAfter(s, ring, t), u)}
      ensures CalmPlace(s', RingAfter(s, ring, t), u)
    {
      assert CalmPlace(s, ring, u) && CalmPlace(s, ring, t);
      if u == t {
        MoverCalm(s, ring, t, m, s');
      } else {
        OtherCalm(s, ring, t, m, s', u);
      }
    }
  }

  lemma OtherCalm(s: State, ring: seq<ArenaId>, t: Thread, m: Move, s': State, u: Thread)
    requires Inv(s, ring) && CalmPlace(s, ring, u) && Do(s, t, m) == Some(s') && u != t && |ring| > 0
    ensures CalmPlace(s', RingAfter(s, ring, t), u)
  {
    StepFrames(s, ring, t, m, u);
    ThreadIs(s, ring, t);
    ThreadIs(s, ring, u);
    hide Inv, Do, PlaceOk, Index, Owns;
    assert forall a {:trigger Owns(s', u, a)} :: Owns(s, u, a) <==> Owns(s', u, a);
  }

  lemma {:induction false} CalmRun(t: Thread, moves: seq<(Thread, Move)>, s: State) returns (ring: seq<ArenaId>)
    requires CalmReached(t, moves, s)
    ensures Inv(s, ring) && CalmState(s, ring)
  {
    hide Inv, Do, RingAfter, Calm, CalmState;
    if |moves| == 0 {
      BootOk(t);
      BootCalm(t);
      ring := [MAIN];
    } else {
      var n := |moves| - 1;
      var was := Run(Boot(t), moves[..n]).value;
      ring := CalmRun(t, moves[..n], was);
      StepKeeps(was, ring, moves[n].0, moves[n].1, s);
      StepCalm(was, ring, moves[n].0, moves[n].1, s);
      ring := RingAfter(was, ring, moves[n].0);
    }
  }

  lemma BootCalm(t: Thread)
    ensures CalmState(Boot(t), [MAIN])
  {
  }

  lemma CalmMore(t: Thread, moves: seq<(Thread, Move)>, s: State, u: Thread, m: Move, s': State)
    requires CalmReached(t, moves, s) && Calm(s, u, m) && Do(s, u, m) == Some(s')
    ensures CalmReached(t, moves + [(u, m)], s') && moves <= moves + [(u, m)]
  {
    hide Calm, Do, Boot;
    assert (moves + [(u, m)])[..|moves|] == moves;
  }

  // ---- list_lock comes back

  // How far the holder of list_lock, at p, is from giving it back.
  function Phase(p: Place): nat {
    match p
    case LockAt(_) => 7
    case All => 6
    case UnlockAt(_) => 5
    case Release => 4
    case Try(_, _, _, _) => 3
    case Next(_, _, _, _) => 3
    case Create => 2
    case Link(_) => 2
    case Publish(_) => 1
    case _ => 0
  }

  function Togo(ring: seq<ArenaId>, p: Place): nat {
    match p
    case LockAt(a) => |ring| - Index(ring, a)
    case UnlockAt(a) => |ring| - Index(ring, a)
    case Try(a, start, _, _) => 2 * Left(ring, a, start) + 1
    case Next(a, start, _, _) => 2 * Left(ring, a, start)
    case _ => 0
  }

  // The thread h waits for the mutex of a, which another thread keeps.
  ghost predicate Blocked(s: State, h: Thread) { Of(s, h).LockAt? && Of(s, h).a in s.owner }

  function Owner(s: State, h: Thread): nat {
    if Of(s, h).LockAt? && Of(s, h).a in s.owner then (if Of(s, s.owner[Of(s, h).a]).Back? then 2 else 1) else 0
  }

  // The keeper of the mutex that blocks h is between two calls, and can give it back.
  lemma KeeperFree(s: State, ring: seq<ArenaId>, h: Thread)
    requires Inv(s, ring) && CalmState(s, ring) && Blocked(s, h)
    ensures var o := s.owner[Of(s, h).a]; o != h && (Of(s, o).Idle? || Of(s, o).Back?)
  {
    var a := Of(s, h).a;
    var o := s.owner[a];
    assert Owns(s, o, a);
    assert CalmPlace(s, ring, h) && CalmPlace(s, ring, o);
    ThreadIs(s, ring, h);
    ThreadIs(s, ring, o);
    hide Inv, PlaceOk, Index;
    assert NeedsList(Of(s, h)) && s.list == Some(h);
    assert o != h;
    assert !NeedsList(Of(s, o));
  }

  // The keeper's next step leaves everybody else where they are.
  lemma KeeperMoves(s: State, ring: seq<ArenaId>, h: Thread) returns (m: Move, s': State)
    requires Inv(s, ring) && CalmState(s, ring) && Blocked(s, h)
    ensures var o := s.owner[Of(s, h).a];
      && o != h && Do(s, o, m) == Some(s') && Calm(s, o, m) && RingAfter(s, ring, o) == ring && s'.list == s.list
      && Owner(s', h) < Owner(s, h) && (Of(s, o).Idle? || Of(s, o).Back?)
  {
    hide Inv, CalmState, Do, Owner, RingAfter, Calm;
    KeeperFree(s, ring, h);
    OneMember(s, ring);
    m, s' := KeeperStep(s, ring, h, s.owner[Of(s, h).a]);
  }

  lemma KeeperStep(s: State, ring: seq<ArenaId>, h: Thread, o: Thread) returns (m: Move, s': State)
    requires |ring| > 0 && Blocked(s, h) && o == s.owner[Of(s, h).a] && o != h && (Of(s, o).Idle? || Of(s, o).Back?)
    ensures Do(s, o, m) == Some(s') && Calm(s, o, m) && RingAfter(s, ring, o) == ring && s'.list == s.list && Owner(s', h) < Owner(s, h)
  {
    hide Index, Scan, Make, Forking;
    m := if Of(s, o).Back? then Go else Drop(Of(s, h).a);
    s' := Do(s, o, m).value;
    assert Of(s', h) == Of(s, h);
  }

  ghost predicate Closer(s: State, s': State, ring: seq<ArenaId>, ring': seq<ArenaId>, h: Thread) {
    s'.list == None || (s'.list == Some(h) &&
      (Phase(Of(s', h)) < Phase(Of(s, h)) || (Phase(Of(s', h)) == Phase(Of(s, h)) && ring' == ring && 0 <= Togo(ring, Of(s', h)) < Togo(ring, Of(s, h)))))
  }

  function HolderMove(p: Place): Move { if p.Create? then NoMemory else if p.All? then UnlockAll else Go }

  // The holder of list_lock, when it is not blocked, comes closer to giving it back.
  lemma HolderMoves(s: State, ring: seq<ArenaId>, h: Thread) returns (s': State)
    requires Inv(s, ring) && s.list == Some(h) && !Blocked(s, h)
    ensures |ring| > 0 && Do(s, h, HolderMove(Of(s, h))) == Some(s') && Calm(s, h, HolderMove(Of(s, h)))
    ensures Closer(s, s', ring, RingAfter(s, ring, h), h)
  {
    OneMember(s, ring);
    ThreadIs(s, ring, h);
    Linked(s, ring);
    hide Inv, Index, Left, After, Cycle, Begin, Scan, Make, Forking;
    var p := Of(s, h);
    assert NeedsList(p);
    if InScan(p) {
      s' := ScanMoves(s, ring, h);
    } else if InMake(p) {
      s' := MakeMoves(s, ring, h);
    } else {
      s' := ForkMoves(s, ring, h);
    }
  }

  lemma ScanMoves(s: State, ring: seq<ArenaId>, h: Thread) returns (s': State)
    requires Inv(s, ring) && PlaceOk(s, ring, h) && s.list == Some(h) && (Of(s, h).Try? || Of(s, h).Next?) && Of(s, h).retried
    ensures |ring| > 0 && Scan(s, h) == Some(s') && Closer(s, s', ring, RingAfter(s, ring, h), h)
  {
    hide Inv, Index, Left, PlaceOk;
    OneMember(s, ring);
    TryNames(s, ring, h);
    var a, start := Of(s, h).a, Of(s, h).start;
    TryOk(s, ring, a, start);
    SomeLeft(ring, a, start);
    SomeLeft(ring, s.next[a], start);
    if Of(s, h).Try? {
      s' := TryMoves(s, ring, h);
    } else {
      s' := NextMoves(s, ring, h);
    }
  }

  lemma TryNames(s: State, ring: seq<ArenaId>, h: Thread)
    requires PlaceOk(s, ring, h) && (Of(s, h).Try? || Of(s, h).Next?)
    ensures Of(s, h).a in ring && Of(s, h).start in ring
  {
    hide Left;
  }

  lemma TryMoves(s: State, ring: seq<ArenaId>, h: Thread) returns (s': State)
    requires |ring| > 0 && s.list == Some(h) && Of(s, h).Try? && Of(s, h).retried && Left(ring, Of(s, h).a, Of(s, h).start) > 0
    ensures Scan(s, h) == Some(s') && Closer(s, s', ring, RingAfter(s, ring, h), h)
  {
    hide Left;
    s' := Scan(s, h).value;
  }

  lemma NextMoves(s: State, ring: seq<ArenaId>, h: Thread) returns (s': State)
    requires |ring| > 0 && s.list == Some(h) && Of(s, h).Next? && Of(s, h).retried && Of(s, h).a in s.next
    requires var next := s.next[Of(s, h).a];
      Left(ring, next, Of(s, h).start) > 0 && (next != Of(s, h).start ==> Left(ring, next, Of(s, h).start) == Left(ring, Of(s, h).a, Of(s, h).start) - 1)
    ensures Scan(s, h) == Some(s') && Closer(s, s', ring, RingAfter(s, ring, h), h)
  {
    hide Left;
    s' := Scan(s, h).value;
  }

  lemma MakeMoves(s: State, ring: seq<ArenaId>, h: Thread) returns (s': State)
    requires |ring| > 0 && MAIN in s.next && s.list == Some(h) && InMake(Of(s, h))
    ensures Make(s, h, HolderMove(Of(s, h))) == Some(s') && Closer(s, s', ring, RingAfter(s, ring, h), h)
  {
    s' := Make(s, h, HolderMove(Of(s, h))).value;
  }

  lemma ForkMoves(s: State, ring: seq<ArenaId>, h: Thread) returns (s': State)
    requires Cycle(s.next, ring) && PlaceOk(s, ring, h) && s.list == Some(h) && !Blocked(s, h)
    requires Of(s, h).LockAt? || Of(s, h).All? || Of(s, h).UnlockAt? || Of(s, h).Release?
    ensures Forking(s, h, HolderMove(Of(s, h))) == Some(s') && Closer(s, s', ring, ring, h)
  {
    hide Index, Cycle;
    if Of(s, h).LockAt? || Of(s, h).UnlockAt? { Successor(s.next, ring, Of(s, h).a); }
    s' := Forking(s, h, HolderMove(Of(s, h))).value;
  }

  // One step towards the release of list_lock, by its holder or by the one that blocks it. The
  // threads that wait stay where they are.
  lemma Nudge(s: State, ring: seq<ArenaId>, h: Thread) returns (o: Thread, m: Move, s': State)
    requires Inv(s, ring) && CalmState(s, ring) && s.list == Some(h)
    ensures Do(s, o, m) == Some(s') && Calm(s, o, m) && !Of(s, o).Wait? && !Of(s, o).Fork? && |ring| > 0
    ensures o == h ==> Closer(s, s', ring, RingAfter(s, ring, o), h)
    ensures o != h ==> Blocked(s, h) && s'.list == s.list && Of(s', h) == Of(s, h) && RingAfter(s, ring, o) == ring && Owner(s', h) < Owner(s, h)
  {
    hide Inv, CalmState, Do, Calm, Closer, RingAfter, Owner;
    OneMember(s, ring);
    if Blocked(s, h) {
      o := s.owner[Of(s, h).a];
      m, s' := KeeperMoves(s, ring, h);
      StepFrames(s, ring, o, m, h);
    } else {
      o, m := h, HolderMove(Of(s, h));
      s' := HolderMoves(s, ring, h);
      ThreadIs(s, ring, h);
    }
  }

  // Any run without the forbidden beginnings can go on, without them, until list_lock is free; the
  // threads that wait for it are still waiting then.
  lemma {:induction false} GivesBack(t: Thread, moves: seq<(Thread, Move)>, s: State, ring: seq<ArenaId>, h: Thread, u: Thread)
    returns (all: seq<(Thread, Move)>, s': State)
    requires CalmReached(t, moves, s) && Inv(s, ring) && CalmState(s, ring) && s.list == Some(h) && (Of(s, u).Wait? || Of(s, u).Fork?)
    ensures moves <= all && CalmReached(t, all, s') && s'.list == None && Of(s', u) == Of(s, u)
    decreases Phase(Of(s, h)), Togo(ring, Of(s, h)), Owner(s, h)
  {
    hide Inv, CalmState, CalmReached, Do, Calm, RingAfter, Owner, Phase, Togo;
    var o, m, mid := Nudge(s, ring, h);
    CalmMore(t, moves, s, o, m, mid);
    StepFrames(s, ring, o, m, u);
    if mid.list == None {
      all, s' := moves + [(o, m)], mid;
    } else {
      StepKeeps(s, ring, o, m, mid);
      StepCalm(s, ring, o, m, mid);
      all, s' := GivesBack(t, moves + [(o, m)], mid, RingAfter(s, ring, o), h, u);
    }
  }

  // The keeper of the mutex that a forking thread waits for gives it back.
  lemma {:induction false} KeeperGives(t: Thread, moves: seq<(Thread, Move)>, s: State, ring: seq<ArenaId>, u: Thread)
    returns (all: seq<(Thread, Move)>, s': State)
    requires CalmReached(t, moves, s) && Inv(s, ring) && CalmState(s, ring) && Of(s, u).LockAt?
    ensures moves <= all && CalmReached(t, all, s') && Of(s', u) == Of(s, u) && !Blocked(s', u) && s'.list == Some(u) && exists r :: Inv(s', r)
    decreases Owner(s, u)
  {
    hide Inv, CalmState, CalmReached, Do, Calm, RingAfter, Owner;
    ThreadIs(s, ring, u);
    if Blocked(s, u) {
      var o := s.owner[Of(s, u).a];
      var m, mid := KeeperMoves(s, ring, u);
      CalmMore(t, moves, s, o, m, mid);
      StepFrames(s, ring, o, m, u);
      StepKeeps(s, ring, o, m, mid);
      StepCalm(s, ring, o, m, mid);
      all, s' := KeeperGives(t, moves + [(o, m)], mid, ring, u);
    } else {
      all, s' := moves, s;
    }
  }

  lemma WaiterMoves(s: State, u: Thread)
    requires s.list == None && (Of(s, u).Wait? || Of(s, u).Fork?)
    ensures Do(s, u, Go) != None
  {
  }

  // When no thread begins a fork or the search for an arena while it keeps an arena's mutex, there
  // is no deadlock: from every state that is reached the run can go on, without such a beginning,
  // to one in which the thread that waits at u, for list_lock or for a mutex, moves.
  lemma NeverForEver(t: Thread, moves: seq<(Thread, Move)>, s: State, u: Thread) returns (all: seq<(Thread, Move)>, s': State)
    requires CalmReached(t, moves, s) && (Of(s, u).Wait? || Of(s, u).Fork? || Of(s, u).LockAt?)
    ensures moves <= all && CalmReached(t, all, s') && Of(s', u) == Of(s, u) && Do(s', u, Go) != None
  {
    hide Inv, CalmState, CalmReached, Do;
    var ring := CalmRun(t, moves, s);
    if Of(s, u).LockAt? {
      all, s' := KeeperGives(t, moves, s, ring, u);
      var r :| Inv(s', r);
      var _ := HolderMoves(s', r, u);
    } else if s.list == None {
      all, s' := moves, s;
      WaiterMoves(s', u);
    } else {
      all, s' := GivesBack(t, moves, s, ring, s.list.value, u);
      WaiterMoves(s', u);
    }
  }

  // In such a run the owner of the mutex that a fork waits for is always between two calls.
  lemma KeeperBetweenCalls(t: Thread, moves: seq<(Thread, Move)>, s: State, v: Thread)
    requires CalmReached(t, moves, s) && Blocked(s, v)
    ensures var o := s.owner[Of(s, v).a]; o != v && (Of(s, o).Idle? || Of(s, o).Back?)
  {
    hide Inv, CalmState, CalmReached;
    var ring := CalmRun(t, moves, s);
    KeeperFree(s, ring, v);
  }

  lemma CalmNotStuck(t: Thread, moves: seq<(Thread, Move)>, s: State, u: Thread, v: Thread, a: ArenaId)
    requires CalmReached(t, moves, s)
    ensures !Stuck(s, u, v, a)
  {
    hide CalmReached;
    if Blocked(s, v) { KeeperBetweenCalls(t, moves, s, v); }
  }

  // ---- a fork begun with a mutex in hand

  // On the way of ptmalloc_lock_all to the mutex of a, which the thread keeps already.
  ghost predicate Doomed(s: State, ring: seq<ArenaId>, t: Thread, a: ArenaId) {
    && a in ring && Owns(s, t, a)
    && (Of(s, t).Fork? || (Of(s, t).LockAt? && Of(s, t).a in ring && Index(ring, Of(s, t).a) <= Index(ring, a)))
  }

  lemma DoomedStep(s: State, ring: seq<ArenaId>, t: Thread, a: ArenaId, m: Move, s': State)
    requires Cycle(s.next, ring) && Doomed(s, ring, t, a) && Do(s, t, m) == Some(s')
    ensures Doomed(s', ring, t, a)
  {
    hide Index, Cycle, Begin, Scan, Make;
    RingDistinct(s.next, ring);
    FirstIndex(ring);
    if Of(s, t).LockAt? {
      var b := Of(s, t).a;
      Successor(s.next, ring, b);
      SameIndex(ring, a, b);
    }
  }

  lemma SameIndex(ring: seq<ArenaId>, a: ArenaId, b: ArenaId)
    requires a in ring && b in ring
    ensures Index(ring, a) < |ring| && (Index(ring, a) == Index(ring, b) ==> a == b)
  {
  }

  lemma DoomedStays(s: State, ring: seq<ArenaId>, t: Thread, a: ArenaId, w: Thread, m: Move, s': State)
    requires Inv(s, ring) && Doomed(s, ring, t, a) && Do(s, w, m) == Some(s')
    ensures |ring| > 0 && Doomed(s', RingAfter(s, ring, w), t, a)
  {
    OneMember(s, ring);
    Linked(s, ring);
    ThreadIs(s, ring, t);
    ThreadIs(s, ring, w);
    NewMembers(s, ring, w);
    hide Inv, Index, Cycle, Do, PlaceOk;
    if w == t {
      DoomedStep(s, ring, t, a, m, s');
    } else {
      StepFrames(s, ring, w, m, t);
      hide Framed;
      FramedIs(s, s', t, a);
    }
  }

  lemma FramedIs(s: State, s': State, u: Thread, a: ArenaId)
    requires Framed(s, s', u)
    ensures Of(s', u) == Of(s, u) && (Owns(s, u, a) <==> Owns(s', u, a))
  {
  }

  // A thread that begins a fork while it keeps the mutex of a published arena never comes out of
  // ptmalloc_lock_all, whatever the others do.
  lemma {:induction false} ForkNeverReturns(t: Thread, first: seq<(Thread, Move)>, s: State, u: Thread, a: ArenaId, more: seq<(Thread, Move)>, s': State)
    returns (ring: seq<ArenaId>)
    requires Reached(t, first, s) && Of(s, u) == Fork && Owns(s, u, a) && Run(s, more) == Some(s')
    ensures Inv(s', ring) && Doomed(s', ring, u, a) && !Of(s', u).All?
  {
    hide Inv, Do, RingAfter, Doomed, Reached;
    if |more| == 0 {
      ring := RunKeeps(t, first, s);
      ForkDoomed(s, ring, u, a);
    } else {
      var n := |more| - 1;
      var mid := Run(s, more[..n]).value;
      ring := ForkNeverReturns(t, first, s, u, a, more[..n], mid);
      StepKeeps(mid, ring, more[n].0, more[n].1, s');
      DoomedStays(mid, ring, u, a, more[n].0, more[n].1, s');
      ring := RingAfter(mid, ring, more[n].0);
    }
    NotAll(s', ring, u, a);
  }

  lemma NotAll(s: State, ring: seq<ArenaId>, u: Thread, a: ArenaId)
    requires Doomed(s, ring, u, a)
    ensures !Of(s, u).All?
  {
  }

  lemma ForkDoomed(s: State, ring: seq<ArenaId>, u: Thread, a: ArenaId)
    requires Inv(s, ring) && Of(s, u) == Fork && Owns(s, u, a)
    ensures Doomed(s, ring, u, a)
  {
    ThreadIs(s, ring, u);
    OutsideRing(s, ring);
    hide Inv, Index;
    assert a in s.owner;
    if a !in ring { MadeByOwner(s, ring, a); }
  }

  lemma MadeByOwner(s: State, ring: seq<ArenaId>, a: ArenaId)
    requires Inv(s, ring) && a in s.owner && a !in ring
    ensures s.list == Some(s.owner[a])
  {
    hide Cycle, ThreadOk, MadeByHolder;
  }

  // A thread that forks while it keeps main_arena.mutex waits for itself.
  lemma ForkAgainstItself() returns (moves: seq<(Thread, Move)>, s: State)
    ensures Reached(0, moves, s) && Stuck(s, 0, 0, MAIN)
  {
    var s0 := Boot(0);
    var s1 := Do(s0, 0, Hold(MAIN)).value;
    var s2 := Do(s1, 0, LockAll).value;
    s := Do(s2, 0, Go).value;
    moves := [(0, Hold(MAIN)), (0, LockAll), (0, Go)];
    var all := [s0, s1, s2, s];
    assert Reached(0, moves, s) by {
      hide Do;
      RunSteps(s0, moves, all, 3);
      assert moves[..3] == moves;
    }
  }
}
