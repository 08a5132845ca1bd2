/** A search or a fork begun with an arena's mutex in hand can always end in the deadlock. */
module ArenaDeadlock {
  import opened Options
  import opened ArenaRing
  import opened ArenaProgress

  // A thread that is on its way to list_lock, without it, and has not got an arena.
  predicate OnTheWay(p: Place) {
    p.First? || (p.Try? && !p.retried) || (p.Next? && !p.retried) || p.Ask? || p.Wait? || p.Fork?
  }

  predicate Searching(p: Place) { p.First? || (p.Try? && !p.retried) || (p.Next? && !p.retried) || p.Ask? }

  lemma ReachedMore(t: Thread, moves: seq<(Thread, Move)>, s: State, u: Thread, m: Move, s': State)
    requires Reached(t, moves, s) && Do(s, u, m) == Some(s')
    ensures Reached(t, moves + [(u, m)], s') && moves <= moves + [(u, m)]
  {
    hide Do, Boot;
    assert (moves + [(u, m)])[..|moves|] == moves;
  }

  // ---- a thread that has done nothing yet

  lemma {:induction false} Above(ns: set<nat>) returns (b: nat)
    ensures forall n :: n in ns ==> n < b
    decreases |ns|
  {
    if n :| n in ns {
      var c := Above(ns - {n});
      b := if n < c then c else n + 1;
      assert ns == ns - {n} + {n};
    } else {
      b := 0;
    }
  }

  ghost predicate Newcomer(s: State, w: Thread) {
    w !in s.place && s.list != Some(w) && forall a {:trigger Owns(s, w, a)} :: !Owns(s, w, a)
  }

  lemma SomeNewcomer(s: State, ring: seq<ArenaId>, t: Thread) returns (w: Thread)
    requires Inv(s, ring)
    ensures Newcomer(s, w) && w != t
  {
    w := Above(s.place.Keys + s.owner.Values + {t});
    ThreadIs(s, ring, w);
    hide Inv, PlaceOk;
    assert Of(s, w) == Idle;
    forall a {:trigger Owns(s, w, a)}
      ensures !Owns(s, w, a)
    {
      if a in s.owner { assert s.owner[a] in s.owner.Values; }
    }
  }

  // ---- every mutex is taken

  ghost predicate AllTaken(s: State, ring: seq<ArenaId>) { forall i {:trigger ring[i]} :: 0 <= i < |ring| ==> ring[i] in s.owner }

  // s' is s with more mutexes taken.
  ghost predicate OnlyTaken(s: State, s': State) {
    && s'.next == s.next && s'.place == s.place && s'.list == s.list && s'.tsd == s.tsd
    && forall a {:trigger a in s'.owner} :: a in s.owner ==> a in s'.owner && s'.owner[a] == s.owner[a]
  }

  lemma {:induction false} Fill(t: Thread, moves: seq<(Thread, Move)>, s: State, ring: seq<ArenaId>, w: Thread, i: nat)
    returns (all: seq<(Thread, Move)>, s': State)
    requires Reached(t, moves, s) && Inv(s, ring) && w !in s.place && i <= |ring|
    requires forall j {:trigger ring[j]} :: 0 <= j < i ==> ring[j] in s.owner
    ensures moves <= all && Reached(t, all, s') && Inv(s', ring) && OnlyTaken(s, s') && AllTaken(s', ring)
    decreases |ring| - i
  {
    hide Inv, Reached;
    if i == |ring| {
      all, s' := moves, s;
    } else if ring[i] in s.owner {
      all, s' := Fill(t, moves, s, ring, w, i + 1);
    } else {
      InNext(s, ring, ring[i]);
      OneMember(s, ring);
      var mid := Do(s, w, Hold(ring[i])).value;
      ReachedMore(t, moves, s, w, Hold(ring[i]), mid);
      StepKeeps(s, ring, w, Hold(ring[i]), mid);
      all, s' := Fill(t, moves + [(w, Hold(ring[i]))], mid, ring, w, i + 1);
    }
  }

  // ---- a search that finds nothing free comes to list_lock

  // s' is s but for the place of o.
  ghost predicate OnlyMoved(s: State, s': State, o: Thread) {
    s'.next == s.next && s'.owner == s.owner && s'.list == s.list && forall u {:trigger Of(s', u)} :: u != o ==> Of(s', u) == Of(s, u)
  }

  function Distance(ring: seq<ArenaId>, p: Place): nat {
    match p
    case First(_) => 2 * |ring| + 2
    case Try(a, start, _, _) => 2 * Left(ring, a, start) + 1
    case Next(a, start, _, _) => 2 * Left(ring, a, start)
    case _ => 0
  }

  ghost predicate Nearer(s: State, s': State, ring: seq<ArenaId>, o: Thread) {
    && OnlyMoved(s, s', o) && Searching(Of(s', o))
    && (Of(s', o).Ask? || Distance(ring, Of(s', o)) < Distance(ring, Of(s, o)))
  }

  lemma SearchStep(s: State, ring: seq<ArenaId>, o: Thread) returns (s': State)
    requires Inv(s, ring) && AllTaken(s, ring) && Searching(Of(s, o)) && !Of(s, o).Ask?
    ensures |ring| > 0 && Do(s, o, Go) == Some(s') && RingAfter(s, ring, o) == ring && Nearer(s, s', ring, o)
  {
    OneMember(s, ring);
    ThreadIs(s, ring, o);
    hide Inv, Index, Left, PlaceOk, Scan, Make, Forking, Begin, Nearer;
    SearchNames(s, ring, o);
    match Of(s, o)
    case First(start) =>
      TryOk(s, ring, start, start);
      SomeLeft(ring, s.next[start], start);
      s' := FirstStep(s, ring, o);
    case Try(a, start, _, _) =>
      TakenAt(s, ring, a);
      s' := TryStep(s, ring, o);
    case Next(a, start, _, _) =>
      TryOk(s, ring, a, start);
      s' := NextStep(s, ring, o);
  }

  lemma FirstStep(s: State, ring: seq<ArenaId>, o: Thread) returns (s': State)
    requires Of(s, o).First? && Of(s, o).start in s.next && Left(ring, s.next[Of(s, o).start], Of(s, o).start) <= |ring|
    ensures Scan(s, o) == Some(s') && Nearer(s, s', ring, o)
  {
    hide Left;
    s' := Scan(s, o).value;
  }

  lemma TryStep(s: State, ring: seq<ArenaId>, o: Thread) returns (s': State)
    requires Of(s, o).Try? && !Of(s, o).retried && Of(s, o).a in s.owner
    ensures Scan(s, o) == Some(s') && Nearer(s, s', ring, o)
  {
    hide Left;
    s' := Scan(s, o).value;
  }

  lemma NextStep(s: State, ring: seq<ArenaId>, o: Thread) returns (s': State)
    requires Of(s, o).Next? && !Of(s, o).retried && Of(s, o).a in s.next
    requires var n := s.next[Of(s, o).a]; n != Of(s, o).start ==> Left(ring, n, Of(s, o).start) == Left(ring, Of(s, o).a, Of(s, o).start) - 1
    ensures Scan(s, o) == Some(s') && Nearer(s, s', ring, o)
  {
    hide Left;
    s' := Scan(s, o).value;
  }

  lemma TakenAt(s: State, ring: seq<ArenaId>, a: ArenaId)
    requires AllTaken(s, ring) && a in ring
    ensures a in s.owner
  {
  }

  lemma SearchNames(s: State, ring: seq<ArenaId>, o: Thread)
    requires PlaceOk(s, ring, o) && Searching(Of(s, o))
    ensures Of(s, o).start in ring && (Of(s, o).Try? || Of(s, o).Next? ==> Of(s, o).a in ring)
  {
    hide Left;
  }

  lemma {:induction false} ComesToAsk(t: Thread, moves: seq<(Thread, Move)>, s: State, ring: seq<ArenaId>, o: Thread)
    returns (all: seq<(Thread, Move)>, s': State)
    requires Reached(t, moves, s) && Inv(s, ring) && AllTaken(s, ring) && Searching(Of(s, o))
    ensures moves <= all && Reached(t, all, s') && OnlyMoved(s, s', o) && Of(s', o).Ask?
    decreases Distance(ring, Of(s, o)), !Of(s, o).Ask?
  {
    hide Inv, Reached, Do, Distance, RingAfter;
    if Of(s, o).Ask? {
      all, s' := moves, s;
    } else {
      var mid := SearchStep(s, ring, o);
      ReachedMore(t, moves, s, o, Go, mid);
      StepKeeps(s, ring, o, Go, mid);
      assert AllTaken(mid, ring);
      if Of(mid, o).Ask? {
        all, s' := moves + [(o, Go)], mid;
      } else {
        all, s' := ComesToAsk(t, moves + [(o, Go)], mid, ring, o);
      }
    }
  }

  // ---- the thread that is searched out

  // The fork of h waits for the mutex of an arena that o keeps, on its way to list_lock.
  lemma Corner(t: Thread, moves: seq<(Thread, Move)>, s: State, ring: seq<ArenaId>, h: Thread, o: Thread)
    returns (all: seq<(Thread, Move)>, s': State)
    requires Reached(t, moves, s) && Inv(s, ring) && Of(s, h).LockAt? && Owns(s, o, Of(s, h).a) && (o == h || OnTheWay(Of(s, o)))
    ensures moves <= all && Reached(t, all, s') && Stuck(s', o, h, Of(s, h).a)
  {
    hide Inv, Reached, PlaceOk;
    ThreadIs(s, ring, h);
    if o == h || Of(s, o).Ask? || Of(s, o).Wait? || Of(s, o).Fork? {
      all, s' := moves, s;
    } else {
      var w := SomeNewcomer(s, ring, t);
      var filled, s1 := Fill(t, moves, s, ring, w, 0);
      SamePlaces(s, s1, h, o);
      all, s' := ComesToAsk(t, filled, s1, ring, o);
      MovedOnly(s1, s', o, h);
    }
  }

  lemma SamePlaces(s: State, s': State, h: Thread, o: Thread)
    requires OnlyTaken(s, s')
    ensures Of(s', h) == Of(s, h) && Of(s', o) == Of(s, o) && s'.list == s.list && forall a {:trigger Owns(s', o, a)} :: Owns(s, o, a) ==> Owns(s', o, a)
  {
  }

  lemma MovedOnly(s: State, s': State, o: Thread, h: Thread)
    requires OnlyMoved(s, s', o) && h != o
    ensures Of(s', h) == Of(s, h) && s'.list == s.list && forall a {:trigger Owns(s', o, a)} :: Owns(s, o, a) ==> Owns(s', o, a)
  {
  }

  // Where the keeper of a mutex can be when another thread has list_lock.
  lemma KeeperPlaces(s: State, ring: seq<ArenaId>, h: Thread, o: Thread)
    requires Inv(s, ring) && s.list == Some(h) && o != h
    ensures OnTheWay(Of(s, o)) || Of(s, o).Idle? || Of(s, o).Back?
  {
    ThreadIs(s, ring, o);
    hide Inv, Index, Left, After;
  }

  // Nobody else's step changes what is said of u.
  lemma StillOnTheWay(s: State, ring: seq<ArenaId>, w: Thread, m: Move, s': State, u: Thread, x: ArenaId)
    requires Inv(s, ring) && Do(s, w, m) == Some(s') && u != w && OnTheWay(Of(s, u)) && Owns(s, u, x)
    ensures OnTheWay(Of(s', u)) && Of(s', u) == Of(s, u) && Owns(s', u, x)
  {
    hide Inv, Do;
    StepFrames(s, ring, w, m, u);
    FramedIs(s, s', u, x);
  }

  // A fork that has not come past the mutex of x, which u keeps on its way to list_lock, never does.
  lemma {:induction false} LockGetsStuck(t: Thread, moves: seq<(Thread, Move)>, s: State, ring: seq<ArenaId>, h: Thread, u: Thread, x: ArenaId)
    returns (all: seq<(Thread, Move)>, s': State, o: Thread, b: ArenaId)
    requires Reached(t, moves, s) && Inv(s, ring) && u != h && OnTheWay(Of(s, u)) && Owns(s, u, x) && x in ring
    requires Of(s, h).LockAt? && Of(s, h).a in ring && Index(ring, Of(s, h).a) <= Index(ring, x)
    ensures moves <= all && Reached(t, all, s') && Stuck(s', o, h, b)
    decreases |ring| - Index(ring, Of(s, h).a), Owner(s, h)
  {
    hide Inv, Reached, Do, PlaceOk, Index, Owner, Stuck, Calm;
    var a := Of(s, h).a;
    ThreadIs(s, ring, h);
    OneMember(s, ring);
    if Blocked(s, h) {
      o, b := s.owner[a], a;
      if o == h || OnTheWay(Of(s, o)) {
        all, s' := Corner(t, moves, s, ring, h, o);
      } else {
        KeeperPlaces(s, ring, h, o);
        var m, mid := KeeperStep(s, ring, h, o);
        ReachedMore(t, moves, s, o, m, mid);
        StepKeeps(s, ring, o, m, mid);
        StillOnTheWay(s, ring, o, m, mid, u, x);
        StepFrames(s, ring, o, m, h);
        all, s', o, b := LockGetsStuck(t, moves + [(o, m)], mid, ring, h, u, x);
      }
    } else {
      var mid := LockStep(s, ring, h, x);
      ReachedMore(t, moves, s, h, Go, mid);
      StepKeeps(s, ring, h, Go, mid);
      StillOnTheWay(s, ring, h, Go, mid, u, x);
      all, s', o, b := LockGetsStuck(t, moves + [(h, Go)], mid, ring, h, u, x);
    }
  }

  lemma LockStep(s: State, ring: seq<ArenaId>, h: Thread, x: ArenaId) returns (s': State)
    requires Inv(s, ring) && Of(s, h).LockAt? && Of(s, h).a in ring && x in ring && Index(ring, Of(s, h).a) <= Index(ring, x)
    requires !Blocked(s, h) && x in s.owner
    ensures |ring| > 0 && Do(s, h, Go) == Some(s') && RingAfter(s, ring, h) == ring
    ensures Of(s', h).LockAt? && Of(s', h).a in ring && Index(ring, Of(s, h).a) < Index(ring, Of(s', h).a) <= Index(ring, x)
  {
    OneMember(s, ring);
    Linked(s, ring);
    var a := Of(s, h).a;
    Successor(s.next, ring, a);
    SameIndex(ring, x, a);
    hide Inv, Index, Cycle, Begin, Scan, Make;
    s' := Do(s, h, Go).value;
  }

  // ---- list_lock comes back, or the deadlock is there

  lemma {:induction false} ReleaseOrStuck(t: Thread, moves: seq<(Thread, Move)>, s: State, ring: seq<ArenaId>, h: Thread, u: Thread, x: ArenaId)
    returns (all: seq<(Thread, Move)>, s': State, o: Thread, b: ArenaId)
    requires Reached(t, moves, s) && Inv(s, ring) && s.list == Some(h) && u != h && OnTheWay(Of(s, u)) && Owns(s, u, x)
    ensures moves <= all && Reached(t, all, s')
    ensures Stuck(s', o, h, b) || (s'.list == None && OnTheWay(Of(s', u)) && Owns(s', u, x))
    decreases Phase(Of(s, h)), Togo(ring, Of(s, h)), Owner(s, h)
  {
    hide Inv, Reached, Do, PlaceOk, RingAfter, Owner, Stuck, Calm, Phase, Togo;
    o, b := u, x;
    OneMember(s, ring);
    if Blocked(s, h) {
      o, b := s.owner[Of(s, h).a], Of(s, h).a;
      if o == h || OnTheWay(Of(s, o)) {
        all, s' := Corner(t, moves, s, ring, h, o);
      } else {
        KeeperPlaces(s, ring, h, o);
        var m, mid := KeeperStep(s, ring, h, o);
        ReachedMore(t, moves, s, o, m, mid);
        StepKeeps(s, ring, o, m, mid);
        StillOnTheWay(s, ring, o, m, mid, u, x);
        StepFrames(s, ring, o, m, h);
        all, s', o, b := ReleaseOrStuck(t, moves + [(o, m)], mid, ring, h, u, x);
      }
    } else {
      var mid := HolderMoves(s, ring, h);
      var m := HolderMove(Of(s, h));
      ReachedMore(t, moves, s, h, m, mid);
      StepKeeps(s, ring, h, m, mid);
      StillOnTheWay(s, ring, h, m, mid, u, x);
      if mid.list == None {
        all, s' := moves + [(h, m)], mid;
      } else {
        all, s', o, b := ReleaseOrStuck(t, moves + [(h, m)], mid, RingAfter(s, ring, h), h, u, x);
      }
    }
  }

  // ---- the converse of the guard

  // A thread that is on its way to list_lock and keeps the mutex of an arena: some continuation ends
  // in the deadlock.
  lemma CanDeadlock(t: Thread, moves: seq<(Thread, Move)>, s: State, u: Thread, x: ArenaId)
    returns (all: seq<(Thread, Move)>, s': State, o: Thread, h: Thread, b: ArenaId)
    requires Reached(t, moves, s) && OnTheWay(Of(s, u)) && Owns(s, u, x)
    ensures moves <= all && Reached(t, all, s') && Stuck(s', o, h, b)
  {
    hide Inv, Reached, PlaceOk, Stuck, Do;
    var ring := RunKeeps(t, moves, s);
    ThreadIs(s, ring, u);
    if s.list != None {
      h := s.list.value;
      all, s', o, b := ReleaseOrStuck(t, moves, s, ring, h, u, x);
      if !Stuck(s', o, h, b) {
        var freed, s1 := all, s';
        ring := RunKeeps(t, freed, s1);
        all, s', o, h, b := ForkGetsStuck(t, freed, s1, ring, u, x);
      }
    } else {
      all, s', o, h, b := ForkGetsStuck(t, moves, s, ring, u, x);
    }
  }

  lemma ForkGetsStuck(t: Thread, moves: seq<(Thread, Move)>, s: State, ring: seq<ArenaId>, u: Thread, x: ArenaId)
    returns (all: seq<(Thread, Move)>, s': State, o: Thread, h: Thread, b: ArenaId)
    requires Reached(t, moves, s) && Inv(s, ring) && s.list == None && OnTheWay(Of(s, u)) && Owns(s, u, x)
    ensures moves <= all && Reached(t, all, s') && Stuck(s', o, h, b)
  {
    hide Inv, Reached, PlaceOk, Stuck;
    OneMember(s, ring);
    if x !in ring { MadeByOwner(s, ring, x); }
    h := SomeNewcomer(s, ring, u);
    var s1 := Do(s, h, LockAll).value;
    ReachedMore(t, moves, s, h, LockAll, s1);
    StepKeeps(s, ring, h, LockAll, s1);
    StillOnTheWay(s, ring, h, LockAll, s1, u, x);
    var s2 := Do(s1, h, Go).value;
    ReachedMore(t, moves + [(h, LockAll)], s1, h, Go, s2);
    StepKeeps(s1, ring, h, Go, s2);
    StillOnTheWay(s1, ring, h, Go, s2, u, x);
    MainFirst(s, ring, x);
    all, s', o, b := LockGetsStuck(t, moves + [(h, LockAll)] + [(h, Go)], s2, ring, h, u, x);
  }

  lemma MainFirst(s: State, ring: seq<ArenaId>, x: ArenaId)
    requires Inv(s, ring)
    ensures MAIN in ring && Index(ring, MAIN) == 0 && Index(ring, x) >= 0
  {
    OneMember(s, ring);
    RingDistinct(s.next, ring) by { Linked(s, ring); }
    FirstIndex(ring);
  }

  // The guard is exact: after any step that breaks it some continuation ends in the deadlock.
  lemma BrokenGuardCanDeadlock(t: Thread, moves: seq<(Thread, Move)>, s: State, u: Thread, m: Move, s1: State)
    returns (all: seq<(Thread, Move)>, s': State, o: Thread, h: Thread, b: ArenaId)
    requires Reached(t, moves, s) && !Calm(s, u, m) && Do(s, u, m) == Some(s1)
    ensures moves + [(u, m)] <= all && Reached(t, all, s') && Stuck(s', o, h, b)
  {
    hide Reached, Stuck;
    var x :| Owns(s, u, x);
    ReachedMore(t, moves, s, u, m, s1);
    assert OnTheWay(Of(s1, u)) && Owns(s1, u, x);
    all, s', o, h, b := CanDeadlock(t, moves + [(u, m)], s1, u, x);
  }
}
