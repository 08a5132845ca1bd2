/** The circular list of arenas, the arena mutexes and list_lock, as threads interleave in arena_get, arena_get2 and the fork handlers. */
module ArenaRing {
  import opened Options

  type Thread = nat
  type ArenaId = nat

  const MAIN: ArenaId := 0

  // Where a thread is. Every step is one access to shared memory, or one use of a mutex.
  datatype Place =
    | Idle
    | First(start: ArenaId)                                        // a = a_tsd->next
    | Try(a: ArenaId, start: ArenaId, retried: bool, tried: nat)   // mutex_trylock(&a->mutex)
    | Next(a: ArenaId, start: ArenaId, retried: bool, tried: nat)  // a = a->next
    | Ask(start: ArenaId)                                          // mutex_trylock(&list_lock)
    | Wait(start: ArenaId)                                         // mutex_lock(&list_lock)
    | Create                                                       // aproxy_int_new_arena
    | Link(a: ArenaId)                                             // a->next = main_arena.next
    | Publish(a: ArenaId)                                          // main_arena.next = a
    | Leave(r: Option<ArenaId>)                                    // mutex_unlock(&list_lock)
    | WaitMain                                                     // mutex_lock(&main_arena.mutex): a_tsd->next was NULL
    | Back(r: Option<ArenaId>)                                     // the caller has its arena, or none
    | Fork                                                         // ptmalloc_lock_all: mutex_lock(&list_lock)
    | LockAt(a: ArenaId)
    | All                                                          // ptmalloc_lock_all has returned
    | UnlockAt(a: ArenaId)                                         // ptmalloc_unlock_all
    | Release

  // next: an arena without entry has a NULL link; owner: a mutex without entry is free.
  datatype State = State(next: map<ArenaId, ArenaId>, owner: map<ArenaId, Thread>, list: Option<Thread>,
                         tsd: map<Thread, ArenaId>, place: map<Thread, Place>)

  function Of(s: State, t: Thread): Place { if t in s.place then s.place[t] else Idle }

  // What a thread that has a choice does, or what the system answers.
  datatype Move = Go | Direct | FromTsd | FromNull | FromMain | Hold(a: ArenaId) | Drop(a: ArenaId) | LockAll | UnlockAll | Made(a: ArenaId) | NoMemory

  function Boot(t: Thread): State { State(map[MAIN := MAIN], map[], None, map[t := MAIN], map[]) }

  function At(s: State, t: Thread, p: Place): State { s.(place := s.place[t := p]) }

  function Own(s: State, t: Thread, a: ArenaId): State { s.(owner := s.owner[a := t]) }

  function Free(s: State, a: ArenaId): State { s.(owner := s.owner - {a}) }

  function Begin(s: State, t: Thread, m: Move): Option<State> {
    match m
    case Direct =>
      if t in s.tsd && s.tsd[t] !in s.owner then Some(At(Own(s, t, s.tsd[t]), t, Back(Some(s.tsd[t])))) else None
    case FromTsd => if t in s.tsd && s.tsd[t] in s.owner then Some(At(s, t, First(s.tsd[t]))) else None
    case FromNull => if t !in s.tsd then Some(At(s, t, Try(MAIN, MAIN, false, 0))) else None
    case FromMain => Some(At(s, t, First(MAIN)))
    case Hold(a) => if a in s.next && a !in s.owner then Some(Own(s, t, a)) else None
    case Drop(a) => if a in s.owner && s.owner[a] == t then Some(Free(s, a)) else None
    case LockAll => Some(At(s, t, Fork))
    case _ => None
  }

  // The scan for an arena whose mutex is free, and the way to list_lock.
  function Scan(s: State, t: Thread): Option<State> {
    match Of(s, t)
    case First(start) => Some(At(s, t, if start in s.next then Try(s.next[start], start, false, 0) else WaitMain))
    case Try(a, start, retried, k) =>
      if a in s.owner then Some(At(s, t, Next(a, start, retried, k + 1)))
      else Some(At(Own(s, t, a).(tsd := s.tsd[t := a]), t, if retried then Leave(Some(a)) else Back(Some(a))))
    case Next(a, start, retried, k) =>
      if a !in s.next then None
      else if s.next[a] != start then Some(At(s, t, Try(s.next[a], start, retried, k)))
      else Some(At(s, t, if retried then Create else Ask(start)))
    case Ask(start) => if s.list == None then Some(At(s.(list := Some(t)), t, Create)) else Some(At(s, t, Wait(start)))
    case Wait(start) => if s.list == None then Some(At(s.(list := Some(t)), t, Try(start, start, true, 0))) else None
    case WaitMain => if MAIN in s.owner then None else Some(At(Own(s, t, MAIN), t, Back(Some(MAIN))))
    case _ => None
  }

  // A new arena, made and published under list_lock.
  function Make(s: State, t: Thread, m: Move): Option<State> {
    match Of(s, t)
    case Create =>
      if m == NoMemory then Some(At(s, t, Leave(None)))
      else if m.Made? && m.a !in s.next && m.a !in s.owner then Some(At(Own(s, t, m.a).(tsd := s.tsd[t := m.a]), t, Link(m.a)))
      else None
    case Link(a) => if MAIN in s.next then Some(At(s.(next := s.next[a := s.next[MAIN]]), t, Publish(a))) else None
    case Publish(a) => Some(At(s.(next := s.next[MAIN := a]), t, Leave(Some(a))))
    case Leave(r) => Some(At(s.(list := None), t, Back(r)))
    case _ => None
  }

  // The fork handlers.
  function Forking(s: State, t: Thread, m: Move): Option<State> {
    match Of(s, t)
    case Fork => if s.list == None then Some(At(s.(list := Some(t)), t, LockAt(MAIN))) else None
    case LockAt(a) =>
      if a in s.owner || a !in s.next then None
      else Some(At(Own(s, t, a), t, if s.next[a] == MAIN then All else LockAt(s.next[a])))
    case All => if m == UnlockAll then Some(At(s, t, UnlockAt(MAIN))) else None
    case UnlockAt(a) =>
      if a !in s.next then None else Some(At(Free(s, a), t, if s.next[a] == MAIN then Release else UnlockAt(s.next[a])))
    case Release => Some(At(s.(list := None), t, Idle))
    case _ => None
  }

  predicate InScan(p: Place) { p.First? || p.Try? || p.Next? || p.Ask? || p.Wait? || p.WaitMain? }

  predicate InMake(p: Place) { p.Create? || p.Link? || p.Publish? || p.Leave? }

  // One step of thread t; none when t is blocked, or when m is not open to it.
  function Do(s: State, t: Thread, m: Move): Option<State> {
    var p := Of(s, t);
    if p.Idle? then Begin(s, t, m)
    else if p.Back? then Some(At(s, t, Idle))
    else if InScan(p) then Scan(s, t)
    else if InMake(p) then Make(s, t, m)
    else Forking(s, t, m)
  }

  function Run(s: State, moves: seq<(Thread, Move)>): Option<State> {
    if |moves| == 0 then Some(s)
    else
      var r := Run(s, moves[..|moves| - 1]);
      if r == None then None else Do(r.value, moves[|moves| - 1].0, moves[|moves| - 1].1)
  }

  // ---- the ring

  ghost predicate Distinct(ring: seq<ArenaId>) { forall i, j :: 0 <= i < j < |ring| ==> ring[i] != ring[j] }

  // The links run through ring and back to its first arena, main_arena.
  ghost predicate Cycle(next: map<ArenaId, ArenaId>, ring: seq<ArenaId>) {
    && |ring| > 0 && ring[0] == MAIN && Distinct(ring)
    && forall i {:trigger ring[i]} :: 0 <= i < |ring| ==> ring[i] in next && next[ring[i]] == After(ring, i)
  }

  function After(ring: seq<ArenaId>, i: int): ArenaId
    requires 0 <= i < |ring|
  { if i + 1 < |ring| then ring[i + 1] else ring[0] }

  function Index(ring: seq<ArenaId>, a: ArenaId): (i: int)
    ensures 0 <= i <= |ring| && (i < |ring| <==> a in ring) && (i < |ring| ==> ring[i] == a)
  { if |ring| == 0 then 0 else if ring[0] == a then 0 else 1 + Index(ring[1..], a) }

  lemma IndexIs(ring: seq<ArenaId>, i: int)
    requires 0 <= i < |ring| && Distinct(ring)
    ensures Index(ring, ring[i]) == i
  {
  }

  // How many arenas a scan that is at a has still to try.
  function Left(ring: seq<ArenaId>, a: ArenaId, start: ArenaId): (n: int) {
    var i, j := Index(ring, a), Index(ring, start);
    if i < j then j - i else |ring| + j - i
  }

  ghost predicate NeedsList(p: Place) {
    match p
    case Try(_, _, retried, _) => retried
    case Next(_, _, retried, _) => retried
    case Create => true
    case Link(_) => true
    case Publish(_) => true
    case Leave(_) => true
    case LockAt(_) => true
    case All => true
    case UnlockAt(_) => true
    case Release => true
    case _ => false
  }

  ghost predicate Making(p: Place, a: ArenaId) { p == Link(a) || p == Publish(a) }

  ghost predicate Owns(s: State, t: Thread, a: ArenaId) { a in s.owner && s.owner[a] == t }

  ghost predicate PlaceOk(s: State, ring: seq<ArenaId>, t: Thread) {
    match Of(s, t)
    case Try(a, start, _, k) => a in ring && start in ring && k + Left(ring, a, start) <= |ring|
    case Next(a, start, _, k) => a in ring && start in ring && k + Left(ring, a, start) <= |ring| + 1
    case First(start) => start in ring
    case Ask(start) => start in ring
    case Wait(start) => start in ring
    case Link(a) => a !in ring && a !in s.next && Owns(s, t, a)
    case Publish(a) => |ring| > 0 && a !in ring && a in s.next && s.next[a] == After(ring, 0) && Owns(s, t, a)
    case Leave(r) => r == None || (r.value in ring && Owns(s, t, r.value))
    case Back(r) => r == None || (r.value in ring && Owns(s, t, r.value))
    case WaitMain => false
    case LockAt(a) => a in ring && forall i {:trigger ring[i]} :: 0 <= i < Index(ring, a) ==> Owns(s, t, ring[i])
    case All => forall i {:trigger ring[i]} :: 0 <= i < |ring| ==> Owns(s, t, ring[i])
    case UnlockAt(a) =>
      && a in ring
      && forall i {:trigger ring[i]} :: 0 <= i < |ring| ==> (Index(ring, a) <= i <==> Owns(s, t, ring[i]))
    case Release => forall i {:trigger ring[i]} :: 0 <= i < |ring| ==> !Owns(s, t, ring[i])
    case _ => true
  }

  ghost predicate ThreadOk(s: State, ring: seq<ArenaId>, t: Thread) {
    && (NeedsList(Of(s, t)) <==> s.list == Some(t))
    && (t in s.tsd ==> s.tsd[t] in ring || Making(Of(s, t), s.tsd[t]))
    && PlaceOk(s, ring, t)
  }

  // An arena outside the ring is being made by the thread that has list_lock.
  ghost predicate MadeByHolder(s: State, a: ArenaId) {
    s.list != None && Making(Of(s, s.list.value), a)
  }

  ghost predicate Inv(s: State, ring: seq<ArenaId>) {
    && Cycle(s.next, ring)
    && (forall t {:trigger Of(s, t)} {:trigger ThreadOk(s, ring, t)} :: ThreadOk(s, ring, t))
    && (forall a {:trigger a in s.next} :: a in s.next && a !in ring ==> MadeByHolder(s, a))
    && forall a {:trigger a in s.owner} :: a in s.owner && a !in ring ==> MadeByHolder(s, a) && s.list == Some(s.owner[a])
  }

  // ---- what the other threads see of a step

  ghost predicate Framed(s: State, s': State, u: Thread) {
    && Of(s', u) == Of(s, u) && (u in s'.tsd <==> u in s.tsd) && (u in s.tsd ==> s'.tsd[u] == s.tsd[u])
    && (s.list == Some(u) <==> s'.list == Some(u)) && (s.list == Some(u) ==> s'.next == s.next)
    && forall a {:trigger Owns(s', u, a)} {:trigger Owns(s, u, a)} :: Owns(s, u, a) <==> Owns(s', u, a)
  }

  lemma OtherKeeps(s: State, s': State, ring: seq<ArenaId>, u: Thread)
    requires ThreadOk(s, ring, u) && Framed(s, s', u)
    ensures ThreadOk(s', ring, u)
  {
    hide Left, Index, After, Owns;
  }

  function Inserted(ring: seq<ArenaId>, a: ArenaId): seq<ArenaId>
    requires |ring| > 0
  { [ring[0], a] + ring[1..] }

  lemma InsertedIndex(ring: seq<ArenaId>, a: ArenaId, x: ArenaId)
    requires |ring| > 0 && Distinct(ring) && a !in ring && x in ring
    ensures Distinct(Inserted(ring, a)) && x in Inserted(ring, a) && |Inserted(ring, a)| == |ring| + 1
    ensures Index(Inserted(ring, a), x) == if x == ring[0] then 0 else Index(ring, x) + 1
  {
    var after := Inserted(ring, a);
    var i := Index(ring, x);
    var j := if i == 0 then 0 else i + 1;
    assert after[j] == x;
    assert Distinct(after) by {
      forall p, q | 0 <= p < q < |after|
        ensures after[p] != after[q]
      {
        var p', q' := if p < 2 then 0 else p - 1, q - 1;
        if q == 1 { assert ring[0] in ring; } else if p == 1 { assert ring[q'] in ring; } else { assert ring[p'] != ring[q']; }
      }
    }
    IndexIs(after, j);
    if x != ring[0] { assert i > 0; }
  }

  // A scan that goes on has the new arena before it, or has passed its place.
  lemma InsertedLeft(ring: seq<ArenaId>, a: ArenaId, x: ArenaId, start: ArenaId)
    requires |ring| > 0 && Distinct(ring) && a !in ring && x in ring && start in ring
    ensures Left(Inserted(ring, a), x, start) <= Left(ring, x, start) + 1
  {
    hide Index, Inserted;
    InsertedIndex(ring, a, x);
    InsertedIndex(ring, a, start);
    FirstIndex(ring);
  }

  lemma FirstIndex(ring: seq<ArenaId>)
    requires |ring| > 0
    ensures Index(ring, ring[0]) == 0
  {
  }

  // A thread that does not hold list_lock does not notice that the ring grows.
  lemma OtherSeesInsertion(s: State, s': State, ring: seq<ArenaId>, a: ArenaId, u: Thread)
    requires ThreadOk(s, ring, u) && |ring| > 0 && Distinct(ring) && a !in ring && s.list != Some(u)
    requires Framed(s, s', u)
    ensures ThreadOk(s', Inserted(ring, a), u)
  {
    hide Index, After, Inserted, Distinct;
    forall x | x in ring
      ensures x in Inserted(ring, a)
    {
      InsertedIndex(ring, a, x);
    }
    match Of(s, u)
    case Try(x, start, _, k) =>
      InsertedLeft(ring, a, x, start);
      InsertedIndex(ring, a, x);
    case Next(x, start, _, k) =>
      InsertedLeft(ring, a, x, start);
      InsertedIndex(ring, a, x);
    case _ =>
  }

  lemma CycleGrows(next: map<ArenaId, ArenaId>, ring: seq<ArenaId>, a: ArenaId)
    requires Cycle(next, ring) && a !in ring && a in next && next[a] == After(ring, 0)
    ensures Cycle(next[MAIN := a], Inserted(ring, a))
  {
    InsertedIndex(ring, a, MAIN);
    var after, next' := Inserted(ring, a), next[MAIN := a];
    forall i {:trigger after[i]} | 0 <= i < |after|
      ensures after[i] in next' && next'[after[i]] == After(after, i)
    {
      if i > 1 {
        assert after[i] == ring[i - 1] && ring[i - 1] != ring[0];
        assert After(ring, i - 1) == After(after, i);
      } else if i == 1 {
        assert After(ring, 0) == After(after, 1);
      }
    }
  }

  lemma CycleOutside(next: map<ArenaId, ArenaId>, ring: seq<ArenaId>, a: ArenaId, b: ArenaId)
    requires Cycle(next, ring) && a !in ring
    ensures Cycle(next[a := b], ring)
  {
    forall i {:trigger ring[i]} | 0 <= i < |ring|
      ensures ring[i] != a
    {
      assert ring[i] in ring;
    }
  }

  // The arena after one of the ring.
  lemma Successor(next: map<ArenaId, ArenaId>, ring: seq<ArenaId>, a: ArenaId)
    requires Cycle(next, ring) && a in ring
    ensures a in next && next[a] in ring
    ensures var i := Index(ring, a); Index(ring, next[a]) == if i + 1 < |ring| then i + 1 else 0
    ensures next[a] == MAIN <==> Index(ring, a) + 1 == |ring|
  {
    var i := Index(ring, a);
    assert ring[i] == a;
    IndexIs(ring, if i + 1 < |ring| then i + 1 else 0);
    IndexIs(ring, 0);
  }

  ghost function RingAfter(s: State, ring: seq<ArenaId>, t: Thread): seq<ArenaId>
    requires |ring| > 0
  { if Of(s, t).Publish? then Inserted(ring, Of(s, t).a) else ring }

  // ---- one step keeps the invariant

  // What a step can do to the mutexes of the arenas.
  ghost predicate Handled(s: State, t: Thread, s': State, a: ArenaId) {
    || s'.owner == s.owner
    || (a !in s.owner && s'.owner == s.owner[a := t])
    || ((Owns(s, t, a) || Of(s, t) == UnlockAt(a)) && s'.owner == s.owner - {a})
  }

  // ... to list_lock and the links, and to what belongs to the other threads.
  ghost predicate Effect(s: State, t: Thread, s': State) {
    && (s'.list != s.list ==> s.list == Some(t) || (s.list == None && s'.list == Some(t)))
    && (s.list == Some(t) && s'.list != s.list ==> s'.list == None)
    && (s'.next != s.next ==> s.list == Some(t) && s'.list == Some(t))
    && (NeedsList(Of(s', t)) <==> s'.list == Some(t))
    && (exists a :: Handled(s, t, s', a))
    && forall u {:trigger Of(s', u)} {:trigger u in s'.tsd} :: u != t ==>
      Of(s', u) == Of(s, u) && (u in s'.tsd <==> u in s.tsd) && (u in s.tsd ==> s'.tsd[u] == s.tsd[u])
  }

  lemma BeginEffect(s: State, t: Thread, m: Move, s': State)
    requires Begin(s, t, m) == Some(s') && Of(s, t) == Idle && s.list != Some(t)
    ensures Effect(s, t, s')
  {
    assert Handled(s, t, s', if m.Direct? then s.tsd[t] else if m.Hold? || m.Drop? then m.a else MAIN);
  }

  lemma ScanEffect(s: State, t: Thread, s': State)
    requires Scan(s, t) == Some(s') && (NeedsList(Of(s, t)) <==> s.list == Some(t))
    ensures Effect(s, t, s')
  {
    assert Handled(s, t, s', if Of(s, t).Try? then Of(s, t).a else MAIN);
  }

  lemma MakeEffect(s: State, t: Thread, m: Move, s': State)
    requires Make(s, t, m) == Some(s') && (NeedsList(Of(s, t)) <==> s.list == Some(t))
    ensures Effect(s, t, s')
  {
    assert Handled(s, t, s', if m.Made? then m.a else MAIN);
  }

  lemma ForkingEffect(s: State, t: Thread, m: Move, s': State)
    requires Forking(s, t, m) == Some(s') && (NeedsList(Of(s, t)) <==> s.list == Some(t))
    ensures Effect(s, t, s')
  {
    assert Handled(s, t, s', if Of(s, t).LockAt? || Of(s, t).UnlockAt? then Of(s, t).a else MAIN);
  }

  lemma StepEffect(s: State, t: Thread, m: Move, s': State)
    requires Do(s, t, m) == Some(s') && (NeedsList(Of(s, t)) <==> s.list == Some(t))
    ensures Effect(s, t, s')
  {
    hide Begin, Scan, Make, Forking;
    var p := Of(s, t);
    if p.Idle? {
      BeginEffect(s, t, m, s');
    } else if p.Back? {
      assert Handled(s, t, s', MAIN);
    } else if InScan(p) {
      ScanEffect(s, t, s');
    } else if InMake(p) {
      MakeEffect(s, t, m, s');
    } else {
      ForkingEffect(s, t, m, s');
    }
  }

  lemma StepFrames(s: State, ring: seq<ArenaId>, t: Thread, m: Move, u: Thread)
    requires Inv(s, ring) && Do(s, t, m) != None && u != t
    ensures Framed(s, Do(s, t, m).value, u)
  {
    hide Do, Index, After, Left, Cycle, PlaceOk;
    assert ThreadOk(s, ring, t);
    var s' := Do(s, t, m).value;
    assert ThreadOk(s, ring, u);
    StepEffect(s, t, m, s');
    UnlocksOwn(s, ring, t);
    var a :| Handled(s, t, s', a);
  }

  lemma UnlocksOwn(s: State, ring: seq<ArenaId>, t: Thread)
    requires ThreadOk(s, ring, t)
    ensures Of(s, t).UnlockAt? ==> Owns(s, t, Of(s, t).a)
  {
    if Of(s, t).UnlockAt? { assert ring[Index(ring, Of(s, t).a)] == Of(s, t).a; }
  }

  lemma StepLinks(s: State, t: Thread, m: Move, s': State)
    requires Do(s, t, m) == Some(s') && MAIN in s.next
    ensures match Of(s, t)
      case Link(a) => s'.next == s.next[a := s.next[MAIN]]
      case Publish(a) => s'.next == s.next[MAIN := a]
      case _ => s'.next == s.next
  {
    hide Scan, Forking;
    var p := Of(s, t);
    if InScan(p) { ScanLinks(s, t, s'); } else if !InMake(p) && !p.Idle? && !p.Back? { ForkingLinks(s, t, m, s'); }
  }

  lemma ScanLinks(s: State, t: Thread, s': State)
    requires Scan(s, t) == Some(s')
    ensures s'.next == s.next
  {
  }

  lemma ForkingLinks(s: State, t: Thread, m: Move, s': State)
    requires Forking(s, t, m) == Some(s')
    ensures s'.next == s.next
  {
  }

  lemma StepCycle(s: State, ring: seq<ArenaId>, t: Thread, m: Move, s': State)
    requires Inv(s, ring) && Do(s, t, m) == Some(s')
    ensures Cycle(s'.next, RingAfter(s, ring, t))
  {
    hide Do, Index, After, Left, PlaceOk, Cycle;
    OneMember(s, ring);
    assert ThreadOk(s, ring, t);
    MakerOk(s, ring, t);
    StepLinks(s, t, m, s');
    match Of(s, t)
    case Link(a) => CycleOutside(s.next, ring, a, s.next[MAIN]);
    case Publish(a) => CycleGrows(s.next, ring, a);
    case _ =>
  }

  lemma OneMember(s: State, ring: seq<ArenaId>)
    requires Inv(s, ring)
    ensures |ring| > 0 && MAIN in ring && MAIN in s.next
  {
    assert ring[0] in ring;
  }

  lemma NewMembers(s: State, ring: seq<ArenaId>, t: Thread)
    requires |ring| > 0
    ensures forall a :: a in RingAfter(s, ring, t) <==> a in ring || Of(s, t) == Publish(a)
  {
    var ring' := RingAfter(s, ring, t);
    if Of(s, t).Publish? {
      forall a
        ensures a in ring' <==> a in ring || a == Of(s, t).a
      {
        if a in ring {
          var i := Index(ring, a);
          assert ring'[if i == 0 then 0 else i + 1] == a;
        }
        assert ring'[1] == Of(s, t).a;
        if a in ring' {
          var i := Index(ring', a);
          assert i >= 2 ==> ring[i - 1] == a;
        }
      }
    }
  }

  lemma MakerOk(s: State, ring: seq<ArenaId>, t: Thread)
    requires ThreadOk(s, ring, t)
    ensures match Of(s, t)
      case Link(a) => a !in ring && a !in s.next && Owns(s, t, a)
      case Publish(a) => |ring| > 0 && a !in ring && a in s.next && s.next[a] == After(ring, 0) && Owns(s, t, a)
      case _ => true
  {
  }

  // What was being made still is, or is in the ring now.
  lemma StillMade(s: State, ring: seq<ArenaId>, t: Thread, m: Move, s': State, a: ArenaId)
    requires Inv(s, ring) && Do(s, t, m) == Some(s') && MadeByHolder(s, a)
    requires a !in RingAfter(s, ring, t)
    ensures MadeByHolder(s', a) && s'.list == s.list
  {
    hide Index, After, Left, Cycle, PlaceOk, Begin, Scan, Forking;
    var h := s.list.value;
    assert ThreadOk(s, ring, t) && ThreadOk(s, ring, h);
    OneMember(s, ring);
    StepEffect(s, t, m, s');
    NewMembers(s, ring, t);
  }

  lemma StepNewLinks(s: State, ring: seq<ArenaId>, t: Thread, m: Move, s': State)
    requires Inv(s, ring) && Do(s, t, m) == Some(s')
    ensures forall a {:trigger a in s'.next} :: a in s'.next && a !in RingAfter(s, ring, t) ==> MadeByHolder(s', a)
  {
    hide Index, After, Left, Cycle, PlaceOk, Begin, Scan, Forking, RingAfter;
    OneMember(s, ring);
    NewMembers(s, ring, t);
    StepLinks(s, t, m, s');
    assert ThreadOk(s, ring, t);
    forall a {:trigger a in s'.next} | a in s'.next && a !in RingAfter(s, ring, t)
      ensures MadeByHolder(s', a)
    {
      if a in s.next {
        StillMade(s, ring, t, m, s', a);
      }
    }
  }

  // The arenas that a thread can name are in the ring, but for the one it makes.
  lemma Named(s: State, ring: seq<ArenaId>, t: Thread, a: ArenaId)
    requires Inv(s, ring)
    ensures a in s.next && a !in s.owner ==> a in ring
    ensures t in s.tsd && !InMake(Of(s, t)) ==> s.tsd[t] in ring
    ensures PlaceOk(s, ring, t)
  {
    hide Index, After, Left, Cycle;
    assert ThreadOk(s, ring, t);
    if a in s.next && a !in ring {
      assert MadeByHolder(s, a);
      assert ThreadOk(s, ring, s.list.value);
      MakerOk(s, ring, s.list.value);
    }
  }

  // An arena that a thread locks is in the ring, or is its own new one.
  lemma NewlyOwned(s: State, ring: seq<ArenaId>, t: Thread, m: Move, s': State, a: ArenaId)
    requires Inv(s, ring) && Do(s, t, m) == Some(s') && a !in s.owner && a in s'.owner && a !in ring
    ensures Of(s', t) == Link(a)
  {
    hide Inv, ThreadOk, PlaceOk;
    Named(s, ring, t, a);
    var p := Of(s, t);
    if p.Idle? {
      BeginOwns(s, ring, t, m, s', a);
    } else if InScan(p) {
      ScanOwns(s, ring, t, s', a);
    } else if !InMake(p) && !p.Back? {
      ForkingOwns(s, ring, t, m, s', a);
    }
  }

  lemma BeginOwns(s: State, ring: seq<ArenaId>, t: Thread, m: Move, s': State, a: ArenaId)
    requires Begin(s, t, m) == Some(s') && a !in s.owner && a in s'.owner
    requires (t in s.tsd ==> s.tsd[t] in ring) && (a in s.next ==> a in ring)
    ensures a in ring
  {
  }

  lemma ScanOwns(s: State, ring: seq<ArenaId>, t: Thread, s': State, a: ArenaId)
    requires Scan(s, t) == Some(s') && PlaceOk(s, ring, t) && a !in s.owner && a in s'.owner
    ensures a in ring
  {
    hide Left, Index;
  }

  lemma ForkingOwns(s: State, ring: seq<ArenaId>, t: Thread, m: Move, s': State, a: ArenaId)
    requires Forking(s, t, m) == Some(s') && PlaceOk(s, ring, t) && a !in s.owner && a in s'.owner
    ensures a in ring
  {
    hide Left, Index;
  }

  lemma StepNewOwners(s: State, ring: seq<ArenaId>, t: Thread, m: Move, s': State)
    requires Inv(s, ring) && Do(s, t, m) == Some(s')
    ensures forall a {:trigger a in s'.owner} :: a in s'.owner && a !in RingAfter(s, ring, t) ==> MadeByHolder(s', a) && s'.list == Some(s'.owner[a])
  {
    hide Index, After, Left, Cycle, PlaceOk, Do, RingAfter;
    OneMember(s, ring);
    NewMembers(s, ring, t);
    assert ThreadOk(s, ring, t);
    StepEffect(s, t, m, s');
    forall a {:trigger a in s'.owner} | a in s'.owner && a !in RingAfter(s, ring, t)
      ensures MadeByHolder(s', a) && s'.list == Some(s'.owner[a])
    {
      if a in s.owner {
        StillMade(s, ring, t, m, s', a);
        var b :| Handled(s, t, s', b);
      } else {
        NewlyOwned(s, ring, t, m, s', a);
        var b :| Handled(s, t, s', b);
      }
    }
  }

  // ---- the thread that moves

  lemma TryOk(s: State, ring: seq<ArenaId>, a: ArenaId, start: ArenaId)
    requires Inv(s, ring) && a in ring && start in ring
    ensures a in s.next && s.next[a] in ring
    ensures Left(ring, s.next[a], start) == if s.next[a] == start then |ring| else Left(ring, a, start) - 1
    ensures start in s.next && Left(ring, s.next[start], start) <= |ring|
  {
    Linked(s, ring);
    hide Inv, Cycle, After, Left;
    LeftAfter(s.next, ring, a, start);
    LeftAfter(s.next, ring, start, start);
    SelfLeft(ring, start);
  }

  lemma LeftAfter(next: map<ArenaId, ArenaId>, ring: seq<ArenaId>, a: ArenaId, start: ArenaId)
    requires Cycle(next, ring) && a in ring && start in ring
    ensures a in next && next[a] in ring
    ensures Left(ring, next[a], start) == if next[a] == start then |ring| else Left(ring, a, start) - 1
  {
    Successor(next, ring, a);
    hide Cycle, Index, After;
    var i, j, k := Index(ring, a), Index(ring, next[a]), Index(ring, start);
    assert j == k ==> ring[j] == ring[k];
  }

  // The thread that moves: its place is as it should be, and so is its own arena.
  ghost predicate OwnOk(s: State, ring: seq<ArenaId>, t: Thread) {
    (t in s.tsd ==> s.tsd[t] in ring || Making(Of(s, t), s.tsd[t])) && PlaceOk(s, ring, t)
  }

  lemma BeginOk(s: State, ring: seq<ArenaId>, t: Thread, m: Move, s': State)
    requires OwnOk(s, ring, t) && MAIN in ring && Of(s, t) == Idle && Begin(s, t, m) == Some(s')
    requires Cycle(s.next, ring)
    ensures OwnOk(s', ring, t)
  {
    hide Cycle;
    assert Left(ring, MAIN, MAIN) == |ring|;
  }

  lemma ScanOk(s: State, ring: seq<ArenaId>, t: Thread, s': State)
    requires Inv(s, ring) && OwnOk(s, ring, t) && Scan(s, t) == Some(s')
    ensures OwnOk(s', ring, t)
  {
    hide Inv, Index, Left, ThreadOk, Cycle;
    OneMember(s, ring);
    match Of(s, t)
    case First(start) => TryOk(s, ring, start, start);
    case Next(a, start, _, _) => TryOk(s, ring, a, start);
    case Wait(start) => TryOk(s, ring, start, start); SelfLeft(ring, start);
    case _ =>
  }

  lemma SelfLeft(ring: seq<ArenaId>, a: ArenaId)
    ensures Left(ring, a, a) == |ring|
  {
  }

  lemma MakeOk(s: State, ring: seq<ArenaId>, t: Thread, m: Move, s': State)
    requires Inv(s, ring) && OwnOk(s, ring, t) && Make(s, t, m) == Some(s')
    ensures |ring| > 0 && OwnOk(s', RingAfter(s, ring, t), t)
  {
    hide Inv, Index, Left, ThreadOk, Inserted;
    OneMember(s, ring);
    NewMembers(s, ring, t);
    FirstLink(s, ring);
    match Of(s, t)
    case Create => if m.Made? { Fresh(s, ring, m.a); }
    case _ =>
  }

  lemma FirstLink(s: State, ring: seq<ArenaId>)
    requires Inv(s, ring)
    ensures |ring| > 0 && MAIN in s.next && s.next[MAIN] == After(ring, 0)
  {
    assert ring[0] == MAIN;
  }

  lemma Fresh(s: State, ring: seq<ArenaId>, a: ArenaId)
    requires Inv(s, ring) && a !in s.next
    ensures a !in ring
  {
    if a in ring { Successor(s.next, ring, a); }
  }

  lemma LockOk(s: State, ring: seq<ArenaId>, t: Thread, m: Move, s': State)
    requires Inv(s, ring) && OwnOk(s, ring, t) && Of(s, t).LockAt? && Forking(s, t, m) == Some(s')
    ensures PlaceOk(s', ring, t)
  {
    hide Inv, ThreadOk, Cycle, Index, After;
    assert Cycle(s.next, ring) by { OneMember(s, ring); assert Inv(s, ring); Linked(s, ring); }
    var a := Of(s, t).a;
    Successor(s.next, ring, a);
    var n := Index(ring, a);
    forall i {:trigger ring[i]} | 0 <= i < |ring| && i <= n
      ensures Owns(s', t, ring[i])
    {
      if i < n { assert Owns(s, t, ring[i]); } else { assert ring[n] == a; }
    }
  }

  lemma Linked(s: State, ring: seq<ArenaId>)
    requires Inv(s, ring)
    ensures Cycle(s.next, ring)
  {
  }

  lemma UnlockOk(s: State, ring: seq<ArenaId>, t: Thread, m: Move, s': State)
    requires Inv(s, ring) && OwnOk(s, ring, t) && Of(s, t).UnlockAt? && Forking(s, t, m) == Some(s')
    ensures PlaceOk(s', ring, t)
  {
    hide Inv, ThreadOk, Cycle, Index, After;
    Linked(s, ring);
    var a := Of(s, t).a;
    Successor(s.next, ring, a);
    var n := Index(ring, a);
    assert Distinct(ring) && ring[n] == a by { assert Cycle(s.next, ring); RingDistinct(s.next, ring); }
    forall i {:trigger ring[i]} | 0 <= i < |ring|
      ensures n < i <==> Owns(s', t, ring[i])
    {
      assert n <= i <==> Owns(s, t, ring[i]);
      if i < n { assert ring[i] != ring[n]; } else if n < i { assert ring[n] != ring[i]; }
    }
  }

  lemma RingDistinct(next: map<ArenaId, ArenaId>, ring: seq<ArenaId>)
    requires Cycle(next, ring)
    ensures |ring| > 0 && ring[0] == MAIN && Distinct(ring)
  {
  }

  lemma ForkingOk(s: State, ring: seq<ArenaId>, t: Thread, m: Move, s': State)
    requires Inv(s, ring) && OwnOk(s, ring, t) && Forking(s, t, m) == Some(s')
    ensures OwnOk(s', ring, t)
  {
    hide Inv, ThreadOk, Cycle, Index, After;
    OneMember(s, ring);
    Linked(s, ring);
    RingDistinct(s.next, ring);
    FirstIndex(ring);
    if Of(s, t).LockAt? { LockOk(s, ring, t, m, s'); } else if Of(s, t).UnlockAt? { UnlockOk(s, ring, t, m, s'); }
  }

  lemma MoverOk(s: State, ring: seq<ArenaId>, t: Thread, m: Move, s': State)
    requires Inv(s, ring) && Do(s, t, m) == Some(s')
    ensures |ring| > 0 && ThreadOk(s', RingAfter(s, ring, t), t)
  {
    assert ThreadOk(s, ring, t);
    hide Inv, Cycle, Index, After, Begin, Scan, Make, Forking, PlaceOk, Effect;
    OneMember(s, ring);
    Linked(s, ring);
    StepEffect(s, t, m, s');
    assert NeedsList(Of(s', t)) <==> s'.list == Some(t) by { assert Effect(s, t, s'); EffectList(s, t, s'); }
    var p := Of(s, t);
    if p.Idle? {
      BeginOk(s, ring, t, m, s');
    } else if p.Back? {
      IdleOk(s', ring, t);
    } else if InScan(p) {
      ScanOk(s, ring, t, s');
    } else if InMake(p) {
      MakeOk(s, ring, t, m, s');
    } else {
      ForkingOk(s, ring, t, m, s');
    }
  }

  lemma EffectList(s: State, t: Thread, s': State)
    requires Effect(s, t, s')
    ensures NeedsList(Of(s', t)) <==> s'.list == Some(t)
  {
  }

  lemma IdleOk(s: State, ring: seq<ArenaId>, t: Thread)
    requires Of(s, t) == Idle
    ensures PlaceOk(s, ring, t)
  {
  }

  lemma StepKeeps(s: State, ring: seq<ArenaId>, t: Thread, m: Move, s': State)
    requires Inv(s, ring) && Do(s, t, m) == Some(s')
    ensures |ring| > 0 && Inv(s', RingAfter(s, ring, t))
  {
    OneMember(s, ring);
    StepCycle(s, ring, t, m, s');
    StepNewLinks(s, ring, t, m, s');
    StepNewOwners(s, ring, t, m, s');
    StepThreads(s, ring, t, m, s');
    hide Cycle, ThreadOk, RingAfter, Do, MadeByHolder;
  }

  lemma StepThreads(s: State, ring: seq<ArenaId>, t: Thread, m: Move, s': State)
    requires Inv(s, ring) && Do(s, t, m) == Some(s')
    ensures |ring| > 0 && forall u {:trigger ThreadOk(s', RingAfter(s, ring, t), u)} :: ThreadOk(s', RingAfter(s, ring, t), u)
  {
    OneMember(s, ring);
    hide Cycle, ThreadOk, RingAfter, Do, MadeByHolder, Inv;
    forall u {:trigger ThreadOk(s', RingAfter(s, ring, t), u)}
      ensures ThreadOk(s', RingAfter(s, ring, t), u)
    {
      if u == t { MoverOk(s, ring, t, m, s'); } else { OtherOk(s, ring, t, m, s', u); }
    }
  }

  lemma OtherOk(s: State, ring: seq<ArenaId>, t: Thread, m: Move, s': State, u: Thread)
    requires Inv(s, ring) && Do(s, t, m) == Some(s') && u != t
    ensures |ring| > 0 && ThreadOk(s', RingAfter(s, ring, t), u)
  {
    OneMember(s, ring);
    StepFrames(s, ring, t, m, u);
    assert ThreadOk(s, ring, t) && ThreadOk(s, ring, u);
    hide Do, Framed, PlaceOk;
    if Of(s, t).Publish? {
      MakerOk(s, ring, t);
      OtherSeesInsertion(s, s', ring, Of(s, t).a, u);
    } else {
      OtherKeeps(s, s', ring, u);
    }
  }

  // ---- every run

  ghost predicate Reached(t: Thread, moves: seq<(Thread, Move)>, s: State) { Run(Boot(t), moves) == Some(s) }

  lemma BootOk(t: Thread)
    ensures Inv(Boot(t), [MAIN])
  {
    hide Left, Index;
    var s, ring := Boot(t), [MAIN];
    assert Cycle(s.next, ring) by { assert After(ring, 0) == MAIN; }
    forall u {:trigger ThreadOk(s, ring, u)}
      ensures ThreadOk(s, ring, u)
    {
      assert Of(s, u) == Idle;
    }
  }

  lemma {:induction false} RunKeeps(t: Thread, moves: seq<(Thread, Move)>, s: State) returns (ring: seq<ArenaId>)
    requires Reached(t, moves, s)
    ensures Inv(s, ring)
  {
    hide Inv, Do, Boot, RingAfter;
    if |moves| == 0 {
      BootOk(t);
      ring := [MAIN];
    } else {
      var n := |moves| - 1;
      var was := Run(Boot(t), moves[..n]).value;
      ring := RunKeeps(t, moves[..n], was);
      StepKeeps(was, ring, moves[n].0, moves[n].1, s);
      ring := RingAfter(was, ring, moves[n].0);
    }
  }

  lemma ThreadIs(s: State, ring: seq<ArenaId>, u: Thread)
    requires Inv(s, ring)
    ensures ThreadOk(s, ring, u) && PlaceOk(s, ring, u)
  {
    assert Of(s, u) == Of(s, u);
  }

  // The arena that k links lead to from a.
  function Follow(next: map<ArenaId, ArenaId>, a: ArenaId, k: nat): Option<ArenaId> {
    if k == 0 then Some(a)
    else
      var b := Follow(next, a, k - 1);
      if b == None || b.value !in next then None else Some(next[b.value])
  }

  lemma {:induction false} FollowRing(next: map<ArenaId, ArenaId>, ring: seq<ArenaId>, k: nat)
    requires Cycle(next, ring) && k <= |ring|
    ensures Follow(next, MAIN, k) == Some(if k < |ring| then ring[k] else MAIN)
  {
    if k > 0 { FollowRing(next, ring, k - 1); }
  }

  // The links lead from main_arena once through the arenas of ring, and back.
  ghost predicate Round(next: map<ArenaId, ArenaId>, ring: seq<ArenaId>) {
    && |ring| > 0 && Distinct(ring) && Follow(next, MAIN, |ring|) == Some(MAIN)
    && forall k: nat {:trigger Follow(next, MAIN, k)} :: k < |ring| ==> Follow(next, MAIN, k) == Some(ring[k])
  }

  lemma CycleRound(next: map<ArenaId, ArenaId>, ring: seq<ArenaId>)
    requires Cycle(next, ring)
    ensures Round(next, ring)
  {
    forall k: nat {:trigger Follow(next, MAIN, k)} | k <= |ring|
      ensures Follow(next, MAIN, k) == Some(if k < |ring| then ring[k] else MAIN)
    {
      FollowRing(next, ring, k);
    }
    hide Follow;
    assert Follow(next, MAIN, |ring|) == Some(MAIN);
  }

  // The arenas that a thread remembers, or has been given, are in the ring.
  ghost predicate Published(s: State, ring: seq<ArenaId>, u: Thread) {
    && (u in s.tsd && !Making(Of(s, u), s.tsd[u]) ==> s.tsd[u] in ring)
    && (Of(s, u).Back? && Of(s, u).r != None ==> Of(s, u).r.value in ring)
  }

  // In every reachable state the links are one cycle through main_arena and every published arena.
  lemma OneCycle(t: Thread, moves: seq<(Thread, Move)>, s: State) returns (ring: seq<ArenaId>)
    requires Reached(t, moves, s)
    ensures Round(s.next, ring)
    ensures forall a {:trigger a in s.next} :: a in s.next ==> a in ring || MadeByHolder(s, a)
    ensures forall a {:trigger a in s.owner} :: a in s.owner ==> a in ring || MadeByHolder(s, a)
    ensures forall u {:trigger Of(s, u)} {:trigger Published(s, ring, u)} :: Published(s, ring, u)
  {
    ring := RunKeeps(t, moves, s);
    CycleRound(s.next, ring);
    var r := ring;
    hide Cycle, MadeByHolder, Round, Reached, Inv;
    forall u {:trigger Of(s, u)} {:trigger Published(s, r, u)}
      ensures Published(s, r, u)
    {
      ThreadIs(s, r, u);
      hide Left, Index, After;
    }
    OutsideRing(s, r) by { assert Inv(s, r); }
  }

  lemma OutsideRing(s: State, ring: seq<ArenaId>)
    requires Inv(s, ring)
    ensures forall a {:trigger a in s.next} :: a in s.next && a !in ring ==> MadeByHolder(s, a)
    ensures forall a {:trigger a in s.owner} :: a in s.owner && a !in ring ==> MadeByHolder(s, a)
  {
    hide Cycle, ThreadOk, MadeByHolder;
  }

  // The links are written by the holder of list_lock alone, and of the published arenas only main_arena's changes.
  lemma WrittenByHolder(t: Thread, moves: seq<(Thread, Move)>, s: State, u: Thread, m: Move, s': State)
    requires Reached(t, moves, s) && Do(s, u, m) == Some(s') && s'.next != s.next
    ensures s.list == Some(u) && s'.list == Some(u)
    ensures forall a {:trigger a in s'.next} :: a in s.next && a != MAIN ==> a in s'.next && s'.next[a] == s.next[a]
  {
    var ring := RunKeeps(t, moves, s);
    ThreadIs(s, ring, u);
    MakerOk(s, ring, u);
    OneMember(s, ring);
    hide Do, PlaceOk, Inv, Reached;
    StepEffect(s, u, m, s');
    StepLinks(s, u, m, s');
  }

  // The arena that a search has got is the one the thread will ask for first from then on.
  ghost predicate Remembers(s: State, u: Thread) {
    match Of(s, u)
    case Link(a) => u in s.tsd && s.tsd[u] == a
    case Publish(a) => u in s.tsd && s.tsd[u] == a
    case Leave(r) => r == None || (u in s.tsd && s.tsd[u] == r.value)
    case Back(r) => r == None || (u in s.tsd && s.tsd[u] == r.value)
    case _ => true
  }

  lemma BeginRemembers(s: State, u: Thread, m: Move, s': State)
    requires Begin(s, u, m) == Some(s') && Of(s, u).Idle?
    ensures Remembers(s', u)
  {
  }

  lemma ScanRemembers(s: State, u: Thread, s': State)
    requires Scan(s, u) == Some(s') && !Of(s, u).WaitMain?
    ensures Remembers(s', u)
  {
  }

  lemma MakeRemembers(s: State, u: Thread, m: Move, s': State)
    requires Make(s, u, m) == Some(s') && Remembers(s, u)
    ensures Remembers(s', u)
  {
  }

  lemma ForkingRemembers(s: State, u: Thread, m: Move, s': State)
    requires Forking(s, u, m) == Some(s')
    ensures Remembers(s', u)
  {
  }

  lemma StepRemembers(s: State, ring: seq<ArenaId>, v: Thread, m: Move, s': State, u: Thread)
    requires Inv(s, ring) && Do(s, v, m) == Some(s') && Remembers(s, u)
    ensures Remembers(s', u)
  {
    if u != v {
      StepFrames(s, ring, v, m, u);
      hide Do, Inv;
    } else {
      ThreadIs(s, ring, u);
      hide Begin, Scan, Make, Forking, Inv, Remembers;
      var p := Of(s, u);
      if p.Idle? {
        BeginRemembers(s, u, m, s');
      } else if p.Back? {
        IdleRemembers(s, u);
      } else if InScan(p) {
        ScanRemembers(s, u, s');
      } else if InMake(p) {
        MakeRemembers(s, u, m, s');
      } else {
        ForkingRemembers(s, u, m, s');
      }
    }
  }

  lemma IdleRemembers(s: State, u: Thread)
    ensures Remembers(At(s, u, Idle), u)
  {
  }

  lemma {:induction false} RunRemembers(t: Thread, moves: seq<(Thread, Move)>, s: State, u: Thread)
    requires Reached(t, moves, s)
    ensures Remembers(s, u)
  {
    hide Inv, Do, Boot, Remembers;
    if |moves| == 0 {
      assert Remembers(Boot(t), u) by { NewRemembers(t, u); }
    } else {
      var n := |moves| - 1;
      var was := Run(Boot(t), moves[..n]).value;
      RunRemembers(t, moves[..n], was, u);
      var ring := RunKeeps(t, moves[..n], was);
      StepRemembers(was, ring, moves[n].0, moves[n].1, s, u);
    }
  }

  lemma NewRemembers(t: Thread, u: Thread)
    ensures Remembers(Boot(t), u)
  {
  }

  // arena_get2 comes back with the arena locked by its caller and without list_lock, whatever way it took;
  // and it never follows a NULL link.
  lemma ComesBackLocked(t: Thread, moves: seq<(Thread, Move)>, s: State, u: Thread)
    requires Reached(t, moves, s)
    ensures Of(s, u).Back? ==> s.list != Some(u) && (Of(s, u).r != None ==> Owns(s, u, Of(s, u).r.value))
    ensures !Of(s, u).WaitMain? && (Of(s, u).Next? ==> Of(s, u).a in s.next) && (Of(s, u).First? ==> Of(s, u).start in s.next)
    ensures (Of(s, u).Back? || Of(s, u).Leave?) && Of(s, u).r != None ==> u in s.tsd && s.tsd[u] == Of(s, u).r.value
  {
    RunRemembers(t, moves, s, u);
    var ring := RunKeeps(t, moves, s);
    ThreadIs(s, ring, u);
    Linked(s, ring);
    hide Inv, Index, Left, After, Cycle, Reached;
    match Of(s, u)
    case Next(a, _, _, _) => Successor(s.next, ring, a);
    case First(a) => Successor(s.next, ring, a);
    case _ =>
  }

  // One scan tries no more mutexes than there are arenas in the ring.
  lemma ScanEnds(t: Thread, moves: seq<(Thread, Move)>, s: State, u: Thread) returns (ring: seq<ArenaId>)
    requires Reached(t, moves, s)
    ensures Round(s.next, ring)
    ensures (Of(s, u).Try? ==> Of(s, u).tried < |ring|) && (Of(s, u).Next? ==> Of(s, u).tried <= |ring|)
  {
    ring := RunKeeps(t, moves, s);
    ThreadIs(s, ring, u);
    CycleRound(s.next, ring);
    hide Inv, Index, After, Cycle, Reached, Round;
    match Of(s, u)
    case Try(a, start, _, _) => SomeLeft(ring, a, start);
    case Next(a, start, _, _) => SomeLeft(ring, a, start);
    case _ =>
  }

  lemma SomeLeft(ring: seq<ArenaId>, a: ArenaId, start: ArenaId)
    requires a in ring && start in ring
    ensures 0 < Left(ring, a, start) <= |ring|
  {
  }

  // After ptmalloc_lock_all the forking thread holds every arena's mutex, no other thread holds one or gets one,
  // and the ring stays as it is.
  lemma AloneAfterLockAll(t: Thread, moves: seq<(Thread, Move)>, s: State, u: Thread, v: Thread, m: Move)
    requires Reached(t, moves, s) && Of(s, u) == All
    ensures forall a {:trigger a in s.owner} :: (a in s.owner <==> a in s.next) && (a in s.owner ==> s.owner[a] == u)
    ensures v != u && Do(s, v, m) != None ==> Do(s, v, m).value.owner == s.owner && Do(s, v, m).value.next == s.next
  {
    var ring := RunKeeps(t, moves, s);
    hide Inv, Index, Left, After, Cycle, Reached, Do;
    forall a {:trigger a in s.owner}
      ensures (a in s.owner <==> a in s.next) && (a in s.owner ==> s.owner[a] == u)
    {
      HoldsAll(s, ring, u, a);
    }
    if v != u && Do(s, v, m) != None {
      ThreadIs(s, ring, u);
      HeldBack(s, ring, u, v, m, Do(s, v, m).value);
    }
  }

  lemma HoldsAll(s: State, ring: seq<ArenaId>, u: Thread, a: ArenaId)
    requires Inv(s, ring) && Of(s, u) == All
    ensures (a in s.owner <==> a in s.next) && (a in s.owner ==> s.owner[a] == u)
  {
    ThreadIs(s, ring, u);
    OutsideRing(s, ring);
    hide Inv, Left, After, Cycle;
    if a in ring {
      assert Owns(s, u, ring[Index(ring, a)]);
      Linked(s, ring);
      Successor(s.next, ring, a);
    }
  }

  lemma HeldBack(s: State, ring: seq<ArenaId>, u: Thread, v: Thread, m: Move, s': State)
    requires Inv(s, ring) && s.list == Some(u) && v != u && Do(s, v, m) == Some(s')
    requires forall a {:trigger a in s.owner} :: (a in s.owner <==> a in s.next) && (a in s.owner ==> s.owner[a] == u)
    ensures s'.owner == s.owner && s'.next == s.next
  {
    ThreadIs(s, ring, v);
    UnlocksOwn(s, ring, v);
    StepEffect(s, v, m, s');
    hide Do, PlaceOk, Inv, ThreadOk;
    var a :| Handled(s, v, s', a);
    if a !in s.owner && s'.owner == s.owner[a := v] { NoneToGet(s, ring, u, v, m, s', a); }
  }

  // Without list_lock a thread can only lock an arena of the ring.
  lemma NoneToGet(s: State, ring: seq<ArenaId>, u: Thread, v: Thread, m: Move, s': State, a: ArenaId)
    requires Inv(s, ring) && s.list == Some(u) && v != u && Do(s, v, m) == Some(s')
    requires (a in s.owner <==> a in s.next) && a !in s.owner
    ensures a !in s'.owner
  {
    if a in s'.owner {
      StepFrames(s, ring, v, m, u);
      MoverOk(s, ring, v, m, s');
      hide Do, PlaceOk, Inv;
      if a in ring { InNext(s, ring, a); } else { NewlyOwned(s, ring, v, m, s', a); }
    }
  }

  lemma InNext(s: State, ring: seq<ArenaId>, a: ArenaId)
    requires Inv(s, ring) && a in ring
    ensures a in s.next
  {
    Successor(s.next, ring, a);
  }

  // When ptmalloc_unlock_all gives back list_lock, it has given back every mutex.
  lemma UnlockAllReleases(t: Thread, moves: seq<(Thread, Move)>, s: State, u: Thread, a: ArenaId)
    requires Reached(t, moves, s) && Of(s, u) == Release
    ensures !Owns(s, u, a)
  {
    var ring := RunKeeps(t, moves, s);
    ThreadIs(s, ring, u);
    OutsideRing(s, ring);
    hide Inv, Left, After, Reached;
    if a in ring { assert ring[Index(ring, a)] == a; }
  }
}
