/**
 sys_arch_protect and sys_arch_unprotect: a mutex made re-entrant by an owner word and a depth counter.  The owner
 word is read without holding the mutex.  It is shown to be a re-entrant lock all the same.
 */
module LightweightLock {
  import opened Common
  import opened Paths

  datatype Pc =
    | Idle
    | ProtectTest     // if (lwprot_thread != self)
    | ProtectLock     //   lock the mutex
    | ProtectOwn      //   lwprot_thread = self
    | ProtectFirst    //   lwprot_count = 1, return
    | ProtectAgain    // else lwprot_count++, return
    | UnprotectTest   // if (lwprot_thread == self)
    | UnprotectCount  //   lwprot_count--
    | UnprotectZero   //   if (lwprot_count == 0)
    | UnprotectDisown //     lwprot_thread = 0xDEAD
    | UnprotectUnlock //     unlock the mutex, return

  /** owner == None stands for 0xDEAD, which is no thread. */
  datatype Lock = Lock(owner: Option<Tid>, count: int, mutex: Option<Tid>)

  /** depth[t]: the protects that returned to t less the unprotects that did, an unprotect in excess not counting. */
  datatype State = State(lock: Lock, pc: map<Tid, Pc>, depth: map<Tid, nat>)

  datatype Act = Protect | Unprotect | Run

  datatype Event = Event(t: Tid, act: Act)

  function At(s: State, t: Tid): Pc {
    if t in s.pc then s.pc[t] else Idle
  }

  function Depth(s: State, t: Tid): nat {
    if t in s.depth then s.depth[t] else 0
  }

  function Init(): State {
    State(Lock(None, 0, None), map[], map[])
  }

  predicate Enabled(s: State, e: Event) {
    match e.act
    case Protect => At(s, e.t) == Idle
    case Unprotect => At(s, e.t) == Idle
    case Run => At(s, e.t) != Idle && (At(s, e.t) == ProtectLock ==> s.lock.mutex == None)
  }

  function Effect(l: Lock, t: Tid, pc: Pc): (Lock, Pc)
    requires pc != Idle
  {
    match pc
    case ProtectTest => (l, if l.owner != Some(t) then ProtectLock else ProtectAgain)
    case ProtectLock => (l.(mutex := Some(t)), ProtectOwn)
    case ProtectOwn => (l.(owner := Some(t)), ProtectFirst)
    case ProtectFirst => (l.(count := 1), Idle)
    case ProtectAgain => (l.(count := l.count + 1), Idle)
    case UnprotectTest => (l, if l.owner == Some(t) then UnprotectCount else Idle)
    case UnprotectCount => (l.(count := l.count - 1), UnprotectZero)
    case UnprotectZero => (l, if l.count == 0 then UnprotectDisown else Idle)
    case UnprotectDisown => (l.(owner := None), UnprotectUnlock)
    case UnprotectUnlock => (l.(mutex := None), Idle)
  }

  predicate Protecting(pc: Pc) {
    pc == ProtectTest || pc == ProtectLock || pc == ProtectOwn || pc == ProtectFirst || pc == ProtectAgain
  }

  /** A returning call changes its caller's depth: one up for protect, one down for unprotect, but never below 0. */
  function DepthAfter(depth: nat, pc: Pc, pc': Pc): nat {
    if pc' != Idle then depth
    else if Protecting(pc) then depth + 1
    else if depth > 0 then depth - 1
    else 0
  }

  function Next(s: State, e: Event): State
    requires Enabled(s, e)
  {
    match e.act
    case Protect => s.(pc := s.pc[e.t := ProtectTest])
    case Unprotect => s.(pc := s.pc[e.t := UnprotectTest])
    case Run =>
      var (lock, pc) := Effect(s.lock, e.t, At(s, e.t));
      State(lock, s.pc[e.t := pc], s.depth[e.t := DepthAfter(Depth(s, e.t), At(s, e.t), pc)])
  }

  /** An enabled event and where it leads. */
  function StepOf(): (State, Event, State) -> bool {
    (s: State, e: Event, s': State) => Enabled(s, e) && s' == Next(s, e)
  }

  ghost predicate Reachable(s: State) {
    Reaches(StepOf(), Init(), s)
  }

  // ---------------------------------------------------------------- the invariant, seen from one thread

  /** What the lock's words are when t is at pc having protected depth times. */
  predicate Facts(l: Lock, t: Tid, pc: Pc, depth: nat) {
    match pc
    case ProtectLock => depth == 0 && l.mutex != Some(t)
    case ProtectOwn => depth == 0 && l.mutex == Some(t) && l.owner == None
    case ProtectFirst => depth == 0 && l.mutex == Some(t) && l.owner == Some(t)
    case ProtectAgain => depth > 0 && Held(l, t, depth)
    case UnprotectCount => depth > 0 && Held(l, t, depth)
    case UnprotectZero => depth > 0 && Held(l, t, depth - 1)
    case UnprotectDisown => depth == 1 && Held(l, t, 0)
    case UnprotectUnlock => depth == 1 && l.mutex == Some(t) && l.owner == None
    case _ => if depth > 0 then Held(l, t, depth) else l.mutex != Some(t)
  }

  predicate Held(l: Lock, t: Tid, count: nat) {
    l.mutex == Some(t) && l.owner == Some(t) && l.count == count
  }

  ghost predicate Inv(s: State) {
    && (forall t: Tid :: Facts(s.lock, t, At(s, t), Depth(s, t)))
    && (s.lock.owner.Some? ==> s.lock.mutex == s.lock.owner)
  }

  lemma EffectKeepsFacts(l: Lock, t: Tid, pc: Pc, depth: nat)
    requires pc != Idle && Facts(l, t, pc, depth) && (pc == ProtectLock ==> l.mutex == None)
    requires l.owner.Some? ==> l.mutex == l.owner
    ensures var (l', pc') := Effect(l, t, pc);
            && Facts(l', t, pc', DepthAfter(depth, pc, pc'))
            && (l'.owner.Some? ==> l'.mutex == l'.owner)
            && (l' == l || (l.mutex in {None, Some(t)} && l'.mutex in {None, Some(t)}))
  {
  }

  lemma StepKeepsInv(s: State, e: Event)
    requires Inv(s) && Enabled(s, e)
    ensures Inv(Next(s, e))
  {
    var s' := Next(s, e);
    assert Facts(s.lock, e.t, At(s, e.t), Depth(s, e.t));
    if e.act.Run? {
      EffectKeepsFacts(s.lock, e.t, At(s, e.t), Depth(s, e.t));
    }
    forall u: Tid ensures Facts(s'.lock, u, At(s', u), Depth(s', u)) {
      assert Facts(s.lock, u, At(s, u), Depth(s, u));
      if u != e.t {
        assert At(s', u) == At(s, u) && Depth(s', u) == Depth(s, u);
      }
    }
  }

  lemma ReachableInv(s: State)
    requires Reachable(s)
    ensures Inv(s)
  {
    forall s, e, s' | StepOf()(s, e, s') && Inv(s) ensures Inv(s') {
      StepKeepsInv(s, e);
    }
    Invariant(StepOf(), (s: State) => Inv(s), Init(), s);
  }

  // ---------------------------------------------------------------- what callers may rely on

  /** The unsynchronised read is harmless: a thread finds itself in the owner word only if it holds the mutex. */
  lemma OwnerHoldsMutex(s: State, t: Tid)
    requires Reachable(s) && s.lock.owner == Some(t)
    ensures s.lock.mutex == Some(t)
  {
    ReachableInv(s);
  }

  /** Outside its calls a thread that protected holds the lock, counted exactly; one that did not holds nothing. */
  lemma CountIsNestingDepth(s: State, t: Tid)
    requires Reachable(s) && At(s, t) == Idle
    ensures Depth(s, t) > 0 <==> s.lock.owner == Some(t)
    ensures Depth(s, t) > 0 <==> s.lock.mutex == Some(t)
    ensures Depth(s, t) > 0 ==> s.lock.count == Depth(s, t)
  {
    ReachableInv(s);
    assert Facts(s.lock, t, At(s, t), Depth(s, t));
  }

  /** Critical sections exclude each other, whatever the nesting. */
  lemma SectionsExclude(s: State, t: Tid, u: Tid)
    requires Reachable(s) && Depth(s, t) > 0 && Depth(s, u) > 0
    ensures t == u
  {
    ReachableInv(s);
    assert Facts(s.lock, t, At(s, t), Depth(s, t));
    assert Facts(s.lock, u, At(s, u), Depth(s, u));
  }

  /** A step gives the mutex up exactly when it returns from the outermost unprotect. */
  lemma ReleasedAtOutermost(s: State, e: Event)
    requires Reachable(s) && Enabled(s, e)
    ensures s.lock.mutex.Some? && Next(s, e).lock.mutex == None <==>
            e.act == Run && !Protecting(At(s, e.t)) && At(Next(s, e), e.t) == Idle && Depth(s, e.t) == 1
    ensures Depth(s, e.t) == 1 && Depth(Next(s, e), e.t) == 0 ==> Next(s, e).lock.mutex == None
  {
    ReachableInv(s);
    assert Facts(s.lock, e.t, At(s, e.t), Depth(s, e.t));
  }

  /** An unprotect by a thread that did not protect returns at its first test and changes nothing. */
  lemma StrayUnprotectDoesNothing(s: State, t: Tid)
    requires Reachable(s) && At(s, t) == UnprotectTest && Depth(s, t) == 0
    ensures var s' := Next(s, Event(t, Run));
            At(s', t) == Idle && s'.lock == s.lock && forall u: Tid :: Depth(s', u) == Depth(s, u)
  {
    ReachableInv(s);
    assert Facts(s.lock, t, At(s, t), Depth(s, t));
  }

  // ---------------------------------------------------------------- the re-entrant lock it refines

  datatype Reentrant = Free | HeldBy(t: Tid, depth: nat)

  /** Who has the lock as far as the callers can tell: some thread whose calls have left it with a positive depth. */
  ghost predicate Shows(s: State, r: Reentrant) {
    match r
    case Free => forall t: Tid :: Depth(s, t) == 0
    case HeldBy(t, depth) => depth > 0 && Depth(s, t) == depth && forall u: Tid :: u != t ==> Depth(s, u) == 0
  }

  /** One atomic operation of a re-entrant lock. */
  predicate Atomic(r: Reentrant, t: Tid, r': Reentrant) {
    match r
    case Free => r' == HeldBy(t, 1)
    case HeldBy(h, depth) =>
      h == t && (r' == HeldBy(t, depth + 1) || r' == if depth > 1 then HeldBy(t, depth - 1) else Free)
  }

  /** In every reachable state the lock shows as free or as held by one thread. */
  lemma ShowsSomething(s: State) returns (r: Reentrant)
    requires Reachable(s)
    ensures Shows(s, r)
  {
    if t: Tid :| Depth(s, t) > 0 {
      r := HeldBy(t, Depth(s, t));
      forall u: Tid | u != t ensures Depth(s, u) == 0 {
        if Depth(s, u) > 0 {
          SectionsExclude(s, t, u);
        }
      }
    } else {
      r := Free;
    }
  }

  /** Every step either shows nothing or is one operation of the re-entrant lock by the thread that made it. */
  lemma RefinesReentrantLock(s: State, e: Event) returns (r: Reentrant, r': Reentrant)
    requires Reachable(s) && Enabled(s, e)
    ensures Shows(s, r) && Shows(Next(s, e), r')
    ensures r == r' || Atomic(r, e.t, r')
  {
    var s' := Next(s, e);
    ReachesOn(StepOf(), Init(), s, e, s');
    r := ShowsSomething(s);
    r' := ShowsSomething(s');
    assert forall u: Tid :: u != e.t ==> Depth(s', u) == Depth(s, u);
    assert Depth(s', e.t) == Depth(s, e.t) || Depth(s', e.t) == Depth(s, e.t) + 1 ||
           Depth(s', e.t) == Depth(s, e.t) - 1;
  }

  // ---------------------------------------------------------------- the operations as code

  /** The calls that self makes. */
  function CallsOf(self: Tid): Event -> bool {
    (e: Event) => e.t == self && !e.act.Run?
  }

  /** Another thread's step does not touch what self holds. */
  lemma OthersSpare(s: State, e: Event, self: Tid)
    requires Inv(s) && Enabled(s, e) && e.t != self
    ensures At(Next(s, e), self) == At(s, self) && Depth(Next(s, e), self) == Depth(s, self)
    ensures s.lock.mutex == Some(self) ==> Next(s, e).lock == s.lock
  {
    assert Facts(s.lock, e.t, At(s, e.t), Depth(s, e.t));
  }

  /** A step of another thread than self that may happen. */
  function MayOf(self: Tid): (State, Event) -> bool {
    (s: State, e: Event) => e.t != self && Enabled(s, e)
  }

  function OthersOf(): Tid -> (State, Event) -> bool {
    (self: Tid) => MayOf(self)
  }

  function NextOf(): (State, Event) -> State {
    (s: State, e: Event) => if Enabled(s, e) then Next(s, e) else s
  }

  /** The three words, as the operations update them; the others move between any two of their statements. */
  class Prot {
    var owner: Option<Tid>
    var count: int
    var mutex: Option<Tid>
    // What the transition system speaks of beside these.
    var pc: map<Tid, Pc>
    var depth: map<Tid, nat>
    // plan(n): the steps of the other threads at the n-th tick, before the horizon.
    const plan: nat -> seq<Event>
    const horizon: nat
    var ticks: nat
    // The run, and the states it passes through.
    ghost var run: seq<Event>
    ghost var path: seq<State>
    ghost var marks: seq<Tick<Tid>>

    function Words(): Lock
      reads this
    {
      Lock(owner, count, mutex)
    }

    function Abs(): State
      reads this
    {
      State(Words(), pc, depth)
    }

    function Doing(t: Tid): Pc
      reads this
    {
      if t in pc then pc[t] else Idle
    }

    /** How often t has protected. */
    function Nesting(t: Tid): nat
      reads this
    {
      if t in depth then depth[t] else 0
    }

    /** At every tick so far the others have followed the plan. */
    ghost predicate Heedful()
      reads this
    {
      |marks| == ticks && Obeys(OthersOf(), NextOf(), UpTo(plan, horizon), run, path, marks)
    }

    /** The object is where its run leads. */
    ghost predicate Valid()
      reads this
    {
      IsPath(StepOf(), Init(), run, path) && Heedful() && path[|run|] == Abs()
    }

    lemma ValidIsReachable()
      requires Valid()
      ensures Reachable(Abs()) && Inv(Abs())
    {
      PathReaches(StepOf(), Init(), run, path);
      ReachableInv(Abs());
    }

    /** What the operations need of that. */
    lemma HereIs(self: Tid)
      requires Valid()
      ensures Facts(Words(), self, Doing(self), Nesting(self))
    {
      ValidIsReachable();
      assert Facts(Abs().lock, self, At(Abs(), self), Depth(Abs(), self));
    }

    /** The run has grown, and self's calls meanwhile are these. */
    twostate predicate Grew(self: Tid, calls: seq<Event>)
      reads this
    {
      Goes(CallsOf(self), old(run), run, calls) && old(path) <= path
    }

    constructor (plan: nat -> seq<Event>, horizon: nat)
      ensures Valid() && Abs() == Init() && run == []
      ensures this.plan == plan && this.horizon == horizon && ticks == 0
    {
      owner, count, mutex, pc, depth := None, 0, None, map[], map[];
      this.plan, this.horizon, ticks, run, path, marks := plan, horizon, 0, [], [Init()], [];
    }

    /** The run grows by the step e, which led from s to here. */
    ghost method Record(s: State, e: Event, self: Tid)
      requires IsPath(StepOf(), Init(), run, path) && path[|run|] == s && Enabled(s, e) && Abs() == Next(s, e)
      requires Heedful()
      modifies this`run, this`path
      ensures Valid() && Grew(self, if CallsOf(self)(e) then [e] else []) && run == old(run) + [e]
    {
      PathGrows(StepOf(), Init(), run, path, e, Abs());
      GoesOneStep(CallsOf(self), run, e);
      ObeysMore(OthersOf(), NextOf(), UpTo(plan, horizon), run, path, marks, run + [e], path + [Abs()]);
      run, path := run + [e], path + [Abs()];
    }

    /** Time passes: the others follow the plan; impossible steps are passed over. */
    method World(self: Tid)
      requires Valid()
      modifies this
      ensures Valid() && Grew(self, []) && Doing(self) == old(Doing(self)) && Nesting(self) == old(Nesting(self))
      ensures old(mutex) == Some(self) ==> Words() == old(Words())
      ensures ticks == old(ticks) + 1
    {
      ghost var from := |run|;
      Follow(self);
      ObeysTick(OthersOf(), NextOf(), UpTo(plan, horizon), run, path, marks, self, from);
      ticks := ticks + 1;
      marks := marks + [Tick(self, from)];
    }

    method Follow(self: Tid)
      requires Valid()
      modifies this
      ensures Valid() && Grew(self, []) && Doing(self) == old(Doing(self)) && Nesting(self) == old(Nesting(self))
      ensures old(mutex) == Some(self) ==> Words() == old(Words())
      ensures ticks == old(ticks) && marks == old(marks)
      ensures run == old(run) + Heeded(MayOf(self), NextOf(), old(Abs()), UpTo(plan, horizon)(ticks))
    {
      ghost var s := Abs();
      var schedule := UpTo(plan, horizon)(ticks);
      var k := 0;
      while k < |schedule|
        invariant 0 <= k <= |schedule| && ticks == old(ticks) && marks == old(marks)
        invariant Valid() && Grew(self, []) && Doing(self) == old(Doing(self)) && Nesting(self) == old(Nesting(self))
        invariant old(mutex) == Some(self) ==> Words() == old(Words())
        invariant Abs() == After(MayOf(self), NextOf(), s, schedule[..k])
        invariant run == old(run) + Heeded(MayOf(self), NextOf(), s, schedule[..k])
      {
        OneMore(MayOf(self), NextOf(), s, schedule, k);
        if schedule[k].t != self && Enabled(Abs(), schedule[k]) {
          Other(self, schedule[k]);
        }
        k := k + 1;
      }
      assert schedule[..k] == schedule;
    }

    method Other(self: Tid, e: Event)
      requires Valid() && e.t != self && Enabled(Abs(), e)
      modifies this
      ensures Valid() && Grew(self, []) && Doing(self) == old(Doing(self)) && Nesting(self) == old(Nesting(self))
      ensures old(mutex) == Some(self) ==> Words() == old(Words())
      ensures ticks == old(ticks) && marks == old(marks) && Abs() == Next(old(Abs()), e) && run == old(run) + [e]
    {
      ghost var s := Abs();
      ValidIsReachable();
      OthersSpare(s, e, self);
      var s' := Next(Abs(), e);
      owner, count, mutex, pc, depth := s'.lock.owner, s'.lock.count, s'.lock.mutex, s'.pc, s'.depth;
      Record(s, e, self);
    }

    /** self calls protect or unprotect. */
    method Call(self: Tid, act: Act, begin: Pc)
      requires Valid() && Doing(self) == Idle && !act.Run?
      requires begin == if act.Protect? then ProtectTest else UnprotectTest
      modifies this`pc, this`run, this`path
      ensures Valid() && Grew(self, [Event(self, act)]) && Doing(self) == begin
    {
      ghost var s := Abs();
      pc := pc[self := begin];
      Record(s, Event(self, act), self);
    }

    /** The same, and the others move. */
    method Begin(self: Tid, act: Act, begin: Pc)
      requires Valid() && Doing(self) == Idle && !act.Run?
      requires begin == if act.Protect? then ProtectTest else UnprotectTest
      modifies this
      ensures Valid() && Grew(self, [Event(self, act)]) && Doing(self) == begin && Nesting(self) == old(Nesting(self))
    {
      Call(self, act, begin);
      World(self);
    }

    /** self's next statement, not the last of its call, turns the words into these. */
    method Turn(self: Tid, owner': Option<Tid>, count': int, mutex': Option<Tid>, next: Pc)
      requires Valid() && Doing(self) != Idle && next != Idle && (Doing(self) == ProtectLock ==> mutex == None)
      requires Effect(Words(), self, Doing(self)) == (Lock(owner', count', mutex'), next)
      modifies this`owner, this`count, this`mutex, this`pc, this`depth, this`run, this`path
      ensures Valid() && Grew(self, []) && Doing(self) == next && Nesting(self) == old(Nesting(self))
      ensures Words() == Lock(owner', count', mutex')
    {
      ghost var s := Abs();
      owner, count, mutex, pc, depth := owner', count', mutex', pc[self := next], depth[self := Nesting(self)];
      Record(s, Event(self, Run), self);
    }

    /** The last statement of a call. */
    method Return(self: Tid, count': int, mutex': Option<Tid>)
      requires Valid() && Doing(self) != Idle && Doing(self) != ProtectLock
      requires Effect(Words(), self, Doing(self)) == (Lock(owner, count', mutex'), Idle)
      modifies this`count, this`mutex, this`pc, this`depth, this`run, this`path
      ensures Valid() && Grew(self, []) && Doing(self) == Idle && count == count' && mutex == mutex'
      ensures Nesting(self) == DepthAfter(old(Nesting(self)), old(Doing(self)), Idle)
    {
      ghost var s := Abs();
      depth := depth[self := DepthAfter(Nesting(self), Doing(self), Idle)];
      count, mutex, pc := count', mutex', pc[self := Idle];
      Record(s, Event(self, Run), self);
    }

    /**
     sys_arch_protect.  When it returns self is one level deeper, holds the mutex, is the owner, and the count is its
     depth; otherwise it waits, when the others have come to rest, for the mutex, which another thread holds.
     */
    method Protect(self: Tid) returns (done: bool)
      requires Valid() && Doing(self) == Idle
      modifies this
      ensures Valid() && Grew(self, [Event(self, Act.Protect)])
      ensures done ==>
                && Doing(self) == Idle && Nesting(self) == old(Nesting(self)) + 1
                && Words() == Lock(Some(self), Nesting(self), Some(self))
      ensures !done ==> Doing(self) == ProtectLock && mutex.Some? && mutex != Some(self) && ticks >= horizon
      ensures !done ==> Nesting(self) == old(Nesting(self)) == 0
    {
      Begin(self, Act.Protect, ProtectTest);
      HereIs(self);
      if owner != Some(self) {
        Turn(self, owner, count, mutex, ProtectLock);
        done := Acquire(self);
      } else {
        Turn(self, owner, count, mutex, ProtectAgain);
        Deepen(self);
        done := true;
      }
    }

    /** The branch of a thread that does not hold the lock yet. */
    method Acquire(self: Tid) returns (done: bool)
      requires Valid() && Doing(self) == ProtectLock
      modifies this
      ensures Valid() && Grew(self, []) && old(Nesting(self)) == 0
      ensures done ==> Doing(self) == Idle && Nesting(self) == 1 && Words() == Lock(Some(self), 1, Some(self))
      ensures !done ==> Doing(self) == ProtectLock && mutex.Some? && mutex != Some(self) && Nesting(self) == 0
      ensures !done ==> ticks >= horizon
    {
      HereIs(self);
      AwaitMutex(self);
      HereIs(self);
      done := mutex == None;
      if done {
        Turn(self, owner, count, Some(self), ProtectOwn);
        World(self);
        Own(self);
      }
    }

    /** The wait for the mutex, for as long as the others move. */
    method AwaitMutex(self: Tid)
      requires Valid() && Doing(self) == ProtectLock
      modifies this
      ensures Valid() && Grew(self, []) && Doing(self) == ProtectLock && Nesting(self) == old(Nesting(self))
      ensures mutex == None || ticks >= horizon
    {
      World(self);
      while mutex != None && ticks < horizon
        invariant Valid() && Grew(self, []) && Doing(self) == ProtectLock && Nesting(self) == old(Nesting(self))
        decreases horizon - ticks
      {
        World(self);
      }
    }

    method Own(self: Tid)
      requires Valid() && Doing(self) == ProtectOwn
      modifies this
      ensures Valid() && Grew(self, []) && old(Nesting(self)) == 0
      ensures Doing(self) == Idle && Nesting(self) == 1 && Words() == Lock(Some(self), 1, Some(self))
    {
      HereIs(self);
      Turn(self, Some(self), count, mutex, ProtectFirst);
      World(self);
      Return(self, 1, mutex);
    }

    /** The branch of a thread that holds it. */
    method Deepen(self: Tid)
      requires Valid() && Doing(self) == ProtectAgain
      modifies this
      ensures Valid() && Grew(self, []) && Doing(self) == Idle && Nesting(self) == old(Nesting(self)) + 1
      ensures Words() == Lock(Some(self), Nesting(self), Some(self))
    {
      HereIs(self);
      World(self);
      Return(self, count + 1, mutex);
    }

    /**
     sys_arch_unprotect.  It always returns.  A thread that has not protected changes nothing; otherwise it is one level
     less deep, and has given the mutex up exactly if it was at the outermost.
     */
    method Unprotect(self: Tid)
      requires Valid() && Doing(self) == Idle
      modifies this
      ensures Valid() && Grew(self, [Event(self, Act.Unprotect)]) && Doing(self) == Idle
      ensures old(Nesting(self)) == 0 ==> Nesting(self) == 0 && mutex != Some(self)
      ensures old(Nesting(self)) == 1 ==> Nesting(self) == 0 && Words() == Lock(None, 0, None)
      ensures old(Nesting(self)) > 1 ==>
                Nesting(self) == old(Nesting(self)) - 1 && Words() == Lock(Some(self), Nesting(self), Some(self))
    {
      Begin(self, Act.Unprotect, UnprotectTest);
      HereIs(self);
      if owner == Some(self) {
        Turn(self, owner, count, mutex, UnprotectCount);
        Shallow(self);
      } else {
        Return(self, count, mutex);
      }
    }

    /** The branch of a thread that holds it. */
    method Shallow(self: Tid)
      requires Valid() && Doing(self) == UnprotectCount
      modifies this
      ensures Valid() && Grew(self, []) && Doing(self) == Idle && old(Nesting(self)) > 0
      ensures Nesting(self) == old(Nesting(self)) - 1
      ensures Words() == if Nesting(self) == 0 then Lock(None, 0, None) else Lock(Some(self), Nesting(self), Some(self))
    {
      HereIs(self);
      World(self);
      Turn(self, owner, count - 1, mutex, UnprotectZero);
      Leave(self);
    }

    /** The count says whether it was the outermost level. */
    method Leave(self: Tid)
      requires Valid() && Doing(self) == UnprotectZero && Nesting(self) > 0
      requires Words() == Lock(Some(self), Nesting(self) - 1, Some(self))
      modifies this
      ensures Valid() && Grew(self, []) && Doing(self) == Idle
      ensures Nesting(self) == old(Nesting(self)) - 1
      ensures Words() == if Nesting(self) == 0 then Lock(None, 0, None) else Lock(Some(self), Nesting(self), Some(self))
    {
      World(self);
      LeaveOrRelease(self);
    }

    method LeaveOrRelease(self: Tid)
      requires Valid() && Doing(self) == UnprotectZero && Nesting(self) > 0
      requires Words() == Lock(Some(self), Nesting(self) - 1, Some(self))
      modifies this
      ensures Valid() && Grew(self, []) && Doing(self) == Idle
      ensures Nesting(self) == old(Nesting(self)) - 1
      ensures Words() == if Nesting(self) == 0 then Lock(None, 0, None) else Lock(Some(self), Nesting(self), Some(self))
    {
      if count == 0 {
        Turn(self, owner, count, mutex, UnprotectDisown);
        Release(self);
      } else {
        Return(self, count, mutex);
      }
    }

    /** The outermost level. */
    method Release(self: Tid)
      requires Valid() && Doing(self) == UnprotectDisown && Words() == Lock(Some(self), 0, Some(self))
      modifies this
      ensures Valid() && Grew(self, []) && Doing(self) == Idle
      ensures Nesting(self) == DepthAfter(old(Nesting(self)), UnprotectUnlock, Idle)
      ensures Words() == Lock(None, 0, None)
    {
      World(self);
      Turn(self, None, 0, Some(self), UnprotectUnlock);
      Unlock(self);
    }

    /** Its last statement. */
    method Unlock(self: Tid)
      requires Valid() && Doing(self) == UnprotectUnlock && Words() == Lock(None, 0, Some(self))
      modifies this
      ensures Valid() && Grew(self, []) && Doing(self) == Idle
      ensures Nesting(self) == DepthAfter(old(Nesting(self)), UnprotectUnlock, Idle)
      ensures Words() == Lock(None, 0, None)
    {
      World(self);
      Return(self, count, None);
    }
  }
}
