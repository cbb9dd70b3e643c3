/**
 The semaphore as it is built: a counter, an inner mutex and a condition variable, with spurious wake-ups and
 timeouts.  It is shown to be the atomic semaphore, clamped at one, that module MailboxProtocol relies on.
 */
module Semaphore {
  import opened Common
  import opened Paths

  datatype Pc =
    | Idle
    | WaitLock(timed: bool)  // lock the inner mutex
    | WaitTest(timed: bool)  // while (c <= 0)
    | WaitPark(timed: bool)  // cond_wait: release the mutex and park, in one step
    | Parked(timed: bool)
    | Woken(timed: bool)     // leaving cond_wait: lock the mutex again
    | Expired                // the same, the timed wait having run out
    | GiveUp                 // unlock, return SYS_ARCH_TIMEOUT
    | WaitTake               // c--
    | WaitUnlock             // unlock, return
    | SignalLock
    | SignalRaise            // c++
    | SignalClamp            // if (c > 1) c = 1
    | SignalWake             // broadcast
    | SignalUnlock           // unlock, return

  /** The effects of the calls, in the order in which they take place. */
  datatype Entry = Took(t: Tid) | Gave(t: Tid)

  /** The counter and the inner mutex, with the history and the calls that have returned. */
  datatype Sem = Sem(
    c: int,
    owner: Option<Tid>,
    log: seq<Entry>,
    granted: multiset<Tid>,    // waits that returned without a timeout
    signalled: multiset<Tid>)  // signals that returned

  datatype State = State(sem: Sem, pc: map<Tid, Pc>)

  datatype Act = CallWait(timed: bool) | CallSignal | Run | WakeSpuriously | TimeOut

  datatype Event = Event(t: Tid, act: Act)

  function At(s: State, t: Tid): Pc {
    if t in s.pc then s.pc[t] else Idle
  }

  function Init(count: nat): State {
    State(Sem(count, None, [], multiset{}, multiset{}), map[])
  }

  predicate NeedsMutex(pc: Pc) {
    pc.WaitLock? || pc.Woken? || pc.Expired? || pc.SignalLock?
  }

  predicate Blocked(sem: Sem, pc: Pc) {
    pc.Parked? || (NeedsMutex(pc) && sem.owner.Some?)
  }

  predicate Enabled(s: State, e: Event) {
    match e.act
    case CallWait(_) => At(s, e.t) == Idle
    case CallSignal => At(s, e.t) == Idle
    case Run => At(s, e.t) != Idle && !Blocked(s.sem, At(s, e.t))
    case WakeSpuriously => At(s, e.t).Parked?
    case TimeOut => At(s, e.t).Parked? && At(s, e.t).timed
  }

  function Effect(sem: Sem, t: Tid, pc: Pc): (Sem, Pc)
    requires pc != Idle && !Blocked(sem, pc)
  {
    match pc
    case WaitLock(timed) => (sem.(owner := Some(t)), WaitTest(timed))
    case WaitTest(timed) => (sem, if sem.c <= 0 then WaitPark(timed) else WaitTake)
    case WaitPark(timed) => (sem.(owner := None), Parked(timed))
    case Woken(timed) => (sem.(owner := Some(t)), WaitTest(timed))
    case Expired => (sem.(owner := Some(t)), GiveUp)
    case GiveUp => (sem.(owner := None), Idle)
    case WaitTake => (sem.(c := sem.c - 1, log := sem.log + [Took(t)]), WaitUnlock)
    case WaitUnlock => (sem.(owner := None, granted := sem.granted + multiset{t}), Idle)
    case SignalLock => (sem.(owner := Some(t)), SignalRaise)
    case SignalRaise => (sem.(c := sem.c + 1), SignalClamp)
    case SignalClamp => (sem.(c := if sem.c > 1 then 1 else sem.c, log := sem.log + [Gave(t)]), SignalWake)
    case SignalWake => (sem, SignalUnlock)
    case SignalUnlock => (sem.(owner := None, signalled := sem.signalled + multiset{t}), Idle)
  }

  /** pthread_cond_broadcast: whoever is parked is on its way back. */
  function WakeAll(pc: map<Tid, Pc>): map<Tid, Pc> {
    map t | t in pc :: if pc[t].Parked? then Woken(pc[t].timed) else pc[t]
  }

  function Next(s: State, e: Event): State
    requires Enabled(s, e)
  {
    match e.act
    case CallWait(timed) => State(s.sem, s.pc[e.t := WaitLock(timed)])
    case CallSignal => State(s.sem, s.pc[e.t := SignalLock])
    case WakeSpuriously => State(s.sem, s.pc[e.t := Woken(At(s, e.t).timed)])
    case TimeOut => State(s.sem, s.pc[e.t := Expired])
    case Run =>
      var (sem, pc) := Effect(s.sem, e.t, At(s, e.t));
      State(sem, (if At(s, e.t).SignalWake? then WakeAll(s.pc) else s.pc)[e.t := pc])
  }

  /** An enabled event and where it leads. */
  function StepOf(): (State, Event, State) -> bool {
    (s: State, e: Event, s': State) => Enabled(s, e) && s' == Next(s, e)
  }

  ghost predicate Reachable(count: nat, s: State) {
    Reaches(StepOf(), Init(count), s)
  }

  // ---------------------------------------------------------------- the atomic semaphore

  /** The counter an atomic semaphore has after these effects; None if one of them took from zero. */
  function Replay(count: nat, log: seq<Entry>): Option<nat> {
    if log == [] then Some(count)
    else
      var k := |log| - 1;
      match Replay(count, log[..k])
      case None => None
      case Some(v) =>
        if log[k].Gave? then Some(Signalled(v)) else if v > 0 then Some(v - 1) else None
  }

  /** Who took, and how often. */
  function Takers(log: seq<Entry>): multiset<Tid> {
    if log == [] then multiset{}
    else
      var k := |log| - 1;
      if log[k].Took? then Takers(log[..k]) + multiset{log[k].t} else Takers(log[..k])
  }

  function Givers(log: seq<Entry>): multiset<Tid> {
    if log == [] then multiset{}
    else
      var k := |log| - 1;
      if log[k].Gave? then Givers(log[..k]) + multiset{log[k].t} else Givers(log[..k])
  }

  /** The counter as others will see it: between the increment and the clamp the signal has not taken effect yet. */
  function Value(sem: Sem, holder: Pc): int {
    if holder.SignalClamp? then sem.c - 1 else sem.c
  }

  // ---------------------------------------------------------------- the invariant

  predicate Holds(pc: Pc) {
    pc.WaitTest? || pc.WaitPark? || pc.GiveUp? || pc.WaitTake? || pc.WaitUnlock? ||
    pc.SignalRaise? || pc.SignalClamp? || pc.SignalWake? || pc.SignalUnlock?
  }

  ghost predicate OwnerHolds(s: State) {
    forall t: Tid :: s.sem.owner == Some(t) <==> Holds(At(s, t))
  }

  predicate LocalFacts(sem: Sem, pc: Pc) {
    match pc
    case WaitPark(_) => sem.c == 0
    case WaitTake => sem.c > 0
    case SignalClamp => sem.c > 0
    case SignalWake => sem.c == 1
    case SignalUnlock => sem.c == 1
    case _ => true
  }

  /** The pc of the thread that holds the inner mutex. */
  function HolderPc(s: State): Pc {
    if s.sem.owner.Some? then At(s, s.sem.owner.value) else Idle
  }

  ghost predicate ParkedFacts(s: State) {
    forall t: Tid :: At(s, t).Parked? ==> s.sem.c == 0 || HolderPc(s).SignalClamp? || HolderPc(s).SignalWake?
  }

  /** The log replays to the counter; it holds the returned calls and the one that has yet to return. */
  predicate LogFacts(count: nat, sem: Sem, holder: Pc) {
    Value(sem, holder) >= 0 && Replay(count, sem.log) == Some(Value(sem, holder)) && CallFacts(sem, holder)
  }

  predicate Tally(log: seq<Entry>, granted: multiset<Tid>, signalled: multiset<Tid>) {
    Takers(log) == granted && Givers(log) == signalled
  }

  predicate CallFacts(sem: Sem, holder: Pc) {
    Tally(sem.log, if holder.WaitUnlock? then sem.granted + Owner(sem) else sem.granted,
          if holder.SignalWake? || holder.SignalUnlock? then sem.signalled + Owner(sem) else sem.signalled)
  }

  function Owner(sem: Sem): multiset<Tid> {
    if sem.owner.Some? then multiset{sem.owner.value} else multiset{}
  }

  ghost predicate Inv(count: nat, s: State) {
    && s.sem.c >= 0
    && OwnerHolds(s)
    && LocalFacts(s.sem, HolderPc(s))
    && ParkedFacts(s)
    && LogFacts(count, s.sem, HolderPc(s))
  }

  lemma OthersStay(s: State, e: Event)
    requires Enabled(s, e)
    ensures forall u: Tid :: u != e.t ==>
              (Holds(At(Next(s, e), u)) == Holds(At(s, u))) &&
              (At(Next(s, e), u) == At(s, u) ||
               (At(s, u).Parked? && At(s, e.t).SignalWake? && At(Next(s, e), u) == Woken(At(s, u).timed)))
    ensures At(s, e.t).SignalWake? && e.act.Run? ==> forall u: Tid :: !At(Next(s, e), u).Parked?
  {
  }

  /** Who holds the inner mutex after a step, and at which statement. */
  lemma HolderMoves(s: State, e: Event)
    requires Enabled(s, e) && OwnerHolds(s)
    ensures OwnerHolds(Next(s, e))
    ensures if Holds(At(Next(s, e), e.t)) then HolderPc(Next(s, e)) == At(Next(s, e), e.t)
            else if Holds(At(s, e.t)) then HolderPc(Next(s, e)) == Idle
            else HolderPc(Next(s, e)) == HolderPc(s)
    ensures Holds(At(s, e.t)) ==> HolderPc(s) == At(s, e.t) && s.sem.owner == Some(e.t)
    ensures Holds(At(Next(s, e), e.t)) && !Holds(At(s, e.t)) ==> s.sem.owner == None
    ensures !Holds(At(s, e.t)) && !Holds(At(Next(s, e), e.t)) ==> Next(s, e).sem == s.sem
  {
    OthersStay(s, e);
    assert s.sem.owner == Some(e.t) <==> Holds(At(s, e.t));
  }

  lemma LogGrows(count: nat, log: seq<Entry>, e: Entry)
    ensures Takers(log + [e]) == if e.Took? then Takers(log) + multiset{e.t} else Takers(log)
    ensures Givers(log + [e]) == if e.Gave? then Givers(log) + multiset{e.t} else Givers(log)
    ensures Replay(count, log).Some? ==>
              Replay(count, log + [e]) == var v := Replay(count, log).value;
                                          if e.Gave? then Some(Signalled(v)) else if v > 0 then Some(v - 1) else None
  {
    assert (log + [e])[..|log + [e]| - 1] == log;
  }

  function IfHolds(pc: Pc): Pc {
    if Holds(pc) then pc else Idle
  }

  lemma EffectKeepsReplay(count: nat, sem: Sem, t: Tid, pc: Pc)
    requires pc != Idle && !Blocked(sem, pc) && (Holds(pc) ==> LocalFacts(sem, pc))
    requires var v := Value(sem, IfHolds(pc)); v >= 0 && Replay(count, sem.log) == Some(v)
    ensures var (sem', pc') := Effect(sem, t, pc);
            var v := Value(sem', IfHolds(pc')); v >= 0 && Replay(count, sem'.log) == Some(v)
  {
    if pc.WaitTake? {
      LogGrows(count, sem.log, Took(t));
    } else if pc.SignalClamp? {
      LogGrows(count, sem.log, Gave(t));
    } else {
      assert Effect(sem, t, pc).0.log == sem.log;
    }
  }

  /** CallFacts before and after the statement pc. */
  predicate Calls(sem: Sem, pc: Pc) {
    CallFacts(sem, IfHolds(pc))
  }

  lemma TakeKeepsCalls(sem: Sem, t: Tid, pc: Pc)
    requires pc.WaitTake? && sem.owner == Some(t) && Calls(sem, pc)
    ensures var (sem', pc') := Effect(sem, t, pc); Calls(sem', pc')
  {
    LogGrows(0, sem.log, Took(t));
  }

  lemma GiveKeepsCalls(sem: Sem, t: Tid, pc: Pc)
    requires pc.SignalClamp? && sem.owner == Some(t) && Calls(sem, pc)
    ensures var (sem', pc') := Effect(sem, t, pc); Calls(sem', pc')
  {
    LogGrows(0, sem.log, Gave(t));
  }

  lemma ReturnKeepsCalls(sem: Sem, t: Tid, pc: Pc)
    requires (pc.WaitUnlock? || pc.SignalUnlock?) && sem.owner == Some(t) && Calls(sem, pc)
    ensures var (sem', pc') := Effect(sem, t, pc); Calls(sem', pc')
  {
    assert Owner(sem) == multiset{t};
  }

  /** Neither an effect nor a return. */
  predicate Quiet(pc: Pc) {
    pc != Idle && !pc.WaitTake? && !pc.SignalClamp? && !pc.WaitUnlock? && !pc.SignalUnlock? && !pc.SignalWake?
  }

  lemma QuietMoves(sem: Sem, t: Tid, pc: Pc)
    requires Quiet(pc) && !Blocked(sem, pc)
    ensures var (sem', pc') := Effect(sem, t, pc);
            && sem'.log == sem.log && sem'.granted == sem.granted && sem'.signalled == sem.signalled
            && (pc' == Idle || Quiet(pc') || pc'.WaitTake? || pc'.SignalClamp?)
  {
  }

  lemma QuietKeepsCalls(sem: Sem, pc: Pc, sem': Sem, pc': Pc)
    requires Quiet(pc) && Calls(sem, pc)
    requires sem'.log == sem.log && sem'.granted == sem.granted && sem'.signalled == sem.signalled
    requires pc' == Idle || Quiet(pc') || pc'.WaitTake? || pc'.SignalClamp?
    ensures Calls(sem', pc')
  {
    assert Tally(sem.log, sem.granted, sem.signalled);
  }

  lemma WakeKeepsCalls(sem: Sem, t: Tid, pc: Pc)
    requires pc.SignalWake? && Calls(sem, pc)
    ensures var (sem', pc') := Effect(sem, t, pc); Calls(sem', pc')
  {
    assert Effect(sem, t, pc) == (sem, SignalUnlock);
  }

  lemma EffectKeepsCalls(sem: Sem, t: Tid, pc: Pc)
    requires pc != Idle && !Blocked(sem, pc) && (Holds(pc) ==> sem.owner == Some(t)) && Calls(sem, pc)
    ensures var (sem', pc') := Effect(sem, t, pc); Calls(sem', pc')
  {
    if pc.WaitTake? {
      TakeKeepsCalls(sem, t, pc);
    } else if pc.SignalClamp? {
      GiveKeepsCalls(sem, t, pc);
    } else if pc.WaitUnlock? || pc.SignalUnlock? {
      ReturnKeepsCalls(sem, t, pc);
    } else if pc.SignalWake? {
      WakeKeepsCalls(sem, t, pc);
    } else {
      QuietMoves(sem, t, pc);
      var (sem', pc') := Effect(sem, t, pc);
      QuietKeepsCalls(sem, pc, sem', pc');
    }
  }

  lemma LogKept(count: nat, s: State, e: Event)
    requires Inv(count, s) && Enabled(s, e)
    ensures LogFacts(count, Next(s, e).sem, HolderPc(Next(s, e)))
  {
    HolderMoves(s, e);
    if e.act.Run? {
      EffectKeepsReplay(count, s.sem, e.t, At(s, e.t));
      EffectKeepsCalls(s.sem, e.t, At(s, e.t));
    }
  }

  lemma EffectKeepsLocal(sem: Sem, t: Tid, pc: Pc)
    requires pc != Idle && !Blocked(sem, pc) && sem.c >= 0 && (Holds(pc) ==> LocalFacts(sem, pc))
    ensures var (sem', pc') := Effect(sem, t, pc); sem'.c >= 0 && (Holds(pc') ==> LocalFacts(sem', pc'))
  {
  }

  lemma LocalKept(count: nat, s: State, e: Event)
    requires Inv(count, s) && Enabled(s, e)
    ensures Next(s, e).sem.c >= 0 && LocalFacts(Next(s, e).sem, HolderPc(Next(s, e)))
  {
    HolderMoves(s, e);
    if e.act.Run? {
      EffectKeepsLocal(s.sem, e.t, At(s, e.t));
    }
  }

  lemma ParkedKept(s: State, e: Event)
    requires OwnerHolds(s) && LocalFacts(s.sem, HolderPc(s)) && ParkedFacts(s) && Enabled(s, e)
    ensures ParkedFacts(Next(s, e))
  {
    OthersStay(s, e);
    HolderMoves(s, e);
    var s' := Next(s, e);
    forall t: Tid | At(s', t).Parked?
      ensures s'.sem.c == 0 || HolderPc(s').SignalClamp? || HolderPc(s').SignalWake?
    {
      assert t != e.t ==> At(s, t).Parked?;
    }
  }

  lemma StepKeepsInv(count: nat, s: State, e: Event)
    requires Inv(count, s) && Enabled(s, e)
    ensures Inv(count, Next(s, e))
  {
    HolderMoves(s, e);
    LocalKept(count, s, e);
    ParkedKept(s, e);
    LogKept(count, s, e);
  }

  lemma InitInv(count: nat)
    ensures Inv(count, Init(count))
  {
  }

  lemma ReachableInv(count: nat, s: State)
    requires Reachable(count, s)
    ensures Inv(count, s)
  {
    InitInv(count);
    forall s, e, s' | StepOf()(s, e, s') && Inv(count, s) ensures Inv(count, s') {
      StepKeepsInv(count, s, e);
    }
    Invariant(StepOf(), (s: State) => Inv(count, s), Init(count), s);
  }

  // ---------------------------------------------------------------- what callers may rely on

  /**
   Every run of the condition-variable semaphore is a run of the atomic one: its effects, each made by one call
   between its invocation and its return, replayed on an atomic counter, give the counter that is there.
   */
  lemma RefinesAtomicSemaphore(count: nat, s: State)
    requires Reachable(count, s)
    ensures Replay(count, s.sem.log) == Some(Value(s.sem, HolderPc(s)))
    ensures s.sem.owner == None ==> Value(s.sem, HolderPc(s)) == s.sem.c
    ensures s.sem.owner == None ==> Takers(s.sem.log) == s.sem.granted && Givers(s.sem.log) == s.sem.signalled
    ensures forall t: Tid :: At(s, t) == Idle ==>
              Takers(s.sem.log)[t] == s.sem.granted[t] && Givers(s.sem.log)[t] == s.sem.signalled[t]
    ensures s.sem.granted <= Takers(s.sem.log) && s.sem.signalled <= Givers(s.sem.log)
  {
    ReachableInv(count, s);
  }

  lemma {:induction false} ReplayCounts(count: nat, log: seq<Entry>)
    requires Replay(count, log).Some?
    ensures |Takers(log)| + Replay(count, log).value <= count + |Givers(log)|
  {
    if log != [] {
      ReplayCounts(count, log[..|log| - 1]);
    }
  }

  /** No token is invented: successful waits and the counter together never exceed the initial count and the signals. */
  lemma TokensAreNotInvented(count: nat, s: State)
    requires Reachable(count, s)
    ensures |s.sem.granted| + Value(s.sem, HolderPc(s)) <= count + |Givers(s.sem.log)|
    ensures s.sem.owner == None ==> |s.sem.granted| + s.sem.c <= count + |s.sem.signalled|
  {
    RefinesAtomicSemaphore(count, s);
    ReplayCounts(count, s.sem.log);
    assert Takers(s.sem.log) == s.sem.granted + (Takers(s.sem.log) - s.sem.granted);
  }

  /** Nobody is left parked beside a token, and a token is taken only when it is there. */
  lemma NobodyParkedBesideAToken(count: nat, s: State, t: Tid)
    requires Reachable(count, s)
    ensures At(s, t).Parked? && s.sem.owner == None ==> s.sem.c == 0
    ensures At(s, t).WaitTake? ==> s.sem.c > 0
  {
    ReachableInv(count, s);
    assert s.sem.owner == Some(t) <==> Holds(At(s, t));
  }

  /** A standstill: every call waits for the inner mutex or is parked. */
  ghost predicate Still(s: State) {
    forall t: Tid :: At(s, t) == Idle || Blocked(s.sem, At(s, t))
  }

  lemma StillMeansEmpty(count: nat, s: State)
    requires Inv(count, s) && Still(s)
    ensures s.sem.owner == None
    ensures forall t: Tid :: At(s, t) == Idle || (At(s, t).Parked? && s.sem.c == 0)
  {
    assert s.sem.owner.Some? ==> Holds(HolderPc(s));
    forall t: Tid ensures !Holds(At(s, t)) {
      assert At(s, t) == Idle || Blocked(s.sem, At(s, t));
    }
  }

  /** When no call can go on, the counter is zero and every call is a wait parked on the condition variable. */
  lemma StandstillMeansEmpty(count: nat, s: State)
    requires Reachable(count, s) && Still(s)
    ensures s.sem.owner == None
    ensures forall t: Tid :: At(s, t) == Idle || (At(s, t).Parked? && s.sem.c == 0)
  {
    ReachableInv(count, s);
    StillMeansEmpty(count, s);
  }

  /** The steps other than new calls of t. */
  function Uncalled(t: Tid): (State, Event, State) -> bool {
    (s: State, e: Event, s': State) => StepOf()(s, e, s') && !(e.t == t && (e.act.CallWait? || e.act.CallSignal?))
  }

  /** In a wait that has run out of time, or out of it again. */
  predicate OutOfTime(pc: Pc) {
    pc.Expired? || pc.GiveUp? || pc == Idle
  }

  /** What t has taken, given and returned from so far. */
  predicate Account(sem: Sem, t: Tid, took: nat, gave: nat, granted: nat) {
    Takers(sem.log)[t] == took && Givers(sem.log)[t] == gave && sem.granted[t] == granted
  }

  /** The statements of another thread leave t's account alone. */
  lemma OthersKeepAccount(sem: Sem, u: Tid, pc: Pc, t: Tid)
    requires u != t && pc != Idle && !Blocked(sem, pc)
    ensures Account(Effect(sem, u, pc).0, t, Takers(sem.log)[t], Givers(sem.log)[t], sem.granted[t])
  {
    match pc
    case WaitLock(_) =>
    case WaitTest(_) =>
    case WaitPark(_) =>
    case Woken(_) =>
    case Expired =>
    case GiveUp =>
    case WaitTake => LogGrows(0, sem.log, Took(u));
    case WaitUnlock =>
    case SignalLock =>
    case SignalRaise =>
    case SignalClamp => LogGrows(0, sem.log, Gave(u));
    case SignalWake =>
    case SignalUnlock =>
  }

  lemma StepKeepsAccount(s: State, e: Event, t: Tid, took: nat, gave: nat, granted: nat)
    requires Enabled(s, e) && Uncalled(t)(s, e, Next(s, e))
    requires OutOfTime(At(s, t)) && Account(s.sem, t, took, gave, granted)
    ensures OutOfTime(At(Next(s, e), t)) && Account(Next(s, e).sem, t, took, gave, granted)
  {
    OthersStay(s, e);
    if e.t != t && e.act.Run? {
      OthersKeepAccount(s.sem, e.t, At(s, e.t), t);
    }
  }

  /**
   A wait whose time has run out takes nothing any more, even if a token comes before it has the inner mutex back: all
   it can do is return, and not as granted.
   */
  lemma ExpiredTakesNothing(s: State, s': State, t: Tid)
    requires At(s, t) == Expired && Reaches(Uncalled(t), s, s')
    ensures OutOfTime(At(s', t)) && s'.sem.granted[t] == s.sem.granted[t]
    ensures Takers(s'.sem.log)[t] == Takers(s.sem.log)[t] && Givers(s'.sem.log)[t] == Givers(s.sem.log)[t]
  {
    var took, gave, granted := Takers(s.sem.log)[t], Givers(s.sem.log)[t], s.sem.granted[t];
    forall a, e, b | Uncalled(t)(a, e, b) && OutOfTime(At(a, t)) && Account(a.sem, t, took, gave, granted)
      ensures OutOfTime(At(b, t)) && Account(b.sem, t, took, gave, granted)
    {
      assert StepOf()(a, e, b);
      StepKeepsAccount(a, e, t, took, gave, granted);
    }
    Invariant(Uncalled(t), (a: State) => OutOfTime(At(a, t)) && Account(a.sem, t, took, gave, granted), s, s');
  }

  /** The counter after the statement pc: the two effects of the atomic semaphore, and otherwise nothing. */
  predicate Moved(pc: Pc, v: int, v': int) {
    if pc.WaitTake? then v > 0 && v' == v - 1
    else if pc.SignalClamp? then v >= 0 && v' == Signalled(v)
    else v' == v
  }

  lemma EffectMovesCounter(sem: Sem, t: Tid, pc: Pc)
    requires pc != Idle && !Blocked(sem, pc) && (Holds(pc) ==> LocalFacts(sem, pc))
    ensures var (sem', pc') := Effect(sem, t, pc); Moved(pc, Value(sem, IfHolds(pc)), Value(sem', IfHolds(pc')))
  {
  }

  lemma CounterMoves(count: nat, s: State, e: Event)
    requires Inv(count, s) && Enabled(s, e)
    ensures Moved(if e.act.Run? then At(s, e.t) else Idle,
                  Value(s.sem, HolderPc(s)), Value(Next(s, e).sem, HolderPc(Next(s, e))))
  {
    HolderMoves(s, e);
    if e.act.Run? {
      EffectMovesCounter(s.sem, e.t, At(s, e.t));
    }
  }

  // ---------------------------------------------------------------- the operations as code

  /** The calls that self makes. */
  function CallsOf(self: Tid): Event -> bool {
    (e: Event) => e.t == self && (e.act.CallWait? || e.act.CallSignal?)
  }

  /** What happens to self without being a statement of it: waking up and timing out included. */
  predicate Foreign(self: Tid, e: Event) {
    e.t != self || e.act.WakeSpuriously? || e.act.TimeOut?
  }

  /** What self may find itself at after the others have moved: a parked thread may be on its way back. */
  predicate Drifts(pc: Pc, pc': Pc) {
    pc' == pc || (pc.Parked? && (pc' == Woken(pc.timed) || (pc.timed && pc' == Expired)))
  }

  /** A foreign step moves self only if it is parked, and leaves the semaphore alone while self holds the mutex. */
  lemma OthersSpare(s: State, e: Event, self: Tid)
    requires OwnerHolds(s) && Enabled(s, e) && Foreign(self, e)
    ensures Drifts(At(s, self), At(Next(s, e), self))
    ensures Holds(At(s, self)) ==> Next(s, e).sem == s.sem
    ensures Holds(At(s, self)) && NoneParked(s) ==> NoneParked(Next(s, e))
  {
    OthersStay(s, e);
    if Holds(At(s, self)) {
      assert s.sem.owner == Some(self) && (e.t != self ==> !Holds(At(s, e.t)));
      forall u: Tid | NoneParked(s) ensures !At(Next(s, e), u).Parked? {
        assert !At(s, u).Parked? && !At(s, e.t).Parked?;
      }
    }
  }

  ghost predicate NoneParked(s: State) {
    forall t: Tid :: !At(s, t).Parked?
  }

  /** A foreign step that may happen. */
  function MayOf(self: Tid): (State, Event) -> bool {
    (s: State, e: Event) => Foreign(self, e) && Enabled(s, e)
  }

  function OthersOf(): Tid -> (State, Event) -> bool {
    (self: Tid) => MayOf(self)
  }

  function NextOf(): (State, Event) -> State {
    (s: State, e: Event) => if Enabled(s, e) then Next(s, e) else s
  }

  datatype Outcome = Taken | TimedOut | StillWaiting

  /** struct sys_sem, as its operations update it while the other threads move between any two of their statements. */
  class SysSem {
    var c: int
    var owner: Option<Tid>
    // What the transition system speaks of beside the semaphore itself.
    var log: seq<Entry>
    var granted: multiset<Tid>
    var signalled: multiset<Tid>
    var pc: map<Tid, Pc>
    // plan(n): what the other threads, the clock and the scheduler do at the n-th tick, before the horizon.
    const plan: nat -> seq<Event>
    const horizon: nat
    var ticks: nat
    // The run, and the states it passes through.
    ghost const count: nat
    ghost var run: seq<Event>
    ghost var path: seq<State>
    ghost var marks: seq<Tick<Tid>>

    function Content(): Sem
      reads this
    {
      Sem(c, owner, log, granted, signalled)
    }

    function Abs(): State
      reads this
    {
      State(Content(), pc)
    }

    function Doing(t: Tid): Pc
      reads this
    {
      if t in pc then pc[t] else Idle
    }

    /** At every tick so far the others have followed the plan. */
    ghost predicate Heedful()
      reads this
    {
      |marks| == ticks && Obeys(OthersOf(), NextOf(), UpTo(plan, horizon), run, path, marks)
    }

    /** The object is where its run leads. */
    ghost predicate Valid()
      reads this
    {
      IsPath(StepOf(), Init(count), run, path) && Heedful() && path[|run|] == Abs()
    }

    /** self's call goes no further: it is parked or needs the mutex, and the others have nothing left to do. */
    predicate Stranded(self: Tid)
      reads this
    {
      Doing(self) != Idle && Blocked(Content(), Doing(self)) && ticks >= horizon
    }

    /** How long the others will still move. */
    function Ahead(): nat
      reads this
    {
      if ticks < horizon then horizon - ticks else 0
    }

    lemma ValidIsReachable()
      requires Valid()
      ensures Reachable(count, Abs()) && Inv(count, Abs())
    {
      PathReaches(StepOf(), Init(count), run, path);
      ReachableInv(count, Abs());
    }

    /** What the operations need of that. */
    lemma HereIs(self: Tid)
      requires Valid()
      ensures c >= 0 && (Holds(Doing(self)) ==> owner == Some(self) && LocalFacts(Content(), Doing(self)))
    {
      ValidIsReachable();
      assert At(Abs(), self) == Doing(self);
    }

    /** The run has grown, and self's calls meanwhile are these. */
    twostate predicate Grew(self: Tid, calls: seq<Event>)
      reads this
    {
      Goes(CallsOf(self), old(run), run, calls) && old(path) <= path && old(ticks) <= ticks
    }

    constructor (count: nat, plan: nat -> seq<Event>, horizon: nat)
      ensures Valid() && Abs() == Init(count) && run == []
      ensures this.plan == plan && this.horizon == horizon && ticks == 0
    {
      c, owner, log, granted, signalled, pc := count, None, [], multiset{}, multiset{}, map[];
      this.plan, this.horizon, ticks, this.count := plan, horizon, 0, count;
      run, path, marks := [], [Init(count)], [];
    }

    /** The run grows by the step e, which led from s to here. */
    ghost method Record(s: State, e: Event, self: Tid)
      requires IsPath(StepOf(), Init(count), run, path) && path[|run|] == s && Enabled(s, e) && Abs() == Next(s, e)
      requires Heedful()
      modifies this`run, this`path
      ensures Valid() && Grew(self, if CallsOf(self)(e) then [e] else []) && run == old(run) + [e]
    {
      PathGrows(StepOf(), Init(count), run, path, e, Abs());
      GoesOneStep(CallsOf(self), run, e);
      ObeysMore(OthersOf(), NextOf(), UpTo(plan, horizon), run, path, marks, run + [e], path + [Abs()]);
      run, path := run + [e], path + [Abs()];
    }

    /** Time passes: the others follow the plan; impossible steps are passed over. */
    method World(self: Tid)
      requires Valid()
      modifies this
      ensures Valid() && Grew(self, []) && Drifts(old(Doing(self)), Doing(self)) && ticks == old(ticks) + 1
      ensures Holds(old(Doing(self))) ==> Content() == old(Content())
      ensures Holds(old(Doing(self))) && old(NoneParked(Abs())) ==> NoneParked(Abs())
      ensures old(ticks) >= horizon ==> Abs() == old(Abs())
    {
      ghost var from := |run|;
      Follow(self);
      ObeysTick(OthersOf(), NextOf(), UpTo(plan, horizon), run, path, marks, self, from);
      ticks := ticks + 1;
      marks := marks + [Tick(self, from)];
    }

    method Follow(self: Tid)
      requires Valid()
      modifies this
      ensures Valid() && Grew(self, []) && Drifts(old(Doing(self)), Doing(self))
      ensures ticks == old(ticks) && marks == old(marks)
      ensures Holds(old(Doing(self))) ==> Content() == old(Content())
      ensures Holds(old(Doing(self))) && old(NoneParked(Abs())) ==> NoneParked(Abs())
      ensures ticks >= horizon ==> Abs() == old(Abs())
      ensures run == old(run) + Heeded(MayOf(self), NextOf(), old(Abs()), UpTo(plan, horizon)(ticks))
    {
      ghost var s := Abs();
      var schedule := UpTo(plan, horizon)(ticks);
      var k := 0;
      while k < |schedule|
        invariant 0 <= k <= |schedule| && ticks == old(ticks) && marks == old(marks)
        invariant Valid() && Grew(self, []) && Drifts(old(Doing(self)), Doing(self))
        invariant Holds(old(Doing(self))) ==> Content() == old(Content())
        invariant Holds(old(Doing(self))) && old(NoneParked(Abs())) ==> NoneParked(Abs())
        invariant Abs() == After(MayOf(self), NextOf(), s, schedule[..k])
        invariant run == old(run) + Heeded(MayOf(self), NextOf(), s, schedule[..k])
      {
        OneMore(MayOf(self), NextOf(), s, schedule, k);
        Heed(self, schedule[k]);
        k := k + 1;
      }
      assert schedule[..k] == schedule;
    }

    method Heed(self: Tid, e: Event)
      requires Valid()
      modifies this
      ensures Valid() && Grew(self, []) && Drifts(old(Doing(self)), Doing(self))
      ensures ticks == old(ticks) && marks == old(marks)
      ensures Holds(old(Doing(self))) ==> Content() == old(Content())
      ensures Holds(old(Doing(self))) && old(NoneParked(Abs())) ==> NoneParked(Abs())
      ensures if MayOf(self)(old(Abs()), e) then Abs() == NextOf()(old(Abs()), e) && run == old(run) + [e]
              else Abs() == old(Abs()) && run == old(run)
    {
      if Foreign(self, e) && Enabled(Abs(), e) {
        Other(self, e);
      }
    }

    method Other(self: Tid, e: Event)
      requires Valid() && Foreign(self, e) && Enabled(Abs(), e)
      modifies this
      ensures Valid() && Grew(self, []) && Drifts(old(Doing(self)), Doing(self))
      ensures ticks == old(ticks) && marks == old(marks) && Abs() == Next(old(Abs()), e) && run == old(run) + [e]
      ensures Holds(old(Doing(self))) ==> Content() == old(Content())
      ensures Holds(old(Doing(self))) && old(NoneParked(Abs())) ==> NoneParked(Abs())
    {
      ghost var s := Abs();
      OwnerIsInside();
      OthersSpare(s, e, self);
      Become(Next(Abs(), e));
      Record(s, e, self);
    }

    lemma OwnerIsInside()
      requires Valid()
      ensures OwnerHolds(Abs())
    {
      ValidIsReachable();
    }

    method Become(s: State)
      modifies this`c, this`owner, this`log, this`granted, this`signalled, this`pc
      ensures Abs() == s
    {
      c, owner, log, pc := s.sem.c, s.sem.owner, s.sem.log, s.pc;
      granted, signalled := s.sem.granted, s.sem.signalled;
    }

    // -------------------------------------------------------------- single statements

    method Call(self: Tid, act: Act, begin: Pc)
      requires Valid() && Doing(self) == Idle && (act.CallWait? || act.CallSignal?)
      requires begin == if act.CallWait? then WaitLock(act.timed) else SignalLock
      modifies this`pc, this`run, this`path
      ensures Valid() && Grew(self, [Event(self, act)]) && Doing(self) == begin && |run| == |old(run)| + 1
    {
      ghost var s := Abs();
      pc := pc[self := begin];
      Record(s, Event(self, act), self);
    }

    /** Lock the inner mutex, which is free. */
    method Lock(self: Tid, next: Pc)
      requires Valid() && NeedsMutex(Doing(self)) && owner == None
      requires Effect(Content(), self, Doing(self)).1 == next
      modifies this`owner, this`pc, this`run, this`path
      ensures Valid() && Grew(self, []) && Doing(self) == next && Holds(next)
    {
      ghost var s := Abs();
      owner, pc := Some(self), pc[self := next];
      Record(s, Event(self, Run), self);
    }

    /** A test, made under the mutex. */
    method Turn(self: Tid, next: Pc)
      requires Valid() && Doing(self) != Idle && !Blocked(Content(), Doing(self)) && !Doing(self).SignalWake?
      requires Effect(Content(), self, Doing(self)) == (Content(), next)
      modifies this`pc, this`run, this`path
      ensures Valid() && Grew(self, []) && Doing(self) == next
    {
      ghost var s := Abs();
      pc := pc[self := next];
      Record(s, Event(self, Run), self);
    }

    /** Park on the condition variable, giving the mutex up, or give it up for good after a timeout. */
    method Unlock(self: Tid, next: Pc)
      requires Valid() && (Doing(self).WaitPark? || Doing(self).GiveUp?)
      requires next == if Doing(self).WaitPark? then Parked(Doing(self).timed) else Idle
      modifies this`owner, this`pc, this`run, this`path
      ensures Valid() && Grew(self, []) && Doing(self) == next && owner == None
    {
      ghost var s := Abs();
      owner, pc := None, pc[self := next];
      Record(s, Event(self, Run), self);
    }

    /** The decrement. */
    method Decrement(self: Tid)
      requires Valid() && Doing(self) == WaitTake
      modifies this`c, this`log, this`pc, this`run, this`path
      ensures Valid() && Grew(self, []) && Doing(self) == WaitUnlock
      ensures c == old(c) - 1 && log == old(log) + [Took(self)]
    {
      ghost var s := Abs();
      c, log, pc := c - 1, log + [Took(self)], pc[self := WaitUnlock];
      Record(s, Event(self, Run), self);
    }

    /** The wait returns. */
    method ReturnWait(self: Tid)
      requires Valid() && Doing(self) == WaitUnlock
      modifies this`owner, this`granted, this`pc, this`run, this`path
      ensures Valid() && Grew(self, []) && Doing(self) == Idle
      ensures owner == None && granted == old(granted) + multiset{self}
    {
      ghost var s := Abs();
      owner, granted, pc := None, granted + multiset{self}, pc[self := Idle];
      Record(s, Event(self, Run), self);
    }

    /** The increment. */
    method Increment(self: Tid)
      requires Valid() && Doing(self) == SignalRaise
      modifies this`c, this`pc, this`run, this`path
      ensures Valid() && Grew(self, []) && Doing(self) == SignalClamp && c == old(c) + 1
    {
      ghost var s := Abs();
      c, pc := c + 1, pc[self := SignalClamp];
      Record(s, Event(self, Run), self);
    }

    /** The clamp. */
    method Clamp(self: Tid)
      requires Valid() && Doing(self) == SignalClamp
      modifies this`c, this`log, this`pc, this`run, this`path
      ensures Valid() && Grew(self, []) && Doing(self) == SignalWake && log == old(log) + [Gave(self)]
      ensures c == if old(c) > 1 then 1 else old(c)
    {
      ghost var s := Abs();
      c, log, pc := if c > 1 then 1 else c, log + [Gave(self)], pc[self := SignalWake];
      Record(s, Event(self, Run), self);
    }

    /** The broadcast. */
    method Broadcast(self: Tid)
      requires Valid() && Doing(self) == SignalWake
      modifies this`pc, this`run, this`path
      ensures Valid() && Grew(self, []) && Doing(self) == SignalUnlock && NoneParked(Abs())
    {
      ghost var s := Abs();
      pc := WakeAll(pc)[self := SignalUnlock];
      Record(s, Event(self, Run), self);
    }

    /** The signal returns. */
    method ReturnSignal(self: Tid)
      requires Valid() && Doing(self) == SignalUnlock
      modifies this`owner, this`signalled, this`pc, this`run, this`path
      ensures Valid() && Grew(self, []) && owner == None && signalled == old(signalled) + multiset{self}
      ensures Doing(self) == Idle && (old(NoneParked(Abs())) ==> NoneParked(Abs()))
    {
      ghost var s := Abs();
      owner, signalled, pc := None, signalled + multiset{self}, pc[self := Idle];
      assert forall t: Tid :: At(Abs(), t) == if t == self then Idle else At(s, t);
      Record(s, Event(self, Run), self);
    }

    // -------------------------------------------------------------- sys_sem_signal

    /**
     sys_sem_signal.  at: where it begins its critical section.  When it returns the counter is one, the signal has
     taken effect once, nothing else is different from there, and nobody is parked.  Otherwise it waits, when the others
     have come to rest, for the inner mutex, which another thread has.
     */
    method Signal(self: Tid) returns (done: bool, ghost at: nat)
      requires Valid() && Doing(self) == Idle
      modifies this
      ensures Valid() && Grew(self, [Event(self, CallSignal)])
      ensures !done ==> Doing(self) == SignalLock && owner != None && Stranded(self)
      ensures done ==>
                && |old(run)| < at < |path| && At(path[at], self) == SignalRaise
                && Doing(self) == Idle && NoneParked(Abs())
                && Content() == path[at].sem.(c := 1, owner := None, log := path[at].sem.log + [Gave(self)],
                                              signalled := path[at].sem.signalled + multiset{self})
    {
      at := 0;
      done := Enter(self, CallSignal, SignalLock, SignalRaise);
      if done {
        World(self);
        at := |run|;
        SignalLocked(self);
      }
    }

    /** self calls an operation and waits for the inner mutex; ok: it has it and is at next. */
    method Enter(self: Tid, act: Act, begin: Pc, next: Pc) returns (ok: bool)
      requires Valid() && Doing(self) == Idle && (act.CallWait? || act.CallSignal?)
      requires begin == if act.CallWait? then WaitLock(act.timed) else SignalLock
      requires next == if act.CallWait? then WaitTest(act.timed) else SignalRaise
      modifies this
      ensures Valid() && Grew(self, [Event(self, act)]) && |old(run)| < |run|
      ensures if ok then Doing(self) == next else Doing(self) == begin && owner != None && Stranded(self)
    {
      Call(self, act, begin);
      AwaitMutex(self);
      ok := owner == None;
      if ok {
        Lock(self, next);
      }
    }

    /** The wait for the inner mutex, for as long as the others move. */
    method AwaitMutex(self: Tid)
      requires Valid() && NeedsMutex(Doing(self))
      modifies this
      ensures Valid() && Grew(self, []) && Doing(self) == old(Doing(self))
      ensures owner == None || Stranded(self)
    {
      World(self);
      while owner != None && ticks < horizon
        invariant Valid() && Grew(self, []) && Doing(self) == old(Doing(self))
        decreases horizon - ticks
      {
        World(self);
      }
    }

    /** The critical section of sys_sem_signal. */
    method SignalLocked(self: Tid)
      requires Valid() && Doing(self) == SignalRaise
      modifies this
      ensures Valid() && Grew(self, []) && Doing(self) == Idle && NoneParked(Abs())
      ensures Content() == old(Content()).(c := 1, owner := None, log := old(log) + [Gave(self)],
                                           signalled := old(signalled) + multiset{self})
    {
      HereIs(self);
      Increment(self);
      World(self);
      ClampAndReturn(self);
    }

    method ClampAndReturn(self: Tid)
      requires Valid() && Doing(self) == SignalClamp
      modifies this
      ensures Valid() && Grew(self, []) && Doing(self) == Idle && NoneParked(Abs())
      ensures Content() == old(Content()).(c := if old(c) > 1 then 1 else old(c), owner := None,
                                           log := old(log) + [Gave(self)],
                                           signalled := old(signalled) + multiset{self})
    {
      Clamp(self);
      World(self);
      WakeAndReturn(self);
    }

    method WakeAndReturn(self: Tid)
      requires Valid() && Doing(self) == SignalWake
      modifies this
      ensures Valid() && Grew(self, []) && Doing(self) == Idle && NoneParked(Abs())
      ensures Content() == old(Content()).(owner := None, signalled := old(signalled) + multiset{self})
    {
      Broadcast(self);
      World(self);
      ReturnSignal(self);
    }

    // -------------------------------------------------------------- sys_arch_sem_wait

    /**
     sys_arch_sem_wait.  at: where it makes its last test.  If it takes a token there was one there, and it takes
     exactly that; if it times out it was told to and takes nothing; otherwise it waits, when the others have come to
     rest, for the inner mutex, which another thread has, or is parked, and never beside a token while the mutex is
     free.
     */
    method Wait(self: Tid, timed: bool) returns (r: Outcome, ghost at: nat)
      requires Valid() && Doing(self) == Idle
      modifies this
      ensures Valid() && Grew(self, [Event(self, CallWait(timed))])
      ensures Waited(self, timed, r, at) && (r != StillWaiting ==> |old(run)| < at)
    {
      at := 0;
      r := StillWaiting;
      var ok := Enter(self, CallWait(timed), WaitLock(timed), WaitTest(timed));
      if ok {
        r, at := WaitLocked(self, timed);
      }
    }

    /** What a wait has come to, path[at] being where it made its last test or gave up. */
    ghost predicate Waited(self: Tid, timed: bool, r: Outcome, at: nat)
      reads this
    {
      match r
      case Taken =>
        && at < |path| && At(path[at], self) == WaitTest(timed) && path[at].sem.c > 0 && Doing(self) == Idle
        && Content() == path[at].sem.(c := path[at].sem.c - 1, owner := None, log := path[at].sem.log + [Took(self)],
                                      granted := path[at].sem.granted + multiset{self})
      case TimedOut =>
        && timed && at < |path| && At(path[at], self) == GiveUp && Doing(self) == Idle
        && Content() == path[at].sem.(owner := None)
      case StillWaiting => Stranded(self) && (owner == None ==> Doing(self).Parked? && c == 0)
    }

    method WaitLocked(self: Tid, timed: bool) returns (r: Outcome, ghost at: nat)
      requires Valid() && Doing(self) == WaitTest(timed)
      modifies this
      ensures Valid() && Grew(self, []) && Waited(self, timed, r, at) && |old(run)| <= at
    {
      World(self);
      r := AwaitToken(self, timed);
      at := |run|;
      LeaveWait(self, timed, r);
    }

    /** The end of the wait, whatever it is. */
    method LeaveWait(self: Tid, timed: bool, r: Outcome)
      requires Valid() && (r == Taken ==> Doing(self) == WaitTest(timed) && c > 0)
      requires r == TimedOut ==> timed && Doing(self) == GiveUp
      modifies this
      ensures Valid() && Grew(self, []) && (r == StillWaiting ==> Content() == old(Content()) && ticks == old(ticks))
      ensures match r
              case Taken =>
                && Doing(self) == Idle
                && Content() == old(Content()).(c := old(c) - 1, owner := None, log := old(log) + [Took(self)],
                                                granted := old(granted) + multiset{self})
              case TimedOut => Doing(self) == Idle && Content() == old(Content()).(owner := None)
              case StillWaiting => Doing(self) == old(Doing(self))
    {
      if r == Taken {
        TakeToken(self, timed);
      } else if r == TimedOut {
        Unlock(self, Idle);
      }
    }

    /** The loop: Taken when there is a token, TimedOut when there is no time left, both under the mutex. */
    method AwaitToken(self: Tid, timed: bool) returns (r: Outcome)
      requires Valid() && Doing(self) == WaitTest(timed)
      modifies this
      ensures Valid() && Grew(self, [])
      ensures match r
              case Taken => Doing(self) == WaitTest(timed) && c > 0
              case TimedOut => timed && Doing(self) == GiveUp
              case StillWaiting => Stranded(self) && (owner == None ==> Doing(self).Parked? && c == 0)
    {
      while c <= 0
        invariant Valid() && Grew(self, []) && Doing(self) == WaitTest(timed)
        decreases Ahead()
      {
        Park(self, timed);
        r := Sleep(self, timed);
        if r != Taken {
          return;
        }
      }
      r := Taken;
    }

    /** Into the wait on the condition variable. */
    method Park(self: Tid, timed: bool)
      requires Valid() && Doing(self) == WaitTest(timed) && c <= 0
      modifies this
      ensures Valid() && Grew(self, []) && Doing(self) == Parked(timed)
    {
      Turn(self, WaitPark(timed));
      World(self);
      Unlock(self, Parked(timed));
    }

    /** On the condition variable for as long as the others move, and out of it; Taken: to the test again. */
    method Sleep(self: Tid, timed: bool) returns (r: Outcome)
      requires Valid() && Doing(self) == Parked(timed)
      modifies this
      ensures Valid() && Grew(self, []) && (r == Taken ==> old(ticks) < horizon && ticks > old(ticks))
      ensures match r
              case Taken => Doing(self) == WaitTest(timed)
              case TimedOut => timed && Doing(self) == GiveUp
              case StillWaiting => Stranded(self) && (owner == None ==> Doing(self).Parked? && c == 0)
    {
      World(self);
      while Doing(self).Parked? && ticks < horizon
        invariant Valid() && Grew(self, []) && Drifts(Parked(timed), Doing(self)) && ticks > old(ticks)
        invariant old(ticks) >= horizon ==> Doing(self).Parked?
        decreases horizon - ticks
      {
        World(self);
      }
      if Doing(self).Parked? {
        ParkedForAReason(self);
        r := StillWaiting;
      } else {
        r := WakeUp(self, timed);
      }
    }

    lemma ParkedForAReason(self: Tid)
      requires Valid() && Doing(self).Parked?
      ensures owner == None ==> c == 0
    {
      ValidIsReachable();
      assert At(Abs(), self).Parked?;
    }

    /** The mutex again, and then back to the test, or to the end. */
    method WakeUp(self: Tid, timed: bool) returns (r: Outcome)
      requires Valid() && Drifts(Parked(timed), Doing(self)) && !Doing(self).Parked?
      modifies this
      ensures Valid() && Grew(self, [])
      ensures match r
              case Taken => Doing(self) == WaitTest(timed)
              case TimedOut => timed && Doing(self) == GiveUp
              case StillWaiting => Stranded(self) && owner != None
    {
      AwaitMutex(self);
      if owner != None {
        r := StillWaiting;
      } else if Doing(self).Expired? {
        LockOn(self, GiveUp);
        r := TimedOut;
      } else {
        LockOn(self, WaitTest(timed));
        r := Taken;
      }
    }

    method LockOn(self: Tid, next: Pc)
      requires Valid() && NeedsMutex(Doing(self)) && owner == None && Effect(Content(), self, Doing(self)).1 == next
      modifies this
      ensures Valid() && Grew(self, []) && Doing(self) == next
    {
      Lock(self, next);
      World(self);
    }

    /** The rest of a wait that has found a token. */
    method TakeToken(self: Tid, timed: bool)
      requires Valid() && Doing(self) == WaitTest(timed) && c > 0
      modifies this
      ensures Valid() && Grew(self, []) && Doing(self) == Idle
      ensures Content() == old(Content()).(c := old(c) - 1, owner := None, log := old(log) + [Took(self)],
                                           granted := old(granted) + multiset{self})
    {
      Turn(self, WaitTake);
      World(self);
      DecrementAndReturn(self);
    }

    method DecrementAndReturn(self: Tid)
      requires Valid() && Doing(self) == WaitTake
      modifies this
      ensures Valid() && Grew(self, []) && Doing(self) == Idle
      ensures Content() == old(Content()).(c := old(c) - 1, owner := None, log := old(log) + [Took(self)],
                                           granted := old(granted) + multiset{self})
    {
      Decrement(self);
      World(self);
      ReturnWait(self);
    }
  }
}
