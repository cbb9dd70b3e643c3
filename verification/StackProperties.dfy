/**
 What holds of the mailbox down to the condition variables, and exactly when.  Beside the simulation of module
 MailboxStack this needs its converse: a run of the mailbox without a timeout is one that the stack can make.
 */
module StackProperties {
  import opened Common
  import opened MailboxRing
  import opened MailboxStack
  import opened Paths
  import M = MailboxProtocol
  import P = MailboxProperties
  import R = MailboxRuns
  import S = Semaphore

  // ---------------------------------------------------------------- the mailbox's runs are runs of the stack

  /** Nobody is in a call of the semaphore. */
  ghost predicate Out(part: S.State) {
    part.sem.owner == None && forall t: Tid :: S.At(part, t) == S.Idle
  }

  ghost predicate AllOut(s: State) {
    forall w {:trigger Part(s, w)} :: Out(Part(s, w))
  }

  /** s, but with t in its call at inner and the semaphore's contents as given. */
  function Calling(s: State, t: Tid, sem: S.Sem, inner: S.Pc): State
    requires Uses(At(s, t)).Some?
  {
    var w := Uses(At(s, t)).value.on;
    Put(s, w, S.State(sem, Part(s, w).pc[t := inner]))
  }

  /** t is at a semaphore call that it will make. */
  ghost predicate AboutToCall(s: State, t: Tid) {
    && |s.words.slots| == SYS_MBOX_SIZE
    && Uses(At(s, t)).Some? && Out(Part(s, Uses(At(s, t)).value.on)) && !Local(s, t)
  }

  lemma ReachesStep(who: M.Callers, s0: State, s: State, e: Event, s': State)
    requires Reaches(StepOf(who), s0, s) && Steps(who, s, e, s')
    ensures Reaches(StepOf(who), s0, s')
  {
    ReachesOn(StepOf(who), s0, s, e, s');
  }

  lemma CallThen(who: M.Callers, s: State, t: Tid)
    requires AboutToCall(s, t)
    ensures var call := Uses(At(s, t)).value;
            Reaches(StepOf(who), s, Calling(s, t, Part(s, call.on).sem,
                                        if call.act.CallWait? then S.WaitLock(call.act.timed) else S.SignalLock))
  {
    var call := Uses(At(s, t)).value;
    var inner := if call.act.CallWait? then S.WaitLock(call.act.timed) else S.SignalLock;
    var s' := Calling(s, t, Part(s, call.on).sem, inner);
    assert S.At(Part(s, call.on), t) == S.Idle;
    ReachesItself(StepOf(who), s);
    assert Steps(who, s, Event(t, Run), s');
    ReachesStep(who, s, s, Event(t, Run), s');
  }

  lemma NobodyToWake(part: S.State, t: Tid, inner: S.Pc, inner': S.Pc)
    requires Out(part) && !inner.Parked?
    ensures S.WakeAll(part.pc[t := inner])[t := inner'] == part.pc[t := inner']
  {
    forall u: Tid | u in part.pc ensures !part.pc[u].Parked? {
      assert S.At(part, u) == S.Idle;
    }
  }

  /** The semaphore's part of a statement. */
  lemma PartGoesOn(part: S.State, t: Tid, sem: S.Sem, inner: S.Pc, sem': S.Sem, inner': S.Pc)
    requires Out(part) && inner != S.Idle && !S.Blocked(sem, inner) && S.Effect(sem, t, inner) == (sem', inner')
    ensures var here := S.State(sem, part.pc[t := inner]);
            && S.Enabled(here, S.Event(t, S.Run))
            && S.Next(here, S.Event(t, S.Run)) == S.State(sem', part.pc[t := inner'])
  {
    NobodyToWake(part, t, inner, inner');
    assert part.pc[t := inner][t := inner'] == part.pc[t := inner'];
  }

  lemma CallingIs(s: State, t: Tid, sem: S.Sem, inner: S.Pc)
    requires Uses(At(s, t)).Some? && inner != S.Idle
    ensures var here, w := Calling(s, t, sem, inner), Uses(At(s, t)).value.on;
            && here.words == s.words && At(here, t) == At(s, t) && !Local(here, t) && Inner(here, t) == inner
            && Part(here, w) == S.State(sem, Part(s, w).pc[t := inner])
  {
  }

  /** A statement of the call. */
  lemma CallSteps(who: M.Callers, s: State, t: Tid, sem: S.Sem, inner: S.Pc, sem': S.Sem, inner': S.Pc)
    requires AboutToCall(s, t) && inner != S.Idle && !S.Blocked(sem, inner) && S.Effect(sem, t, inner) == (sem', inner')
    ensures var w := Uses(At(s, t)).value.on;
            Steps(who, Calling(s, t, sem, inner), Event(t, Run),
                  Carry(Calling(s, t, sem, inner), t, S.State(sem', Part(s, w).pc[t := inner'])))
  {
    CallingIs(s, t, sem, inner);
    PartGoesOn(Part(s, Uses(At(s, t)).value.on), t, sem, inner, sem', inner');
  }

  lemma CallGoesOn(who: M.Callers, s: State, t: Tid, sem: S.Sem, inner: S.Pc, sem': S.Sem, inner': S.Pc)
    requires AboutToCall(s, t) && Reaches(StepOf(who), s, Calling(s, t, sem, inner))
    requires inner != S.Idle && !S.Blocked(sem, inner) && S.Effect(sem, t, inner) == (sem', inner') && inner' != S.Idle
    ensures Reaches(StepOf(who), s, Calling(s, t, sem', inner'))
  {
    CallSteps(who, s, t, sem, inner, sem', inner');
    ReachesStep(who, s, Calling(s, t, sem, inner), Event(t, Run), Calling(s, t, sem', inner'));
  }

  /** The last one. */
  lemma CallReturns(who: M.Callers, s: State, t: Tid, sem: S.Sem, inner: S.Pc, sem': S.Sem)
    requires AboutToCall(s, t) && Reaches(StepOf(who), s, Calling(s, t, sem, inner))
    requires (inner.WaitUnlock? || inner.SignalUnlock?) && S.Effect(sem, t, inner) == (sem', S.Idle)
    ensures Reaches(StepOf(who), s, Carry(s, t, S.State(sem', Part(s, Uses(At(s, t)).value.on).pc[t := S.Idle])))
  {
    var w := Uses(At(s, t)).value.on;
    CallSteps(who, s, t, sem, inner, sem', S.Idle);
    CallingIs(s, t, sem, inner);
    assert S.At(Part(s, w), t) == S.Idle;
    ReachesStep(who, s, Calling(s, t, sem, inner), Event(t, Run),
                Carry(s, t, S.State(sem', Part(s, w).pc[t := S.Idle])));
  }

  /** A wait that finds a token and nobody in its way. */
  lemma WaitAlone(who: M.Callers, s: State, t: Tid) returns (part: S.State)
    requires AboutToCall(s, t) && Uses(At(s, t)).value.act.CallWait? && Part(s, Uses(At(s, t)).value.on).sem.c > 0
    ensures Reaches(StepOf(who), s, Carry(s, t, part)) && part.pc == Part(s, Uses(At(s, t)).value.on).pc[t := S.Idle]
    ensures part.sem.owner == None && part.sem.c == Part(s, Uses(At(s, t)).value.on).sem.c - 1
  {
    var x, timed := Part(s, Uses(At(s, t)).value.on).sem, Uses(At(s, t)).value.act.timed;
    CallThen(who, s, t);
    var x1 := x.(owner := Some(t));
    CallGoesOn(who, s, t, x, S.WaitLock(timed), x1, S.WaitTest(timed));
    CallGoesOn(who, s, t, x1, S.WaitTest(timed), x1, S.WaitTake);
    var x2 := x1.(c := x.c - 1, log := x.log + [S.Took(t)]);
    CallGoesOn(who, s, t, x1, S.WaitTake, x2, S.WaitUnlock);
    var x3 := x2.(owner := None, granted := x2.granted + multiset{t});
    CallReturns(who, s, t, x2, S.WaitUnlock, x3);
    part := S.State(x3, Part(s, Uses(At(s, t)).value.on).pc[t := S.Idle]);
  }

  /** The sem of a signal that has had its effect. */
  function Raised(x: S.Sem, t: Tid): S.Sem {
    x.(owner := Some(t), c := if x.c + 1 > 1 then 1 else x.c + 1, log := x.log + [S.Gave(t)])
  }

  lemma SignalRaises(who: M.Callers, s: State, t: Tid)
    requires AboutToCall(s, t) && Uses(At(s, t)).value.act.CallSignal?
    ensures Reaches(StepOf(who), s, Calling(s, t, Raised(Part(s, Uses(At(s, t)).value.on).sem, t), S.SignalWake))
  {
    var x := Part(s, Uses(At(s, t)).value.on).sem;
    CallThen(who, s, t);
    var x1 := x.(owner := Some(t));
    CallGoesOn(who, s, t, x, S.SignalLock, x1, S.SignalRaise);
    var x2 := x1.(c := x.c + 1);
    CallGoesOn(who, s, t, x1, S.SignalRaise, x2, S.SignalClamp);
    CallGoesOn(who, s, t, x2, S.SignalClamp, Raised(x, t), S.SignalWake);
  }

  /** A signal with nobody in its way. */
  lemma SignalAlone(who: M.Callers, s: State, t: Tid) returns (part: S.State)
    requires AboutToCall(s, t) && Uses(At(s, t)).value.act.CallSignal?
    ensures Reaches(StepOf(who), s, Carry(s, t, part)) && part.pc == Part(s, Uses(At(s, t)).value.on).pc[t := S.Idle]
    ensures var c := Part(s, Uses(At(s, t)).value.on).sem.c;
            part.sem.owner == None && part.sem.c == if c + 1 > 1 then 1 else c + 1
  {
    var x := Part(s, Uses(At(s, t)).value.on).sem;
    SignalRaises(who, s, t);
    CallGoesOn(who, s, t, Raised(x, t), S.SignalWake, Raised(x, t), S.SignalUnlock);
    var x' := Raised(x, t).(owner := None, signalled := x.signalled + multiset{t});
    CallReturns(who, s, t, Raised(x, t), S.SignalUnlock, x');
    part := S.State(x', Part(s, Uses(At(s, t)).value.on).pc[t := S.Idle]);
  }

  // ---------------------------------------------------------------- step by step

  lemma OutIsSeen(s: State, t: Tid)
    requires AllOut(s)
    ensures Inner(s, t) == S.Idle && M.At(Abs(s), t) == At(s, t)
  {
    AbsAt(s, t);
    if Uses(At(s, t)).Some? {
      assert Out(Part(s, Uses(At(s, t)).value.on));
    }
  }

  lemma OutCounts(s: State, w: Which)
    requires Sound(s) && AllOut(s)
    ensures Counter(Part(s, w)) == Part(s, w).sem.c == CountOf(Abs(s).box, w)
  {
    assert PartSound(s, w) && Out(Part(s, w));
  }

  lemma OutPart(part: S.State, part': S.State, t: Tid)
    requires Out(part) && part'.pc == part.pc[t := S.Idle] && part'.sem.owner == None
    ensures Out(part') && PartMoves(part, part', t) && S.At(part', t) == S.Idle
  {
    forall u: Tid ensures S.At(part', u) == S.Idle && Stays(part, part', u) {
      assert S.At(part, u) == S.Idle;
    }
  }

  lemma CarryAllOut(s: State, t: Tid, part: S.State)
    requires AllOut(s) && Uses(At(s, t)).Some? && Out(part)
    ensures AllOut(Carry(s, t, part))
  {
    forall w ensures Out(Part(Carry(s, t, part), w)) {
      CarryAt(s, t, part, w);
      assert Out(Part(s, w));
    }
  }

  /** A whole semaphore call, for a statement of the mailbox that is one. */
  lemma CallRealizes(who: M.Callers, s: State, t: Tid) returns (s': State)
    requires Inv(s) && AllOut(s) && Uses(At(s, t)).Some? && !Local(s, t) && !M.Blocked(Abs(s).box, At(s, t))
    ensures Reaches(StepOf(who), s, s') && AllOut(s')
    ensures Follows(who, Abs(s), Some(M.Event(t, M.Run)), Abs(s'))
  {
    var call := Uses(At(s, t)).value;
    OutIsSeen(s, t);
    OutCounts(s, call.on);
    assert Out(Part(s, call.on));
    CallEffect(Abs(s).box, At(s, t));
    var part;
    if call.act.CallWait? {
      part := WaitAlone(who, s, t);
    } else {
      part := SignalAlone(who, s, t);
    }
    OutPart(Part(s, call.on), part, t);
    CarryAllOut(s, t, part);
    CarrySimulates(s, t, part);
    s' := Carry(s, t, part);
    EffectFollows(who, Abs(s), t, call, Counter(part));
  }

  lemma TurnAllOut(s: State, t: Tid, words: Words, pc: M.Pc)
    requires AllOut(s)
    ensures AllOut(Turn(s, t, words, pc))
  {
    forall w ensures Out(Part(Turn(s, t, words, pc), w)) {
      assert Out(Part(s, w));
    }
  }

  lemma StartRealizes(who: M.Callers, s: State, t: Tid, act: M.Act, act': Act)
    requires Inv(s) && AllOut(s) && M.Enabled(who, Abs(s), M.Event(t, act))
    requires match act
             case StartPost(block, msg) => act' == StartPost(block, msg)
             case StartFetch(req) => act' == StartFetch(req)
             case _ => false
    ensures Enabled(who, s, Event(t, act')) && AllOut(Next(who, s, Event(t, act')))
    ensures Follows(who, Abs(s), Some(M.Event(t, act)), Abs(Next(who, s, Event(t, act'))))
  {
    OutIsSeen(s, t);
    var s' := Next(who, s, Event(t, act'));
    StartSimulates(who, s, Event(t, act'));
    TurnAllOut(s, t, s.words, At(s', t));
    assert s' == Turn(s, t, s.words, At(s', t));
  }

  lemma LocalRealizes(who: M.Callers, s: State, t: Tid)
    requires Inv(s) && AllOut(s) && M.Exclusive(Abs(s)) && At(s, t) != M.Idle && Local(s, t)
    ensures Enabled(who, s, Event(t, Run)) && AllOut(Next(who, s, Event(t, Run)))
    ensures Follows(who, Abs(s), Some(M.Event(t, M.Run)), Abs(Next(who, s, Event(t, Run))))
  {
    OutIsSeen(s, t);
    var (words, pc) := Plain(s.words, At(s, t));
    LocalSimulates(who, s, Event(t, Run));
    TurnAllOut(s, t, words, pc);
  }

  /** A step of the mailbox, other than a timeout, is a run of the stack during which nobody else moves. */
  lemma StepRealizes(who: M.Callers, s: State, e: M.Event) returns (s': State)
    requires Inv(s) && AllOut(s) && M.Exclusive(Abs(s)) && M.Enabled(who, Abs(s), e) && !e.act.Expire?
    ensures Reaches(StepOf(who), s, s') && AllOut(s') && Follows(who, Abs(s), Some(e), Abs(s'))
  {
    OutIsSeen(s, e.t);
    ReachesItself(StepOf(who), s);
    if e.act.Run? && !Local(s, e.t) {
      s' := CallRealizes(who, s, e.t);
    } else {
      var act := match e.act
                 case StartPost(block, msg) => StartPost(block, msg)
                 case StartFetch(req) => StartFetch(req)
                 case _ => Run;
      if e.act.Run? {
        LocalRealizes(who, s, e.t);
      } else {
        StartRealizes(who, s, e.t, e.act, act);
      }
      s' := Next(who, s, Event(e.t, act));
      ReachesStep(who, s, s, Event(e.t, act), s');
    }
  }

  /** Every run of the mailbox without a timeout is, to its callers, a run of the stack. */
  lemma {:induction false} RunRealizes(who: M.Callers, garbage: seq<Msg>, run: seq<M.Event>, a: M.State)
    returns (s: State)
    requires |garbage| == SYS_MBOX_SIZE && RunsTo(R.StepInTime(who), M.Init(garbage), run, a)
    ensures Reaches(StepOf(who), Init(garbage), s) && Inv(s) && AllOut(s) && Abs(s) == a
    decreases |run|
  {
    if run == [] {
      s := Init(garbage);
      RunsNowhere(R.StepInTime(who), M.Init(garbage), a);
      InitInv(garbage);
      ReachesItself(StepOf(who), s);
      assert forall w {:trigger Part(s, w)} :: Out(Part(s, w));
    } else {
      var before := RunsBack(R.StepInTime(who), M.Init(garbage), run, a);
      var s0 := RunRealizes(who, garbage, run[..|run| - 1], before);
      InTimeExclusive(who, garbage, run[..|run| - 1], before);
      s := StepRealizes(who, s0, run[|run| - 1]);
      ReachesJoin(StepOf(who), Init(garbage), s0, s);
      assert Reachable(who, s);
      ReachableShadow(who, s);
    }
  }

  lemma InTimeExclusive(who: M.Callers, garbage: seq<Msg>, run: seq<M.Event>, a: M.State)
    requires |garbage| == SYS_MBOX_SIZE && RunsTo(R.StepInTime(who), M.Init(garbage), run, a)
    ensures M.Exclusive(a)
  {
    ReachesWider(R.StepInTime(who), M.StepOf(who), M.Init(garbage), a);
    M.RunKeepsInv(who, garbage, a);
  }

  lemma InTimeRealizes(who: M.Callers, a: M.State) returns (s: State)
    requires R.InTime(who, a)
    ensures Reachable(who, s) && Inv(s) && AllOut(s) && Abs(s) == a
  {
    var garbage :| |garbage| == SYS_MBOX_SIZE && Reaches(R.StepInTime(who), M.Init(garbage), a);
    var run :| RunsTo(R.StepInTime(who), M.Init(garbage), run, a);
    s := RunRealizes(who, garbage, run, a);
  }

  /** A wait that finds no token parks. */
  lemma ParkAlone(who: M.Callers, s: State, t: Tid) returns (s': State)
    requires Reachable(who, s) && AboutToCall(s, t)
    requires Uses(At(s, t)).value.act.CallWait? && Part(s, Uses(At(s, t)).value.on).sem.c == 0
    ensures var call := Uses(At(s, t)).value;
            Reachable(who, s') && s' == Calling(s, t, Part(s, call.on).sem, S.Parked(call.act.timed))
  {
    var x, timed := Part(s, Uses(At(s, t)).value.on).sem, Uses(At(s, t)).value.act.timed;
    CallThen(who, s, t);
    var x1 := x.(owner := Some(t));
    CallGoesOn(who, s, t, x, S.WaitLock(timed), x1, S.WaitTest(timed));
    CallGoesOn(who, s, t, x1, S.WaitTest(timed), x1, S.WaitPark(timed));
    CallGoesOn(who, s, t, x1, S.WaitPark(timed), x, S.Parked(timed));
    s' := Calling(s, t, x, S.Parked(timed));
    var garbage :| |garbage| == SYS_MBOX_SIZE && Reaches(StepOf(who), Init(garbage), s);
    ReachesJoin(StepOf(who), Init(garbage), s, s');
  }

  // ---------------------------------------------------------------- what follows for the mailbox as it runs

  /** Messages leave in the order in which they were posted. */
  lemma StackIsFifo(who: M.Callers, s: State)
    requires Reachable(who, s)
    ensures RingOk(s.words.slots, s.words.first, s.words.last)
    ensures |s.words.handed| <= |s.words.posted| <= |s.words.handed| + 127
    ensures Window(s.words.slots, s.words.first, s.words.last) == s.words.posted[|s.words.handed|..]
    ensures forall i :: 0 <= i < |s.words.handed| && s.words.handed[i].Some? ==>
              s.words.handed[i].value == s.words.posted[i]
  {
    ReachableShadow(who, s);
    P.RingIsFifo(who, Abs(s));
  }

  /** t's next statement reads or writes the fields of the mailbox: it makes no semaphore call, or tests wait_send. */
  predicate Touches(s: State, t: Tid) {
    At(s, t) != M.Idle && (Local(s, t) || (At(s, t).FetchNotify? && Inner(s, t) == S.Idle))
  }

  /** Two threads are never both at such a statement. */
  lemma StatementsExclude(who: M.Callers, s: State, t: Tid, u: Tid)
    requires Reachable(who, s) && Touches(s, t) && Touches(s, u)
    ensures t == u
  {
    ReachableShadow(who, s);
    M.ReachableInv(who, Abs(s));
    TouchesInside(s, t);
    TouchesInside(s, u);
  }

  lemma TouchesInside(s: State, t: Tid)
    requires Touches(s, t)
    ensures M.Inside(M.At(Abs(s), t))
  {
    AbsAt(s, t);
  }

  // ---------------------------------------------------------------- wake-ups

  /** A poster is signalling not_empty. */
  ghost predicate Notifies(s: State) {
    exists u: Tid :: At(s, u) == M.PostNotify(true)
  }

  /** A fetcher is signalling not_full, or about to see whether it must. */
  ghost predicate NotifiesPosters(s: State) {
    exists u: Tid :: At(s, u).FetchNotify?
  }

  /** Whoever has the inner mutex in the middle of a signal is at the statement that signals. */
  lemma SignallerIsAt(s: State, w: Which)
    requires Linked(s) && (S.HolderPc(Part(s, w)).SignalClamp? || S.HolderPc(Part(s, w)).SignalWake?)
    ensures w.NotEmpty? ==> Notifies(s)
    ensures w.NotFull? ==> NotifiesPosters(s)
  {
    var u := Part(s, w).sem.owner.value;
    assert Placed(s, w, u);
    assert w.NotEmpty? ==> At(s, u) == M.PostNotify(true);
    assert w.NotFull? ==> At(s, u).FetchNotify?;
  }

  /** A thread parked beside a token is about to be told of it. */
  lemma TokenIsAnnounced(s: State, w: Which, t: Tid)
    requires PartSound(s, w) && S.At(Part(s, w), t).Parked? && Counter(Part(s, w)) == 1
    ensures S.HolderPc(Part(s, w)).SignalClamp? || S.HolderPc(Part(s, w)).SignalWake?
  {
  }

  lemma SeenNotify(s: State, u: Tid)
    ensures M.At(Abs(s), u) == M.PostNotify(true) ==> Notifies(s)
    ensures M.At(Abs(s), u).FetchNotify? ==> NotifiesPosters(s)
  {
    AbsAt(s, u);
    assert M.At(Abs(s), u) == M.PostNotify(true) ==> At(s, u) == M.PostNotify(true);
    assert M.At(Abs(s), u).FetchNotify? ==> At(s, u).FetchNotify?;
  }

  predicate Sleeps(s: State, t: Tid) {
    (At(s, t).FetchSleep? || At(s, t).PostSleep?) && Inner(s, t).Parked?
  }

  lemma SleeperSeen(s: State, t: Tid)
    requires Sleeps(s, t)
    ensures M.At(Abs(s), t) == At(s, t)
    ensures S.At(Part(s, if At(s, t).FetchSleep? then NotEmpty else NotFull), t).Parked?
  {
    AbsAt(s, t);
  }

  lemma OwedInShadow(who: M.Callers, a: M.State, t: Tid)
    requires M.Reachable(who, a)
    ensures AtMostOne(who.fetchers) && M.At(a, t).FetchSleep? && a.box.first < a.box.last ==>
              a.box.notEmpty == 1 || exists u: Tid :: M.At(a, u) == M.PostNotify(true)
    ensures AtMostOne(who.posters) && M.At(a, t).PostSleep? && !Full(a.box.first, a.box.last) ==>
              a.box.notFull == 1 || exists u: Tid :: M.At(a, u).FetchNotify?
    ensures M.At(a, t).PostSleep? ==>
              a.box.first < a.box.last || a.box.notFull == 1 ||
              exists u: Tid :: M.WillPost(M.At(a, u)) || M.At(a, u).FetchNotify?
  {
    M.ReachableInv(who, a);
  }

  /** With one blocking fetcher: while it is parked beside a pending message a poster is signalling. */
  lemma ParkedFetcherIsOwed(who: M.Callers, s: State, f: Tid)
    requires Reachable(who, s) && AtMostOne(who.fetchers)
    requires At(s, f).FetchSleep? && Inner(s, f).Parked? && s.words.first < s.words.last
    ensures Notifies(s)
  {
    ReachableShadow(who, s);
    SleeperSeen(s, f);
    OwedInShadow(who, Abs(s), f);
    if u: Tid :| M.At(Abs(s), u) == M.PostNotify(true) {
      SeenNotify(s, u);
    } else {
      assert PartSound(s, NotEmpty);
      TokenIsAnnounced(s, NotEmpty, f);
      SignallerIsAt(s, NotEmpty);
    }
  }

  /** With one blocking poster: while it is parked beside a free slot a fetcher is about to signal. */
  lemma ParkedPosterIsOwed(who: M.Callers, s: State, p: Tid)
    requires Reachable(who, s) && AtMostOne(who.posters)
    requires At(s, p).PostSleep? && Inner(s, p).Parked? && !Full(s.words.first, s.words.last)
    ensures NotifiesPosters(s)
  {
    ReachableShadow(who, s);
    SleeperSeen(s, p);
    OwedInShadow(who, Abs(s), p);
    if u: Tid :| M.At(Abs(s), u).FetchNotify? {
      SeenNotify(s, u);
    } else {
      assert PartSound(s, NotFull);
      TokenIsAnnounced(s, NotFull, p);
      SignallerIsAt(s, NotFull);
    }
  }

  /**
   With any number of posters: while one is parked there is a message to be fetched, or a fetcher is about to signal, or
   a poster that has a token, or never slept, is on its way to post.
   */
  lemma ParkedPosterIsBacked(who: M.Callers, s: State, p: Tid)
    requires Reachable(who, s) && At(s, p).PostSleep? && Inner(s, p).Parked?
    ensures s.words.first < s.words.last || NotifiesPosters(s) || exists u: Tid :: M.WillPost(SeenAt(s, u))
  {
    ReachableShadow(who, s);
    SleeperSeen(s, p);
    OwedInShadow(who, Abs(s), p);
    if u: Tid :| M.WillPost(M.At(Abs(s), u)) || M.At(Abs(s), u).FetchNotify? {
      SeenNotify(s, u);
      AbsAt(s, u);
    } else if s.words.first >= s.words.last {
      assert PartSound(s, NotFull);
      TokenIsAnnounced(s, NotFull, p);
      SignallerIsAt(s, NotFull);
    }
  }

  // ---------------------------------------------------------------- and exactly when

  /** From a state of the mailbox in which t sleeps and there is no token for it: a state in which t is parked. */
  lemma SleeperParks(who: M.Callers, s: State, t: Tid) returns (s': State)
    requires Reachable(who, s) && Inv(s) && (At(s, t).FetchSleep? || At(s, t).PostSleep?)
    requires Out(Part(s, Uses(At(s, t)).value.on)) && Counter(Part(s, Uses(At(s, t)).value.on)) == 0
    ensures Reachable(who, s') && s'.words == s.words && s'.pc == s.pc && Inner(s', t).Parked?
    ensures forall w :: w != Uses(At(s, t)).value.on ==> Part(s', w) == Part(s, w)
  {
    var w := Uses(At(s, t)).value.on;
    assert S.At(Part(s, w), t) == S.Idle;
    assert PartSound(s, w) && Part(s, w).sem.c == 0;
    s' := ParkAlone(who, s, t);
  }

  /** The state of the stack for one of the mailbox in which u sleeps without a token, with u parked. */
  lemma SleeperIsParked(who: M.Callers, a: M.State, u: Tid) returns (s: State)
    requires R.InTime(who, a)
    requires (M.At(a, u).FetchSleep? && a.box.notEmpty == 0) || (M.At(a, u).PostSleep? && a.box.notFull == 0)
    ensures Reachable(who, s) && Inner(s, u).Parked? && s.words == Strip(a.box)
    ensures forall v: Tid :: At(s, v) == M.At(a, v)
  {
    var s0 := InTimeRealizes(who, a);
    forall v: Tid ensures At(s0, v) == M.At(a, v) {
      OutIsSeen(s0, v);
    }
    s := SleeperParks(who, s0, u);
  }

  /** A fetcher parked beside a message is always owed a signal. */
  ghost predicate FetchersAreOwed(who: M.Callers) {
    forall s, f :: Reachable(who, s) && At(s, f).FetchSleep? && Inner(s, f).Parked? && s.words.first < s.words.last ==>
      Notifies(s)
  }

  /** No fetcher's wake-up is lost, down to the condition variable, if and only if at most one fetches blocking. */
  lemma FetchersAreOwedIffOne(who: M.Callers)
    ensures AtMostOne(who.fetchers) <==> FetchersAreOwed(who)
  {
    if AtMostOne(who.fetchers) {
      forall s, f | Reachable(who, s) && At(s, f).FetchSleep? && Inner(s, f).Parked? && s.words.first < s.words.last
        ensures Notifies(s)
      {
        ParkedFetcherIsOwed(who, s, f);
      }
    } else {
      var t, u :| t in who.fetchers && u in who.fetchers && t != u;
      var a := P.TwoFetchersLoseAWakeUp(who, seq(SYS_MBOX_SIZE, i => 0), t, u);
      var s := SleeperIsParked(who, a, u);
      assert !Notifies(s);
    }
  }

  /** A poster parked beside a free slot is always owed a signal. */
  ghost predicate PostersAreOwed(who: M.Callers) {
    forall s, p ::
      Reachable(who, s) && At(s, p).PostSleep? && Inner(s, p).Parked? && !Full(s.words.first, s.words.last) ==>
        NotifiesPosters(s)
  }

  /** The same for posters: if and only if at most one thread posts blocking. */
  lemma PostersAreOwedIffOne(who: M.Callers)
    ensures AtMostOne(who.posters) <==> PostersAreOwed(who)
  {
    if AtMostOne(who.posters) {
      forall s, p |
        Reachable(who, s) && At(s, p).PostSleep? && Inner(s, p).Parked? && !Full(s.words.first, s.words.last)
        ensures NotifiesPosters(s)
      {
        ParkedPosterIsOwed(who, s, p);
      }
    } else {
      var t, u :| t in who.posters && u in who.posters && t != u;
      var a := P.TwoPostersMergeSignals(who, t, u);
      var s := SleeperIsParked(who, a, u);
      assert !NotifiesPosters(s);
    }
  }

  // ---------------------------------------------------------------- standstill

  /** t cannot go on by itself: it has no call in progress, or waits for a semaphore's inner mutex, or is parked. */
  predicate Stuck(s: State, t: Tid) {
    At(s, t) == M.Idle ||
    (Inner(s, t) != S.Idle && S.Blocked(Part(s, Uses(At(s, t)).value.on).sem, Inner(s, t)))
  }

  ghost predicate AllStuck(s: State) {
    forall t: Tid :: Stuck(s, t)
  }

  /** Then each of the semaphores has come to a standstill. */
  lemma StuckParts(s: State, w: Which)
    requires Inv(s) && AllStuck(s)
    ensures S.Still(Part(s, w))
  {
    forall t: Tid ensures S.At(Part(s, w), t) == S.Idle || S.Blocked(Part(s, w).sem, S.At(Part(s, w), t)) {
      assert Placed(s, w, t) && Stuck(s, t);
    }
  }

  /** So whoever is in a call is parked, and its semaphore's counter is zero. */
  lemma StuckIsParked(s: State, t: Tid)
    requires Inv(s) && AllStuck(s) && At(s, t) != M.Idle
    ensures Inner(s, t).Parked? && Counter(Part(s, Uses(At(s, t)).value.on)) == 0
  {
    assert Stuck(s, t);
    var w := Uses(At(s, t)).value.on;
    StuckParts(s, w);
    assert PartSound(s, w);
    S.StillMeansEmpty(Count(w), Part(s, w));
  }

  lemma StuckIsBlocked(s: State, t: Tid)
    requires Inv(s) && AllStuck(s)
    ensures M.At(Abs(s), t) == At(s, t) && (At(s, t) == M.Idle || M.Blocked(Abs(s).box, At(s, t)))
  {
    AbsAt(s, t);
    if At(s, t) != M.Idle {
      StuckIsParked(s, t);
      var w := Uses(At(s, t)).value.on;
      assert Placed(s, w, t) && CountOf(Abs(s).box, w) == 0;
      CallEffect(Abs(s).box, At(s, t));
    }
  }

  /**
   With one blocking fetcher, when nobody can go on the calls in progress are parked on a condition variable: fetches
   on not_empty's if the ring is empty, posts on not_full's if it is not.
   */
  lemma ParkedForAReason(who: M.Callers, s: State, t: Tid)
    requires Reachable(who, s) && AtMostOne(who.fetchers) && AllStuck(s) && At(s, t) != M.Idle
    ensures Inner(s, t).Parked?
    ensures if s.words.first == s.words.last then At(s, t).FetchSleep? else At(s, t).PostSleep?
  {
    ReachableShadow(who, s);
    forall u: Tid ensures M.At(Abs(s), u) == M.Idle || M.Blocked(Abs(s).box, M.At(Abs(s), u)) {
      StuckIsBlocked(s, u);
    }
    P.BlockedForAReason(who, Abs(s));
    StuckIsBlocked(s, t);
    StuckIsParked(s, t);
  }

  /** A blocking fetch and a blocking post never wait for each other, down to the condition variables. */
  lemma StackNeverDeadlocks(who: M.Callers, s: State, f: Tid, p: Tid)
    requires Reachable(who, s) && AtMostOne(who.fetchers)
    requires M.MaySleep(At(s, f)) && M.MayBlock(At(s, p))
    ensures !AllStuck(s)
  {
    if AllStuck(s) {
      ParkedForAReason(who, s, f);
      ParkedForAReason(who, s, p);
    }
  }

  /** A thread in a blocking post, as the callers see it, is in one. */
  lemma PosterIsNamed(who: M.Callers, s: State, p: Tid)
    requires Reachable(who, s) && M.MayBlock(At(s, p))
    ensures p in who.posters
  {
    ReachableShadow(who, s);
    AbsAt(s, p);
    if Uses(At(s, p)).Some? {
      assert Placed(s, Uses(At(s, p)).value.on, p);
    }
    P.NoPosterBlocks(who, Abs(s), p);
  }

  ghost predicate NeverDeadlocks(who: M.Callers) {
    forall s, f, p :: Reachable(who, s) && M.MaySleep(At(s, f)) && M.MayBlock(At(s, p)) ==> !AllStuck(s)
  }

  /** The other sleeper parks beside the first. */
  lemma ParksToo(who: M.Callers, s: State, p: Tid) returns (s': State)
    requires Reachable(who, s) && At(s, p).PostSleep? && Out(s.notFull) && Counter(s.notFull) == 0
    ensures Reachable(who, s') && s'.pc == s.pc && s'.notEmpty == s.notEmpty && Inner(s', p).Parked?
  {
    ReachableShadow(who, s);
    assert Part(s, NotFull) == s.notFull;
    s' := SleeperParks(who, s, p);
    assert Part(s', NotEmpty) == s'.notEmpty;
  }

  /** One thread parked in fetch and one in post, and nobody else in a call. */
  lemma BothAreParked(who: M.Callers, a: M.State, u: Tid, p: Tid) returns (s: State)
    requires R.InTime(who, a) && M.At(a, u).FetchSleep? && M.At(a, p).PostSleep?
    requires a.box.notEmpty == 0 && a.box.notFull == 0
    ensures Reachable(who, s) && Inner(s, u).Parked? && Inner(s, p).Parked?
    ensures forall v: Tid :: At(s, v) == M.At(a, v)
  {
    var s0 := InTimeRealizes(who, a);
    forall v: Tid ensures At(s0, v) == M.At(a, v) {
      OutIsSeen(s0, v);
    }
    assert Out(Part(s0, NotFull));
    var s1 := SleeperParks(who, s0, u);
    assert s1.notFull == Part(s1, NotFull) == Part(s0, NotFull) == s0.notFull;
    s := ParksToo(who, s1, p);
  }

  /**
   A blocking fetch and a blocking post never wait for each other on the condition variables if and only if at most one
   thread uses the blocking fetch, or none the blocking post.
   */
  lemma StackNeverDeadlocksIff(who: M.Callers)
    ensures AtMostOne(who.fetchers) || who.posters == {} <==> NeverDeadlocks(who)
  {
    if AtMostOne(who.fetchers) || who.posters == {} {
      forall s, f, p | Reachable(who, s) && M.MaySleep(At(s, f)) && M.MayBlock(At(s, p)) ensures !AllStuck(s) {
        PosterIsNamed(who, s, p);
        StackNeverDeadlocks(who, s, f, p);
      }
    } else {
      var p :| p in who.posters;
      var t, u :| t in who.fetchers && u in who.fetchers && t != u;
      var f := if p == u then t else u;
      var a := P.TwoFetchersDeadlock(who, if p == u then u else t, f, p);
      var s := BothAreParked(who, a, f, p);
      assert M.MaySleep(At(s, f)) && M.MayBlock(At(s, p)) && AllStuck(s);
    }
  }
}
