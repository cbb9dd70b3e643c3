/** What the mailbox guarantees in every reachable state, and exactly when its sparse signalling suffices. */
module MailboxProperties {
  import opened Common
  import opened MailboxRing
  import opened MailboxProtocol
  import opened MailboxRuns
  import opened Paths

  // ---------------------------------------------------------------- exclusion and counting

  function InsideSet(s: State): set<Tid> {
    set t | t in s.pc && Inside(s.pc[t])
  }

  /** The mutex token is either in the semaphore or with exactly one thread: the clamp never drops it. */
  lemma MutexIsConserved(who: Callers, s: State)
    requires Reachable(who, s)
    ensures s.box.mutex + |InsideSet(s)| == 1
  {
    ReachableInv(who, s);
    assert forall u: Tid :: u in InsideSet(s) <==> Inside(At(s, u));
    if s.box.mutex == 0 {
      var t: Tid :| Inside(At(s, t));
      assert InsideSet(s) == {t};
    } else {
      assert InsideSet(s) == {};
    }
  }

  /** wait_send is the number of posters between its increment and its decrement. */
  lemma WaitSendIsExact(who: Callers, s: State)
    requires Reachable(who, s)
    ensures s.box.waitSend == |CountedSet(s)|
  {
    ReachableInv(who, s);
  }

  // ---------------------------------------------------------------- who signals, and when

  lemma CountedIsThere(who: Callers, s: State)
    requires Reachable(who, s)
    ensures s.box.waitSend != 0 <==> exists t: Tid :: Counted(At(s, t))
  {
    WaitSendIsExact(who, s);
    assert forall t: Tid :: t in CountedSet(s) <==> Counted(At(s, t));
    if CountedSet(s) != {} {
      var t :| t in CountedSet(s);
    }
  }

  /**
   A post signals not_empty exactly if its message is the only one pending, a fetch signals not_full exactly if some
   poster is between its increment and its decrement of wait_send, and nothing else raises either.
   */
  lemma SignalsAreSparse(who: Callers, s: State, e: Event)
    requires Reachable(who, s) && |s.box.slots| == SYS_MBOX_SIZE && Enabled(who, s, e)
    ensures var b, b' := s.box, Next(who, s, e).box;
            && (if e.act.Run? && At(s, e.t).PostNotify?
                then b'.notEmpty == (if |b.posted| - |b.handed| == 1 then 1 else b.notEmpty)
                else b'.notEmpty <= b.notEmpty)
            && (if e.act.Run? && At(s, e.t).FetchNotify?
                then b'.notFull == (if exists t: Tid :: Counted(At(s, t)) then 1 else b.notFull)
                else b'.notFull <= b.notFull)
  {
    ReachableInv(who, s);
    CountedIsThere(who, s);
    assert LocalFacts(s.box, At(s, e.t));
  }

  // ---------------------------------------------------------------- the FIFO

  function Values(handed: seq<Option<Msg>>): seq<Msg>
    requires forall i :: 0 <= i < |handed| ==> handed[i].Some?
  {
    seq(|handed|, i requires 0 <= i < |handed| => handed[i].value)
  }

  /**
   Messages leave in the order in which they were posted: the i-th removal hands out the i-th message posted
   (or nothing, to a caller that gave no place for it), and what is left are the ring's slots.
   */
  lemma RingIsFifo(who: Callers, s: State)
    requires Reachable(who, s)
    ensures RingOk(s.box.slots, s.box.first, s.box.last) && |s.box.handed| <= |s.box.posted|
    ensures Window(s.box.slots, s.box.first, s.box.last) == s.box.posted[|s.box.handed|..]
    ensures forall i :: 0 <= i < |s.box.handed| && s.box.handed[i].Some? ==>
              s.box.handed[i].value == s.box.posted[i]
    ensures (forall i :: 0 <= i < |s.box.handed| ==> s.box.handed[i].Some?) ==>
              s.box.posted == Values(s.box.handed) + Window(s.box.slots, s.box.first, s.box.last)
    ensures |s.box.posted| - |s.box.handed| <= 127
  {
    ReachableInv(who, s);
    if forall i :: 0 <= i < |s.box.handed| ==> s.box.handed[i].Some? {
      assert Values(s.box.handed) == s.box.posted[..|s.box.handed|];
    }
  }

  /** trypost gives up exactly when 127 messages are pending. */
  lemma TryPostFailsAt127(who: Callers, s: State, t: Tid, msg: Msg)
    requires Reachable(who, s) && At(s, t) == PostCheck(false, msg)
    ensures |s.box.slots| == SYS_MBOX_SIZE
    ensures At(Statement(s, t), t) == PostReject <==> |s.box.posted| - |s.box.handed| == 127
  {
    ReachableInv(who, s);
  }

  /** Every C int expression over the counters is exact exactly while at most 2^31 - 1 - 128 messages were removed. */
  lemma CountersFitInt(who: Callers, s: State)
    requires Reachable(who, s)
    ensures |s.box.handed| <= INT_MAX - SYS_MBOX_SIZE <==>
            s.box.last + 1 <= INT_MAX && s.box.first + 1 <= INT_MAX && s.box.first + SYS_MBOX_SIZE <= INT_MAX
    ensures |s.box.posted| <= INT_MAX - SYS_MBOX_SIZE ==> s.box.first + SYS_MBOX_SIZE <= INT_MAX
  {
    ReachableInv(who, s);
    RingArithmeticFits(s.box.slots, s.box.first, s.box.last);
  }

  // ---------------------------------------------------------------- nobody is forgotten

  /** A poster asleep on not_full always has somebody or something left to wake it, however many posters there are. */
  lemma NoStrandedPoster(who: Callers, s: State, t: Tid)
    requires Reachable(who, s) && At(s, t).PostSleep?
    ensures s.box.first < s.box.last || s.box.notFull == 1 || exists u :: WillPost(At(s, u)) || At(s, u).FetchNotify?
  {
    ReachableInv(who, s);
  }

  lemma InitInTime(who: Callers, garbage: seq<Msg>)
    requires |garbage| == SYS_MBOX_SIZE
    ensures InTime(who, Init(garbage))
  {
    ReachesItself(StepInTime(who), Init(garbage));
  }

  function Other(t: Tid, u: Tid): (r: Tid)
    ensures r != t && r != u
  {
    t + u + 1
  }

  /**
   Two threads asleep in fetch, two messages posted before either wakes: not_empty was signalled once, one fetcher
   leaves with a message, the other sleeps on although a message is pending and no call is in progress.
   */
  lemma TwoFetchersLoseAWakeUp(who: Callers, garbage: seq<Msg>, t: Tid, u: Tid) returns (s: State)
    requires |garbage| == SYS_MBOX_SIZE && t in who.fetchers && u in who.fetchers && t != u
    ensures InTime(who, s) && At(s, u).FetchSleep? && s.box.first < s.box.last && s.box.notEmpty == 0
    ensures forall v: Tid :: v != u ==> At(s, v) == Idle
    ensures s.box.mutex == 1 && s.box.notFull == 0 && s.box.waitSend == 0
  {
    var p, req := Other(t, u), Request(true, true, false);
    var s0 := Init(garbage);
    InitInTime(who, garbage);
    var s1 := Goto(s0, s0.box, t, FetchSleep(req));
    SleepAlone(who, s0, t, req);
    InTimeMore(who, {t}, s0, s1);
    var s2 := Goto(s1, s0.box, u, FetchSleep(req));
    SleepAlone(who, s1, u, req);
    InTimeMore(who, {u}, s1, s2);
    var s3 := Goto(s2, AfterStore(s2.box, 1), p, Idle);
    PostAlone(who, s2, p, false, 1);
    InTimeMore(who, {p}, s2, s3);
    var s4 := Goto(s3, AfterStore(s3.box, 2), p, Idle);
    PostAlone(who, s3, p, false, 2);
    InTimeMore(who, {p}, s3, s4);
    s := Goto(s4, AfterTake(s4.box, true).(notEmpty := s4.box.notEmpty - 1), t, Idle);
    WakeAlone(who, s4, t, req);
    InTimeMore(who, {t}, s4, s);
  }

  /** The not_empty signalling never loses a wake-up if and only if at most one thread uses the blocking fetch. */
  lemma FetchersWakeIffOne(who: Callers)
    ensures AtMostOne(who.fetchers) <==> forall s :: Reachable(who, s) ==> FetcherNotLost(s)
  {
    if AtMostOne(who.fetchers) {
      forall s | Reachable(who, s) ensures FetcherNotLost(s) {
        ReachableInv(who, s);
      }
    } else {
      var t, u :| t in who.fetchers && u in who.fetchers && t != u;
      var s := TwoFetchersLoseAWakeUp(who, seq(SYS_MBOX_SIZE, i => 0), t, u);
      InTimeIsReachable(who, s);
      assert !FetcherNotLost(s);
    }
  }

  /** trypost called k times on a new mailbox. */
  lemma {:induction false} Filled(who: Callers, garbage: seq<Msg>, t: Tid, k: nat) returns (s: State)
    requires |garbage| == SYS_MBOX_SIZE && k < SYS_MBOX_SIZE
    ensures InTime(who, s) && |s.box.slots| == SYS_MBOX_SIZE
    ensures s.box.first == 0 && s.box.last == k && s.box.mutex == 1 && s.box.notFull == 0 && s.box.waitSend == 0
    ensures forall v: Tid :: At(s, v) == Idle
    decreases k
  {
    if k == 0 {
      s := Init(garbage);
      InitInTime(who, garbage);
    } else {
      var s0 := Filled(who, garbage, t, k - 1);
      s := Goto(s0, AfterStore(s0.box, 0), t, Idle);
      PostAlone(who, s0, t, false, 0);
      InTimeMore(who, {t}, s0, s);
      AtGoto(s0, AfterStore(s0.box, 0), t, Idle);
    }
  }

  /** From a full ring: t and u fall asleep in post, and a third thread takes two messages out. */
  lemma TwoPostersAsleep(who: Callers, t: Tid, u: Tid) returns (s: State)
    requires t in who.posters && u in who.posters && t != u
    ensures InTime(who, s) && |s.box.slots| == SYS_MBOX_SIZE
    ensures At(s, t) == PostSleep(1) && At(s, u) == PostSleep(2)
    ensures forall v: Tid :: v != t && v != u ==> At(s, v) == Idle
    ensures s.box.first == 2 && s.box.last == 127 && s.box.mutex == 1 && s.box.notFull == 1 && s.box.waitSend == 2
  {
    var f, req := Other(t, u), Request(false, true, false);
    var s0 := Filled(who, seq(SYS_MBOX_SIZE, i => 0), f, 127);
    var s1 := Goto(s0, s0.box.(waitSend := s0.box.waitSend + 1), t, PostSleep(1));
    AtGoto(s0, s1.box, t, PostSleep(1));
    assert InTime(who, s1) by {
      PostSleepAlone(who, s0, t, 1);
      InTimeMore(who, {t}, s0, s1);
    }
    var s2 := Goto(s1, s1.box.(waitSend := s1.box.waitSend + 1), u, PostSleep(2));
    AtGoto(s1, s2.box, u, PostSleep(2));
    assert InTime(who, s2) by {
      PostSleepAlone(who, s1, u, 2);
      InTimeMore(who, {u}, s1, s2);
    }
    var s3 := Goto(s2, AfterTake(s2.box, true), f, Idle);
    AtGoto(s2, s3.box, f, Idle);
    assert InTime(who, s3) by {
      FetchAlone(who, s2, f, req);
      InTimeMore(who, {f}, s2, s3);
    }
    s := Goto(s3, AfterTake(s3.box, true), f, Idle);
    AtGoto(s3, s.box, f, Idle);
    assert InTime(who, s) by {
      FetchAlone(who, s3, f, req);
      InTimeMore(who, {f}, s3, s);
    }
  }

  /**
   Two posters asleep on a full ring and two messages taken out before either wakes: the second signal is merged
   into the first, one poster leaves, the other sleeps on although there is room and no call is in progress.
   */
  lemma TwoPostersMergeSignals(who: Callers, t: Tid, u: Tid) returns (s: State)
    requires t in who.posters && u in who.posters && t != u
    ensures InTime(who, s) && At(s, u).PostSleep? && !Full(s.box.first, s.box.last) && s.box.notFull == 0
    ensures forall v: Tid :: v != u ==> At(s, v) == Idle
  {
    var s0 := TwoPostersAsleep(who, t, u);
    var b := s0.box.(notFull := s0.box.notFull - 1, mutex := 0, waitSend := s0.box.waitSend - 1);
    s := Goto(s0, AfterStore(b, 1).(mutex := Signalled(b.mutex)), t, Idle);
    AtGoto(s0, s.box, t, Idle);
    assert InTime(who, s) by {
      PostWakeEnter(who, s0, t, 1);
      StoreThen(who, s0, s0, b, t, true, 1);
      InTimeMore(who, {t}, s0, s);
    }
  }

  /** A poster is never left asleep beside a free slot if and only if at most one thread uses the blocking post. */
  lemma PostersWakeIffOne(who: Callers)
    ensures AtMostOne(who.posters) <==> forall s :: Reachable(who, s) ==> PosterNotLost(s)
  {
    if AtMostOne(who.posters) {
      forall s | Reachable(who, s) ensures PosterNotLost(s) {
        ReachableInv(who, s);
      }
    } else {
      var t, u :| t in who.posters && u in who.posters && t != u;
      var s := TwoPostersMergeSignals(who, t, u);
      InTimeIsReachable(who, s);
      assert !PosterNotLost(s);
    }
  }

  // ---------------------------------------------------------------- deadlock and completion

  ghost predicate AllBlocked(s: State) {
    forall t :: At(s, t) == Idle || Blocked(s.box, At(s, t))
  }

  /**
   When every call in progress is blocked, all of them sleep on the signalling semaphores, and either they are
   posters with messages still to be fetched, or they are fetchers of an empty ring: never both.
   */
  lemma BlockedForAReason(who: Callers, s: State)
    requires Reachable(who, s) && AtMostOne(who.fetchers) && AllBlocked(s)
    ensures s.box.mutex == 1
    ensures forall t :: At(s, t) == Idle || (if s.box.first == s.box.last then At(s, t).FetchSleep?
                                             else At(s, t).PostSleep?)
  {
    ReachableInv(who, s);
    forall t: Tid ensures !Inside(At(s, t)) {
      assert At(s, t) == Idle || Blocked(s.box, At(s, t));
    }
    forall t: Tid ensures At(s, t) == Idle || At(s, t).PostSleep? || At(s, t).FetchSleep? {
      assert At(s, t) == Idle || Blocked(s.box, At(s, t));
    }
  }

  /** With one blocking fetcher, a call of fetch and a call of post are never both stuck in a standstill. */
  lemma NoDeadlock(who: Callers, s: State, f: Tid, p: Tid)
    requires Reachable(who, s) && AtMostOne(who.fetchers)
    requires MaySleep(At(s, f)) && MayBlock(At(s, p))
    ensures !AllBlocked(s)
  {
    if AllBlocked(s) {
      BlockedForAReason(who, s);
    }
  }

  /** trypost called by q as often as it takes to fill the ring, which is not empty. */
  lemma {:induction false} FillUp(who: Callers, s0: State, q: Tid) returns (s: State)
    requires InTime(who, s0) && At(s0, q) == Idle && s0.box.mutex == 1 && s0.box.first < s0.box.last
    ensures InTime(who, s) && Full(s.box.first, s.box.last) && s.box.mutex == 1
    ensures s.box.notEmpty == s0.box.notEmpty && s.box.notFull == s0.box.notFull
    ensures forall v: Tid :: At(s, v) == At(s0, v)
    decreases s0.box.first + SYS_MBOX_SIZE - s0.box.last
  {
    InTimeIsReachable(who, s0);
    ReachableInv(who, s0);
    if Full(s0.box.first, s0.box.last) {
      s := s0;
    } else {
      var s1 := Goto(s0, AfterStore(s0.box, 0), q, Idle);
      PostAlone(who, s0, q, false, 0);
      InTimeMore(who, {q}, s0, s1);
      AtGoto(s0, AfterStore(s0.box, 0), q, Idle);
      s := FillUp(who, s1, q);
    }
  }

  /**
   The lost wake-up can be fatal: u sleeps beside a message and nobody else fetches, the ring fills up, p goes to sleep
   in post, and neither will ever wake the other.
   */
  lemma TwoFetchersDeadlock(who: Callers, t: Tid, u: Tid, p: Tid) returns (s: State)
    requires t in who.fetchers && u in who.fetchers && t != u && p in who.posters && p != u
    ensures InTime(who, s) && At(s, u).FetchSleep? && At(s, u).req.block && At(s, p).PostSleep?
    ensures s.box.notEmpty == 0 && s.box.notFull == 0
    ensures forall v: Tid :: v != u && v != p ==> At(s, v) == Idle
  {
    var s0 := TwoFetchersLoseAWakeUp(who, seq(SYS_MBOX_SIZE, i => 0), t, u);
    InTimeIsReachable(who, s0);
    ReachableInv(who, s0);
    var s1 := FillUp(who, s0, p);
    InTimeIsReachable(who, s1);
    ReachableInv(who, s1);
    s := Goto(s1, s1.box.(waitSend := s1.box.waitSend + 1), p, PostSleep(1));
    PostSleepAlone(who, s1, p, 1);
    InTimeMore(who, {p}, s1, s);
    AtGoto(s1, s.box, p, PostSleep(1));
  }

  /** A blocking fetch and a blocking post never wait for each other, in any run. */
  ghost predicate NeverDeadlocks(who: Callers) {
    forall s, f, p :: Reachable(who, s) && MaySleep(At(s, f)) && MayBlock(At(s, p)) ==> !AllBlocked(s)
  }

  lemma NoPosterBlocks(who: Callers, s: State, p: Tid)
    requires Reachable(who, s) && MayBlock(At(s, p))
    ensures p in who.posters
  {
    ReachableInv(who, s);
  }

  /** They never do if and only if at most one thread uses the blocking fetch, or none the blocking post. */
  lemma NoDeadlockIff(who: Callers)
    ensures AtMostOne(who.fetchers) || who.posters == {} <==> NeverDeadlocks(who)
  {
    if AtMostOne(who.fetchers) || who.posters == {} {
      forall s, f, p | Reachable(who, s) && MaySleep(At(s, f)) && MayBlock(At(s, p)) ensures !AllBlocked(s) {
        NoPosterBlocks(who, s, p);
        NoDeadlock(who, s, f, p);
      }
    } else {
      var p :| p in who.posters;
      var t, u :| t in who.fetchers && u in who.fetchers && t != u;
      var sleeper := if p == u then t else u;
      var s := TwoFetchersDeadlock(who, if p == u then u else t, sleeper, p);
      InTimeIsReachable(who, s);
      assert MaySleep(At(s, sleeper)) && MayBlock(At(s, p)) && AllBlocked(s);
    }
  }

  /** How many statements a call may still execute, a wake-up being paid for by the token it consumes. */
  function Rank(pc: Pc): nat {
    match pc
    case Idle => 0
    case PostReject => 1
    case PostUnlock => 1
    case PostNotify(_) => 6
    case PostAdvance(_, _, _) => 7
    case PostMark(_, _) => 8
    case PostStore(_, _) => 9
    case PostSleep(_) => 7
    case PostYield(_) => 8
    case PostCount(_) => 9
    case PostCheck(_, _) => 10
    case PostUncount(_) => 11
    case PostRelock(_) => 12
    case PostLock(_, _) => 11
    case FetchMiss => 1
    case FetchUnlock => 1
    case FetchNotify => 8
    case FetchAdvance(_) => 9
    case FetchTake(_) => 10
    case FetchSleep(_) => 9
    case FetchYield(_) => 10
    case FetchCheck(_) => 11
    case FetchRelock(_) => 12
    case FetchLock(_) => 12
  }

  const NOT_EMPTY_WORTH := 4
  const NOT_FULL_WORTH := 6

  ghost function TotalRank(pc: map<Tid, Pc>): nat {
    if pc == map[] then 0
    else
      var t :| t in pc;
      Rank(pc[t]) + TotalRank(pc - {t})
  }

  lemma {:induction false} TotalRankAt(pc: map<Tid, Pc>, t: Tid)
    requires t in pc
    ensures TotalRank(pc) == Rank(pc[t]) + TotalRank(pc - {t})
    decreases |pc|
  {
    var u :| u in pc && TotalRank(pc) == Rank(pc[u]) + TotalRank(pc - {u});
    if u != t {
      TotalRankAt(pc - {u}, t);
      TotalRankAt(pc - {t}, u);
      assert pc - {u} - {t} == pc - {t} - {u};
    }
  }

  ghost function Fuel(s: State): nat {
    TotalRank(s.pc) + NOT_EMPTY_WORTH * s.box.notEmpty + NOT_FULL_WORTH * s.box.notFull
  }

  lemma TotalRankMoves(s: State, box: Box, t: Tid, pc: Pc)
    ensures TotalRank(Goto(s, box, t, pc).pc) + Rank(At(s, t)) == TotalRank(s.pc) + Rank(pc)
  {
    var pcs := s.pc[t := pc];
    TotalRankAt(pcs, t);
    assert pcs - {t} == s.pc - {t};
    if t in s.pc {
      TotalRankAt(s.pc, t);
    } else {
      assert s.pc - {t} == s.pc;
    }
  }

  /** What a thread's statement pc and the tokens b holds are worth together. */
  function Worth(b: Box, pc: Pc): int {
    Rank(pc) + NOT_EMPTY_WORTH * b.notEmpty + NOT_FULL_WORTH * b.notFull
  }

  /** A statement either shortens its call or is paid for by the token it consumes. */
  lemma EffectDropsRank(b: Box, pc: Pc)
    requires pc != Idle && !Blocked(b, pc) && |b.slots| == SYS_MBOX_SIZE
    ensures var (b', pc') := Effect(b, pc); Worth(b', pc') < Worth(b, pc)
  {
  }

  lemma RankDrops(who: Callers, s: State, e: Event)
    requires |s.box.slots| == SYS_MBOX_SIZE && Enabled(who, s, e) && Continues(e.act)
    ensures var s' := Next(who, s, e);
            s'.pc == s.pc[e.t := At(s', e.t)] && Worth(s'.box, At(s', e.t)) < Worth(s.box, At(s, e.t))
  {
    if e.act.Run? {
      EffectDropsRank(s.box, At(s, e.t));
    }
  }

  lemma StepUsesFuel(who: Callers, s: State, e: Event)
    requires Inv(who, s) && Enabled(who, s, e) && Continues(e.act)
    ensures Fuel(Next(who, s, e)) < Fuel(s)
  {
    var s' := Next(who, s, e);
    RankDrops(who, s, e);
    TotalRankMoves(s, s'.box, e.t, At(s', e.t));
  }

  /**
   Unless new calls arrive, every schedule is finite, and its length is bounded beforehand: whatever the scheduler
   does, the calls in progress either return or end up asleep for the reason BlockedForAReason gives.
   */
  lemma {:induction false} CallsFinish(who: Callers, s: State, schedule: seq<Event>, s': State)
    requires Inv(who, s) && RunsTo(StepOf(who), s, schedule, s')
    requires forall i :: 0 <= i < |schedule| ==> Continues(schedule[i].act)
    ensures Inv(who, s') && |schedule| + Fuel(s') <= Fuel(s)
  {
    if schedule == [] {
      RunsNowhere(StepOf(who), s, s');
    } else {
      var k := |schedule| - 1;
      var before := RunsBack(StepOf(who), s, schedule, s');
      CallsFinish(who, s, schedule[..k], before);
      StepKeepsInv(who, before, schedule[k]);
      StepUsesFuel(who, before, schedule[k]);
    }
  }

  lemma ReachableOn(who: Callers, s: State, e: Event)
    requires Reachable(who, s) && |s.box.slots| == SYS_MBOX_SIZE && Enabled(who, s, e)
    ensures Reachable(who, Next(who, s, e))
  {
    var garbage :| |garbage| == SYS_MBOX_SIZE && Reaches(StepOf(who), Init(garbage), s);
    ReachesOn(StepOf(who), Init(garbage), s, e, Next(who, s, e));
  }

  /** If some call in progress can move, its next step is a legal one. */
  lemma SomebodyCanMove(who: Callers, s: State) returns (e: Event)
    requires !AllBlocked(s)
    ensures Enabled(who, s, e) && e.act == Run
  {
    var t :| At(s, t) != Idle && !Blocked(s.box, At(s, t));
    e := Event(t, Run);
  }

  /**
   The run to completion: from every reachable state the calls in progress, left alone, come to rest, and then a
   fetch is still waiting only for an empty ring and a post only beside pending messages.
   */
  lemma {:induction false} ComesToRest(who: Callers, s: State) returns (schedule: seq<Event>, s': State)
    requires Reachable(who, s)
    ensures RunsTo(StepOf(who), s, schedule, s') && AllBlocked(s')
    ensures forall i :: 0 <= i < |schedule| ==> schedule[i].act == Run
    decreases Fuel(s)
  {
    ReachableInv(who, s);
    RunsNowhere(StepOf(who), s, s);
    if AllBlocked(s) {
      schedule, s' := [], s;
    } else {
      var e := SomebodyCanMove(who, s);
      var next := Next(who, s, e);
      StepUsesFuel(who, s, e);
      ReachableOn(who, s, e);
      var rest;
      rest, s' := ComesToRest(who, next);
      RunsOn(StepOf(who), s, [], s, e, next);
      assert [] + [e] == [e];
      RunsJoin(StepOf(who), s, [e], next, rest, s');
      schedule := [e] + rest;
    }
  }
}
