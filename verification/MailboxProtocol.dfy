/**
 The four mailbox operations as threads that interleave one statement at a time, over atomic semaphores whose
 counter clamps at one (module Semaphore shows that the condition-variable implementation behaves so).
 Any thread may call trypost and tryfetch; a Callers value names the threads that may call the blocking post and
 the blocking fetch, and it may name as many as it likes.
 */
module MailboxProtocol {
  import opened Common
  import opened MailboxRing
  import opened Paths

  /** A call of fetch (block) or tryfetch; want: the caller passed a place for the message; timed: timeout != 0. */
  datatype Request = Request(block: bool, want: bool, timed: bool)

  /** The statement a thread executes next.  In the posting states, block tells post from trypost. */
  datatype Pc =
    | Idle
    | PostLock(block: bool, msg: Msg)                    // wait on mutex
    | PostCheck(block: bool, msg: Msg)                   // is the ring full?
    | PostReject                                         // trypost: signal mutex, return ERR_MEM
    | PostCount(msg: Msg)                                // wait_send++
    | PostYield(msg: Msg)                                // signal mutex
    | PostSleep(msg: Msg)                                // wait on not_full
    | PostRelock(msg: Msg)                               // wait on mutex
    | PostUncount(msg: Msg)                              // wait_send--
    | PostStore(block: bool, msg: Msg)                   // write the slot
    | PostMark(block: bool, msg: Msg)                    // was the ring empty?
    | PostAdvance(block: bool, msg: Msg, wasEmpty: bool) // last++
    | PostNotify(wasEmpty: bool)                         // signal not_empty if it was
    | PostUnlock                                         // signal mutex
    | FetchLock(req: Request)                            // wait on mutex
    | FetchCheck(req: Request)                           // is the ring empty?
    | FetchMiss                                          // tryfetch: signal mutex, return SYS_MBOX_EMPTY
    | FetchYield(req: Request)                           // signal mutex
    | FetchSleep(req: Request)                           // wait on not_empty
    | FetchRelock(req: Request)                          // wait on mutex
    | FetchTake(req: Request)                            // read the slot
    | FetchAdvance(got: Option<Msg>)                     // first++
    | FetchNotify                                        // signal not_full if wait_send is not zero
    | FetchUnlock                                        // signal mutex

  /**
   The shared mailbox, with two histories: every message posted, and for every message removed what its fetcher
   was handed (None if it passed no place for it).
   */
  datatype Box = Box(
    first: int,
    last: int,
    slots: seq<Msg>,
    mutex: nat,
    notEmpty: nat,
    notFull: nat,
    waitSend: int,
    posted: seq<Msg>,
    handed: seq<Option<Msg>>)

  datatype State = State(box: Box, pc: map<Tid, Pc>)

  datatype Callers = Callers(posters: set<Tid>, fetchers: set<Tid>)

  datatype Act =
    | StartPost(block: bool, msg: Msg)
    | StartFetch(req: Request)
    | Run     // execute the statement at the program counter
    | Expire  // the timed wait on not_empty times out

  datatype Event = Event(t: Tid, act: Act)

  function At(s: State, t: Tid): Pc {
    if t in s.pc then s.pc[t] else Idle
  }

  /** t's program counter becomes pc and the mailbox becomes box. */
  function Goto(s: State, box: Box, t: Tid, pc: Pc): State {
    State(box, s.pc[t := pc])
  }

  /** sys_mbox_new: the slots are left as malloc returned them. */
  function Init(garbage: seq<Msg>): State {
    State(Box(0, 0, garbage, 1, 0, 0, 0, [], []), map[])
  }

  /** A thread that cannot execute its next statement: it waits on a semaphore whose counter is zero. */
  predicate Blocked(b: Box, pc: Pc) {
    match pc
    case PostLock(_, _) => b.mutex == 0
    case PostRelock(_) => b.mutex == 0
    case FetchLock(_) => b.mutex == 0
    case FetchRelock(_) => b.mutex == 0
    case PostSleep(_) => b.notFull == 0
    case FetchSleep(_) => b.notEmpty == 0
    case _ => false
  }

  /** A step of a call in progress. */
  predicate Continues(act: Act) {
    act.Run? || act.Expire?
  }

  predicate Enabled(who: Callers, s: State, e: Event) {
    match e.act
    case StartPost(block, _) => At(s, e.t) == Idle && (block ==> e.t in who.posters)
    case StartFetch(req) => At(s, e.t) == Idle && (req.block ==> e.t in who.fetchers)
    case Run => At(s, e.t) != Idle && !Blocked(s.box, At(s, e.t))
    case Expire => At(s, e.t).FetchSleep? && At(s, e.t).req.timed
  }

  function Next(who: Callers, s: State, e: Event): State
    requires Enabled(who, s, e) && |s.box.slots| == SYS_MBOX_SIZE
  {
    match e.act
    case StartPost(block, msg) => Goto(s, s.box, e.t, PostLock(block, msg))
    case StartFetch(req) => Goto(s, s.box, e.t, FetchLock(req))
    case Expire => Goto(s, s.box, e.t, Idle)
    case Run => Statement(s, e.t)
  }

  /** Thread t executes its next statement. */
  function Statement(s: State, t: Tid): State
    requires At(s, t) != Idle && !Blocked(s.box, At(s, t)) && |s.box.slots| == SYS_MBOX_SIZE
  {
    var (box, pc) := Effect(s.box, At(s, t));
    Goto(s, box, t, pc)
  }

  /** What the statement pc does to the mailbox, and which statement follows it. */
  function Effect(b: Box, pc: Pc): (Box, Pc)
    requires pc != Idle && !Blocked(b, pc) && |b.slots| == SYS_MBOX_SIZE
  {
    match pc
    case PostLock(block, msg) => (b.(mutex := b.mutex - 1), PostCheck(block, msg))
    case PostCheck(block, msg) =>
      if !Full(b.first, b.last) then (b, PostStore(block, msg))
      else if block then (b, PostCount(msg))
      else (b, PostReject)
    case PostReject => (b.(mutex := Signalled(b.mutex)), Idle)
    case PostCount(msg) => (b.(waitSend := b.waitSend + 1), PostYield(msg))
    case PostYield(msg) => (b.(mutex := Signalled(b.mutex)), PostSleep(msg))
    case PostSleep(msg) => (b.(notFull := b.notFull - 1), PostRelock(msg))
    case PostRelock(msg) => (b.(mutex := b.mutex - 1), PostUncount(msg))
    case PostUncount(msg) => (b.(waitSend := b.waitSend - 1), PostCheck(true, msg))
    case PostStore(block, msg) =>
      (b.(slots := b.slots[b.last % SYS_MBOX_SIZE := msg]), PostMark(block, msg))
    case PostMark(block, msg) => (b, PostAdvance(block, msg, b.last == b.first))
    case PostAdvance(block, msg, wasEmpty) =>
      (b.(last := b.last + 1, posted := b.posted + [msg]), PostNotify(wasEmpty))
    case PostNotify(wasEmpty) =>
      (if wasEmpty then b.(notEmpty := Signalled(b.notEmpty)) else b, PostUnlock)
    case PostUnlock => (b.(mutex := Signalled(b.mutex)), Idle)
    case FetchLock(req) => (b.(mutex := b.mutex - 1), FetchCheck(req))
    case FetchCheck(req) =>
      if b.first != b.last then (b, FetchTake(req))
      else if req.block then (b, FetchYield(req))
      else (b, FetchMiss)
    case FetchMiss => (b.(mutex := Signalled(b.mutex)), Idle)
    case FetchYield(req) => (b.(mutex := Signalled(b.mutex)), FetchSleep(req))
    case FetchSleep(req) => (b.(notEmpty := b.notEmpty - 1), FetchRelock(req))
    case FetchRelock(req) => (b.(mutex := b.mutex - 1), FetchCheck(req))
    case FetchTake(req) =>
      (b, FetchAdvance(if req.want then Some(b.slots[b.first % SYS_MBOX_SIZE]) else None))
    case FetchAdvance(got) =>
      (b.(first := b.first + 1, handed := b.handed + [got]), FetchNotify)
    case FetchNotify =>
      (if b.waitSend != 0 then b.(notFull := Signalled(b.notFull)) else b, FetchUnlock)
    case FetchUnlock => (b.(mutex := Signalled(b.mutex)), Idle)
  }

  /** An enabled event and where it leads. */
  predicate Steps(who: Callers, s: State, e: Event, s': State) {
    |s.box.slots| == SYS_MBOX_SIZE && Enabled(who, s, e) && s' == Next(who, s, e)
  }

  function StepOf(who: Callers): (State, Event, State) -> bool {
    (s: State, e: Event, s': State) => Steps(who, s, e, s')
  }

  /** s is reached from a new mailbox by some interleaving. */
  ghost predicate Reachable(who: Callers, s: State) {
    exists garbage {:trigger Init(garbage)} :: |garbage| == SYS_MBOX_SIZE && Reaches(StepOf(who), Init(garbage), s)
  }

  // ---------------------------------------------------------------- the invariant

  /** Between winning the mutex and giving it back. */
  predicate Inside(pc: Pc) {
    pc.PostCheck? || pc.PostReject? || pc.PostCount? || pc.PostYield? || pc.PostUncount? || pc.PostStore? ||
    pc.PostMark? || pc.PostAdvance? || pc.PostNotify? || pc.PostUnlock? || pc.FetchCheck? || pc.FetchMiss? ||
    pc.FetchYield? || pc.FetchTake? || pc.FetchAdvance? || pc.FetchNotify? || pc.FetchUnlock?
  }

  /** Between wait_send++ and wait_send--. */
  predicate Counted(pc: Pc) {
    pc.PostYield? || pc.PostSleep? || pc.PostRelock? || pc.PostUncount?
  }

  /** In a blocking fetch that may still go to sleep. */
  predicate MaySleep(pc: Pc) {
    (pc.FetchLock? || pc.FetchCheck? || pc.FetchYield? || pc.FetchSleep? || pc.FetchRelock?) && pc.req.block
  }

  /** A poster that was woken (or never slept) and has yet to test the ring again or to post. */
  predicate WillPost(pc: Pc) {
    pc.PostRelock? || pc.PostUncount? ||
    ((pc.PostCheck? || pc.PostStore? || pc.PostMark? || pc.PostAdvance?) && pc.block)
  }

  ghost predicate Exclusive(s: State) {
    && s.box.mutex <= 1
    && (forall t, u :: Inside(At(s, t)) && Inside(At(s, u)) ==> t == u)
    && (s.box.mutex == 0 <==> exists t :: Inside(At(s, t)))
  }

  predicate RingFacts(b: Box) {
    && RingOk(b.slots, b.first, b.last)
    && |b.posted| == b.last && |b.handed| == b.first
    && Window(b.slots, b.first, b.last) == b.posted[b.first..]
    && (forall i :: 0 <= i < |b.handed| ==> b.handed[i] == None || b.handed[i] == Some(b.posted[i]))
  }

  predicate LocalFacts(b: Box, pc: Pc)
    requires RingOk(b.slots, b.first, b.last)
  {
    match pc
    case PostReject => Full(b.first, b.last)
    case PostCount(_) => Full(b.first, b.last)
    case PostYield(_) => Full(b.first, b.last)
    case PostStore(_, _) => !Full(b.first, b.last)
    case PostMark(_, msg) => !Full(b.first, b.last) && b.slots[b.last % SYS_MBOX_SIZE] == msg
    case PostAdvance(_, msg, wasEmpty) =>
      && !Full(b.first, b.last) && b.slots[b.last % SYS_MBOX_SIZE] == msg
      && wasEmpty == (b.first == b.last)
    case PostNotify(wasEmpty) => wasEmpty == (b.last == b.first + 1) && b.first < b.last
    case FetchMiss => b.first == b.last
    case FetchYield(req) => b.first == b.last && req.block
    case FetchSleep(req) => req.block
    case FetchRelock(req) => req.block
    case FetchTake(_) => b.first < b.last
    case FetchAdvance(got) =>
      b.first < b.last && (got == None || got == Some(b.slots[b.first % SYS_MBOX_SIZE]))
    case _ => true
  }

  ghost predicate Local(s: State)
    requires RingOk(s.box.slots, s.box.first, s.box.last)
  {
    forall t :: LocalFacts(s.box, At(s, t))
  }

  function CountedSet(s: State): set<Tid> {
    set t | t in s.pc && Counted(s.pc[t])
  }

  predicate WaitSendCounts(s: State) {
    s.box.waitSend == |CountedSet(s)|
  }

  /** In a blocking post that may still go to sleep. */
  predicate MayBlock(pc: Pc) {
    pc.PostCount? || pc.PostYield? || pc.PostSleep? || pc.PostRelock? || pc.PostUncount? ||
    ((pc.PostLock? || pc.PostCheck?) && pc.block)
  }

  /** Only the named threads block, and the two signalling semaphores hold at most one token. */
  ghost predicate Roles(who: Callers, s: State) {
    && s.box.notEmpty <= 1 && s.box.notFull <= 1
    && (forall t :: MaySleep(At(s, t)) ==> t in who.fetchers)
    && (forall t :: MayBlock(At(s, t)) ==> t in who.posters)
  }

  /** If a fetcher sleeps although messages are pending, a token is there or a poster owes the signal. */
  ghost predicate FetcherNotLost(s: State) {
    forall t :: At(s, t).FetchSleep? && s.box.first < s.box.last ==>
      s.box.notEmpty == 1 || exists u :: At(s, u) == PostNotify(true)
  }

  /** If a poster sleeps, somebody can still be relied on to wake it. */
  ghost predicate PosterNotStranded(s: State) {
    forall t :: At(s, t).PostSleep? ==>
      s.box.first < s.box.last || s.box.notFull == 1 || exists u :: WillPost(At(s, u)) || At(s, u).FetchNotify?
  }

  /** If a poster sleeps although there is room, a token is there or a fetcher owes the signal. */
  ghost predicate PosterNotLost(s: State) {
    forall t :: At(s, t).PostSleep? && !Full(s.box.first, s.box.last) ==>
      s.box.notFull == 1 || exists u :: At(s, u).FetchNotify?
  }

  /** Everything that holds whatever the number of blocking fetchers. */
  ghost predicate Inv(who: Callers, s: State) {
    Exclusive(s) && RingFacts(s.box) && Local(s) && WaitSendCounts(s) && Roles(who, s) && PosterNotStranded(s)
  }

  // ---------------------------------------------------------------- preservation, one conjunct at a time

  lemma OthersStay(who: Callers, s: State, e: Event)
    requires |s.box.slots| == SYS_MBOX_SIZE && Enabled(who, s, e)
    ensures |Next(who, s, e).box.slots| == SYS_MBOX_SIZE
    ensures forall u :: u != e.t ==> At(Next(who, s, e), u) == At(s, u)
  {
  }

  lemma ExclusiveKept(who: Callers, s: State, e: Event)
    requires |s.box.slots| == SYS_MBOX_SIZE && Enabled(who, s, e) && Exclusive(s)
    ensures Exclusive(Next(who, s, e))
  {
    var s' := Next(who, s, e);
    OthersStay(who, s, e);
    assert Inside(At(s, e.t)) || Inside(At(s', e.t)) || s'.box.mutex == s.box.mutex;
    if Inside(At(s', e.t)) {
      assert s'.box.mutex == 0;
    } else if Inside(At(s, e.t)) {
      assert s'.box.mutex == 1;
    }
  }

  /** The other statements leave the ring and the histories alone. */
  lemma RingSpared(b: Box, pc: Pc)
    requires pc != Idle && !Blocked(b, pc) && |b.slots| == SYS_MBOX_SIZE
    requires !pc.PostStore? && !pc.PostAdvance? && !pc.FetchAdvance?
    ensures var b' := Effect(b, pc).0;
            && b'.slots == b.slots && b'.first == b.first && b'.last == b.last
            && b'.posted == b.posted && b'.handed == b.handed
  {
  }

  lemma RingKept(who: Callers, s: State, e: Event)
    requires RingFacts(s.box) && LocalFacts(s.box, At(s, e.t)) && Enabled(who, s, e)
    ensures RingFacts(Next(who, s, e).box)
  {
    var s' := Next(who, s, e);
    if e.act == Run {
      match At(s, e.t) {
        case PostStore(_, msg) =>
          WindowPush(s.box.slots, s.box.first, s.box.last, msg);
        case PostAdvance(_, msg, _) =>
          WindowPush(s.box.slots, s.box.first, s.box.last, msg);
          assert s.box.slots[s.box.last % SYS_MBOX_SIZE := msg] == s.box.slots;
        case FetchAdvance(got) =>
          WindowPop(s.box.slots, s.box.first, s.box.last);
          assert s.box.posted[s.box.first..] == [s.box.posted[s.box.first]] + s.box.posted[s.box.first + 1..];
        case _ =>
          RingSpared(s.box, At(s, e.t));
      }
    }
  }

  lemma LocalKept(who: Callers, s: State, e: Event)
    requires Inv(who, s) && Enabled(who, s, e)
    requires RingFacts(Next(who, s, e).box)
    ensures Local(Next(who, s, e))
  {
    var s' := Next(who, s, e);
    OthersStay(who, s, e);
    assert LocalFacts(s.box, At(s, e.t));
    forall u ensures LocalFacts(s'.box, At(s', u)) {
      assert LocalFacts(s.box, At(s, u));
      if u != e.t && Inside(At(s, u)) {
        assert !Inside(At(s, e.t));
        assert s'.box.first == s.box.first && s'.box.last == s.box.last && s'.box.slots == s.box.slots;
      }
    }
  }

  lemma CountedSetUpdate(s: State, t: Tid, pc: Pc)
    ensures CountedSet(Goto(s, s.box, t, pc)) == if Counted(pc) then CountedSet(s) + {t} else CountedSet(s) - {t}
  {
  }

  lemma WaitSendMoves(who: Callers, s: State, e: Event)
    requires |s.box.slots| == SYS_MBOX_SIZE && Enabled(who, s, e)
    ensures var s' := Next(who, s, e);
            && s'.pc == s.pc[e.t := At(s', e.t)]
            && s'.box.waitSend == s.box.waitSend + (if Counted(At(s', e.t)) then 1 else 0)
                                         - (if Counted(At(s, e.t)) then 1 else 0)
  {
  }

  lemma WaitSendKept(who: Callers, s: State, e: Event)
    requires |s.box.slots| == SYS_MBOX_SIZE && Enabled(who, s, e) && WaitSendCounts(s)
    ensures WaitSendCounts(Next(who, s, e))
  {
    var pc := At(Next(who, s, e), e.t);
    WaitSendMoves(who, s, e);
    CountedSetUpdate(s, e.t, pc);
    assert CountedSet(Next(who, s, e)) == CountedSet(Goto(s, s.box, e.t, pc));
    assert e.t in CountedSet(s) <==> Counted(At(s, e.t));
  }

  lemma RolesKept(who: Callers, s: State, e: Event)
    requires |s.box.slots| == SYS_MBOX_SIZE && Enabled(who, s, e) && Roles(who, s)
    ensures Roles(who, Next(who, s, e))
  {
    OthersStay(who, s, e);
    assert MaySleep(At(s, e.t)) ==> e.t in who.fetchers;
    assert MayBlock(At(s, e.t)) ==> e.t in who.posters;
  }

  lemma SleeperIsCounted(s: State, t: Tid)
    requires WaitSendCounts(s) && Counted(At(s, t))
    ensures s.box.waitSend > 0
  {
    assert t in CountedSet(s);
  }

  lemma PosterKept(who: Callers, s: State, e: Event)
    requires Inv(who, s) && Enabled(who, s, e)
    ensures PosterNotStranded(Next(who, s, e))
  {
    var s' := Next(who, s, e);
    OthersStay(who, s, e);
    assert LocalFacts(s.box, At(s, e.t));
    forall t | At(s', t).PostSleep?
      ensures s'.box.first < s'.box.last || s'.box.notFull == 1 ||
              exists u :: WillPost(At(s', u)) || At(s', u).FetchNotify?
    {
      if t != e.t {
        assert At(s, t).PostSleep?;
        SleeperIsCounted(s, t);
        if WillPost(At(s', e.t)) || At(s', e.t).FetchNotify? {
          // the thread that moved is the one to rely on
        } else if u :| WillPost(At(s, u)) || At(s, u).FetchNotify? {
          assert u != e.t ==> At(s', u) == At(s, u);
        }
      }
    }
  }

  lemma FetcherKept(who: Callers, s: State, e: Event)
    requires Inv(who, s) && Enabled(who, s, e) && AtMostOne(who.fetchers) && FetcherNotLost(s)
    ensures FetcherNotLost(Next(who, s, e))
  {
    var s' := Next(who, s, e);
    OthersStay(who, s, e);
    assert LocalFacts(s.box, At(s, e.t));
    forall t | At(s', t).FetchSleep? && s'.box.first < s'.box.last
      ensures s'.box.notEmpty == 1 || exists u :: At(s', u) == PostNotify(true)
    {
      if t != e.t {
        assert LocalFacts(s.box, At(s, t)) && MaySleep(At(s, t)) && t in who.fetchers;
        if At(s', e.t) == PostNotify(true) {
          // the thread that moved owes the signal
        } else if u :| At(s, u) == PostNotify(true) {
          assert u != e.t ==> At(s', u) == PostNotify(true);
        }
      }
    }
  }

  lemma PosterWakeKept(who: Callers, s: State, e: Event)
    requires Inv(who, s) && Enabled(who, s, e) && AtMostOne(who.posters) && PosterNotLost(s)
    ensures PosterNotLost(Next(who, s, e))
  {
    var s' := Next(who, s, e);
    OthersStay(who, s, e);
    assert LocalFacts(s.box, At(s, e.t));
    forall t | At(s', t).PostSleep? && !Full(s'.box.first, s'.box.last)
      ensures s'.box.notFull == 1 || exists u :: At(s', u).FetchNotify?
    {
      if t != e.t {
        assert MayBlock(At(s, t)) && t in who.posters;
        SleeperIsCounted(s, t);
        if At(s', e.t).FetchNotify? {
          // the thread that moved owes the signal
        } else if u :| At(s, u).FetchNotify? {
          assert u != e.t ==> At(s', u).FetchNotify?;
        }
      }
    }
  }

  lemma StepKeepsInv(who: Callers, s: State, e: Event)
    requires Inv(who, s) && Enabled(who, s, e)
    ensures Inv(who, Next(who, s, e))
  {
    ExclusiveKept(who, s, e);
    assert LocalFacts(s.box, At(s, e.t));
    RingKept(who, s, e);
    LocalKept(who, s, e);
    WaitSendKept(who, s, e);
    RolesKept(who, s, e);
    PosterKept(who, s, e);
  }

  /** With what needs a single fetcher, and what needs a single poster. */
  ghost predicate WakingInv(who: Callers, s: State) {
    && Inv(who, s)
    && (AtMostOne(who.fetchers) ==> FetcherNotLost(s))
    && (AtMostOne(who.posters) ==> PosterNotLost(s))
  }

  lemma StepKeepsWaking(who: Callers, s: State, e: Event)
    requires WakingInv(who, s) && Enabled(who, s, e)
    ensures WakingInv(who, Next(who, s, e))
  {
    StepKeepsInv(who, s, e);
    if AtMostOne(who.fetchers) {
      FetcherKept(who, s, e);
    }
    if AtMostOne(who.posters) {
      PosterWakeKept(who, s, e);
    }
  }

  lemma InitInv(who: Callers, garbage: seq<Msg>)
    requires |garbage| == SYS_MBOX_SIZE
    ensures WakingInv(who, Init(garbage))
  {
    assert CountedSet(Init(garbage)) == {};
  }

  lemma RunKeepsInv(who: Callers, garbage: seq<Msg>, s: State)
    requires |garbage| == SYS_MBOX_SIZE && Reaches(StepOf(who), Init(garbage), s)
    ensures WakingInv(who, s)
  {
    InitInv(who, garbage);
    forall s, e, s' | StepOf(who)(s, e, s') && WakingInv(who, s) ensures WakingInv(who, s') {
      StepKeepsWaking(who, s, e);
    }
    Invariant(StepOf(who), (s: State) => WakingInv(who, s), Init(garbage), s);
  }

  /** The invariant holds in every reachable state; the last clauses need a single fetcher, a single poster. */
  lemma ReachableInv(who: Callers, s: State)
    requires Reachable(who, s)
    ensures Inv(who, s)
    ensures AtMostOne(who.fetchers) ==> FetcherNotLost(s)
    ensures AtMostOne(who.posters) ==> PosterNotLost(s)
  {
    var garbage :| |garbage| == SYS_MBOX_SIZE && Reaches(StepOf(who), Init(garbage), s);
    RunKeepsInv(who, garbage, s);
  }
}
