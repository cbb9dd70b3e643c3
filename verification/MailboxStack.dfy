/**
 The mailbox as it runs: the operations of module MailboxProtocol, each of whose waits and signals is a whole call
 of the condition-variable semaphore of module Semaphore.  Every run of this stack is shown to be a run of the
 mailbox over atomic semaphores, so that what is proved there holds here.
 */
module MailboxStack {
  import opened Common
  import opened MailboxRing
  import opened Paths
  import M = MailboxProtocol
  import P = MailboxProperties
  import S = Semaphore

  /** The three semaphores of a mailbox. */
  datatype Which = Mutex | NotEmpty | NotFull

  /** The fields of the mailbox beside them, with the two histories. */
  datatype Words = Words(
    first: int,
    last: int,
    slots: seq<Msg>,
    waitSend: int,
    posted: seq<Msg>,
    handed: seq<Option<Msg>>)

  /** pc[t]: the mailbox statement at which t is; if that is a call of a semaphore, t's place within it is there. */
  datatype State = State(words: Words, pc: map<Tid, M.Pc>, mutex: S.State, notEmpty: S.State, notFull: S.State)

  datatype Act =
    | StartPost(block: bool, msg: Msg)
    | StartFetch(req: M.Request)
    | Run
    | WakeSpuriously
    | TimeOut

  datatype Event = Event(t: Tid, act: Act)

  datatype Call = Call(on: Which, act: S.Act)

  function At(s: State, t: Tid): M.Pc {
    if t in s.pc then s.pc[t] else M.Idle
  }

  function Part(s: State, w: Which): S.State {
    match w
    case Mutex => s.mutex
    case NotEmpty => s.notEmpty
    case NotFull => s.notFull
  }

  function Put(s: State, w: Which, part: S.State): State {
    match w
    case Mutex => s.(mutex := part)
    case NotEmpty => s.(notEmpty := part)
    case NotFull => s.(notFull := part)
  }

  /** sys_mbox_new: the mutex is free, nothing is signalled. */
  function Count(w: Which): nat {
    if w.Mutex? then 1 else 0
  }

  function Init(garbage: seq<Msg>): State {
    State(Words(0, 0, garbage, 0, [], []), map[], S.Init(Count(Mutex)), S.Init(Count(NotEmpty)), S.Init(Count(NotFull)))
  }

  /** The semaphore call that a statement consists of.  The one after a removal is skipped if no poster is counted. */
  function Uses(pc: M.Pc): Option<Call> {
    match pc
    case PostLock(_, _) => Some(Call(Mutex, S.CallWait(false)))
    case PostRelock(_) => Some(Call(Mutex, S.CallWait(false)))
    case FetchLock(_) => Some(Call(Mutex, S.CallWait(false)))
    case FetchRelock(_) => Some(Call(Mutex, S.CallWait(false)))
    case PostReject => Some(Call(Mutex, S.CallSignal))
    case PostYield(_) => Some(Call(Mutex, S.CallSignal))
    case PostUnlock => Some(Call(Mutex, S.CallSignal))
    case FetchMiss => Some(Call(Mutex, S.CallSignal))
    case FetchYield(_) => Some(Call(Mutex, S.CallSignal))
    case FetchUnlock => Some(Call(Mutex, S.CallSignal))
    case PostSleep(_) => Some(Call(NotFull, S.CallWait(false)))
    case FetchSleep(req) => Some(Call(NotEmpty, S.CallWait(req.timed)))
    case PostNotify(wasEmpty) => if wasEmpty then Some(Call(NotEmpty, S.CallSignal)) else None
    case FetchNotify => Some(Call(NotFull, S.CallSignal))
    case _ => None
  }

  /** Where t is within the semaphore call of its statement; Idle before the call, or if there is none. */
  function Inner(s: State, t: Tid): S.Pc {
    match Uses(At(s, t))
    case None => S.Idle
    case Some(call) => S.At(Part(s, call.on), t)
  }

  function Fill(words: Words, mutex: nat, notEmpty: nat, notFull: nat): M.Box {
    M.Box(words.first, words.last, words.slots, mutex, notEmpty, notFull, words.waitSend, words.posted, words.handed)
  }

  function Strip(b: M.Box): Words {
    Words(b.first, b.last, b.slots, b.waitSend, b.posted, b.handed)
  }

  /** A statement without regard to the semaphores. */
  function Plain(words: Words, pc: M.Pc): (Words, M.Pc)
    requires pc != M.Idle && |words.slots| == SYS_MBOX_SIZE
  {
    var (box, pc') := M.Effect(Fill(words, 1, 1, 1), pc);
    (Strip(box), pc')
  }

  /** The statement after a semaphore call. */
  function After(pc: M.Pc): M.Pc
    requires Uses(pc).Some?
  {
    match pc
    case PostLock(block, msg) => M.PostCheck(block, msg)
    case PostReject => M.Idle
    case PostYield(msg) => M.PostSleep(msg)
    case PostSleep(msg) => M.PostRelock(msg)
    case PostRelock(msg) => M.PostUncount(msg)
    case PostNotify(_) => M.PostUnlock
    case PostUnlock => M.Idle
    case FetchLock(req) => M.FetchCheck(req)
    case FetchMiss => M.Idle
    case FetchYield(req) => M.FetchSleep(req)
    case FetchSleep(req) => M.FetchRelock(req)
    case FetchRelock(req) => M.FetchCheck(req)
    case FetchNotify => M.FetchUnlock
    case FetchUnlock => M.Idle
  }

  /** t's next statement makes no semaphore call. */
  predicate Local(s: State, t: Tid) {
    Uses(At(s, t)) == None || (At(s, t).FetchNotify? && Inner(s, t).Idle? && s.words.waitSend == 0)
  }

  predicate Enabled(who: M.Callers, s: State, e: Event) {
    match e.act
    case StartPost(block, _) => At(s, e.t) == M.Idle && (block ==> e.t in who.posters)
    case StartFetch(req) => At(s, e.t) == M.Idle && (req.block ==> e.t in who.fetchers)
    case Run =>
      && At(s, e.t) != M.Idle
      && (Inner(s, e.t) != S.Idle ==> !S.Blocked(Part(s, Uses(At(s, e.t)).value.on).sem, Inner(s, e.t)))
    case WakeSpuriously => Inner(s, e.t).Parked?
    case TimeOut => Inner(s, e.t).Parked? && Inner(s, e.t).timed
  }

  /** The semaphore event that an event is. */
  function Within(s: State, e: Event): S.Event
    requires Uses(At(s, e.t)).Some?
  {
    S.Event(e.t, match e.act
                 case WakeSpuriously => S.WakeSpuriously
                 case TimeOut => S.TimeOut
                 case _ => if Inner(s, e.t) == S.Idle then Uses(At(s, e.t)).value.act else S.Run)
  }

  function Next(who: M.Callers, s: State, e: Event): (r: State)
    requires Enabled(who, s, e) && |s.words.slots| == SYS_MBOX_SIZE
    ensures |r.words.slots| == SYS_MBOX_SIZE
  {
    match e.act
    case StartPost(block, msg) => Turn(s, e.t, s.words, M.PostLock(block, msg))
    case StartFetch(req) => Turn(s, e.t, s.words, M.FetchLock(req))
    case Run =>
      if Local(s, e.t) then
        var (words, pc) := Plain(s.words, At(s, e.t));
        Turn(s, e.t, words, pc)
      else
        InCall(s, e)
    case _ => InCall(s, e)
  }

  /** t goes on to the statement pc, the semaphores staying as they are. */
  function Turn(s: State, t: Tid, words: Words, pc: M.Pc): State {
    s.(words := words, pc := s.pc[t := pc])
  }

  /** A step of a semaphore call. */
  function InCall(s: State, e: Event): State
    requires Uses(At(s, e.t)).Some? && S.Enabled(Part(s, Uses(At(s, e.t)).value.on), Within(s, e))
  {
    Carry(s, e.t, S.Next(Part(s, Uses(At(s, e.t)).value.on), Within(s, e)))
  }

  /** The semaphore of t's call becomes part.  When the call returns t goes on: after a timeout out of its fetch. */
  function Carry(s: State, t: Tid, part: S.State): State
    requires Uses(At(s, t)).Some?
  {
    var s' := Put(s, Uses(At(s, t)).value.on, part);
    if S.At(part, t) != S.Idle then s'
    else s'.(pc := s.pc[t := if Inner(s, t).GiveUp? then M.Idle else After(At(s, t))])
  }

  /** An enabled event and where it leads. */
  predicate Steps(who: M.Callers, s: State, e: Event, s': State) {
    |s.words.slots| == SYS_MBOX_SIZE && Enabled(who, s, e) && s' == Next(who, s, e)
  }

  function StepOf(who: M.Callers): (State, Event, State) -> bool {
    (s: State, e: Event, s': State) => Steps(who, s, e, s')
  }

  ghost predicate Reachable(who: M.Callers, s: State) {
    exists garbage {:trigger Init(garbage)} :: |garbage| == SYS_MBOX_SIZE && Reaches(StepOf(who), Init(garbage), s)
  }

  // ---------------------------------------------------------------- what the callers see of it

  /** How much of a semaphore call its caller could tell. */
  datatype Stage = Pending | Done | TimedOut

  /** A wait has taken effect when the counter went down, a signal when it was clamped, a timeout when it fired. */
  function StageOf(inner: S.Pc): Stage {
    if inner.WaitUnlock? || inner.SignalWake? || inner.SignalUnlock? then Done
    else if inner.Expired? || inner.GiveUp? then TimedOut
    else Pending
  }

  /** The statement at which the callers see a thread. */
  function Seen(pc: M.Pc, inner: S.Pc): M.Pc {
    if Uses(pc) == None then pc
    else
      match StageOf(inner)
      case Pending => pc
      case Done => After(pc)
      case TimedOut => M.Idle
  }

  function SeenAt(s: State, t: Tid): M.Pc {
    Seen(At(s, t), Inner(s, t))
  }

  ghost predicate PartSound(s: State, w: Which) {
    S.Inv(Count(w), Part(s, w))
  }

  /** The semaphores keep their invariants. */
  ghost predicate Sound(s: State) {
    forall w {:trigger PartSound(s, w)} :: PartSound(s, w)
  }

  /** The counter as the callers see it; it is never negative, as the semaphore's invariant says. */
  function Counter(part: S.State): nat {
    var v := S.Value(part.sem, S.HolderPc(part));
    if v < 0 then 0 else v
  }

  function Abs(s: State): M.State {
    M.State(Fill(s.words, Counter(s.mutex), Counter(s.notEmpty), Counter(s.notFull)),
            map t | t in s.pc :: SeenAt(s, t))
  }

  /** inner is a place within such a call. */
  predicate Fits(act: S.Act, inner: S.Pc) {
    match inner
    case WaitLock(timed) => act == S.CallWait(timed)
    case WaitTest(timed) => act == S.CallWait(timed)
    case WaitPark(timed) => act == S.CallWait(timed)
    case Parked(timed) => act == S.CallWait(timed)
    case Woken(timed) => act == S.CallWait(timed)
    case Expired => act == S.CallWait(true)
    case GiveUp => act == S.CallWait(true)
    case WaitTake => act.CallWait?
    case WaitUnlock => act.CallWait?
    case _ => act == S.CallSignal
  }

  /** t is in a call of the semaphore w only if that is its statement. */
  predicate InPlace(pc: M.Pc, w: Which, inner: S.Pc) {
    inner != S.Idle ==> Uses(pc).Some? && Uses(pc).value.on == w && Fits(Uses(pc).value.act, inner)
  }

  predicate Placed(s: State, w: Which, t: Tid) {
    InPlace(At(s, t), w, S.At(Part(s, w), t))
  }

  ghost predicate Linked(s: State) {
    forall w, t: Tid {:trigger Placed(s, w, t)} :: Placed(s, w, t)
  }

  predicate SignalsNotFull(s: State, t: Tid) {
    At(s, t).FetchNotify? && Inner(s, t) != S.Idle
  }

  /** A fetcher that signals not_full found a poster counted, and the poster still is. */
  ghost predicate Due(s: State) {
    forall t: Tid :: SignalsNotFull(s, t) ==> s.words.waitSend != 0
  }

  ghost predicate Inv(s: State) {
    Sound(s) && Linked(s) && Due(s) && |s.words.slots| == SYS_MBOX_SIZE
  }

  lemma AbsAt(s: State, t: Tid)
    ensures M.At(Abs(s), t) == SeenAt(s, t)
  {
  }

  // ---------------------------------------------------------------- what a step moves

  /** Outside its semaphore calls a thread is in none of the semaphores. */
  lemma OutOfCalls(s: State, t: Tid)
    requires Linked(s) && (Uses(At(s, t)) == None || Inner(s, t) == S.Idle)
    ensures forall w :: S.At(Part(s, w), t) == S.Idle
  {
    forall w ensures S.At(Part(s, w), t) == S.Idle {
      assert Placed(s, w, t);
    }
  }

  /** A woken thread is where it was, as far as the callers can tell. */
  predicate Same(inner: S.Pc, inner': S.Pc) {
    inner' == inner || (inner.Parked? && inner' == S.Woken(inner.timed))
  }

  predicate Stays(part: S.State, part': S.State, u: Tid) {
    Same(S.At(part, u), S.At(part', u))
  }

  /** In a semaphore only t moves. */
  ghost predicate PartMoves(part: S.State, part': S.State, t: Tid) {
    forall u: Tid {:trigger Stays(part, part', u)} :: u != t ==> Stays(part, part', u)
  }

  /** Only t moves; the other threads may have been woken. */
  ghost predicate OnlyMoves(s: State, s': State, t: Tid) {
    && s'.pc.Keys == s.pc.Keys + {t}
    && (forall u: Tid :: u != t ==> At(s', u) == At(s, u))
    && (forall w {:trigger PartMoves(Part(s, w), Part(s', w), t)} :: PartMoves(Part(s, w), Part(s', w), t))
  }

  lemma CarryMoves(s: State, t: Tid, part: S.State)
    requires Uses(At(s, t)).Some? && PartMoves(Part(s, Uses(At(s, t)).value.on), part, t)
    ensures OnlyMoves(s, Carry(s, t, part), t)
  {
  }

  lemma CarryAt(s: State, t: Tid, part: S.State, v: Which)
    requires Uses(At(s, t)).Some?
    ensures Part(Carry(s, t, part), v) == if v == Uses(At(s, t)).value.on then part else Part(s, v)
  {
  }

  lemma CarrySound(s: State, t: Tid, part: S.State)
    requires Uses(At(s, t)).Some? && Sound(s) && S.Inv(Count(Uses(At(s, t)).value.on), part)
    ensures Sound(Carry(s, t, part))
  {
    forall v ensures PartSound(Carry(s, t, part), v) {
      CarryAt(s, t, part, v);
      assert PartSound(s, v);
    }
  }

  /** The event is a step of a semaphore call. */
  predicate Inside(who: M.Callers, s: State, e: Event) {
    Enabled(who, s, e) && !e.act.StartPost? && !e.act.StartFetch? && !Local(s, e.t)
  }

  lemma CallMoves(who: M.Callers, s: State, e: Event)
    requires Sound(s) && Inside(who, s, e)
    ensures var part, within := Part(s, Uses(At(s, e.t)).value.on), Within(s, e);
            && S.Enabled(part, within)
            && S.Inv(Count(Uses(At(s, e.t)).value.on), S.Next(part, within))
            && PartMoves(part, S.Next(part, within), e.t)
  {
    var w := Uses(At(s, e.t)).value.on;
    assert PartSound(s, w);
    S.StepKeepsInv(Count(w), Part(s, w), Within(s, e));
    S.OthersStay(Part(s, w), Within(s, e));
  }

  lemma SameSeen(pc: M.Pc, w: Which, inner: S.Pc, inner': S.Pc)
    requires InPlace(pc, w, inner) && Same(inner, inner')
    ensures InPlace(pc, w, inner') && Seen(pc, inner') == Seen(pc, inner) && (inner' == S.Idle <==> inner == S.Idle)
  {
  }

  lemma OthersPlaced(s: State, s': State, t: Tid, u: Tid, w: Which)
    requires Linked(s) && OnlyMoves(s, s', t) && u != t
    ensures Placed(s', w, u)
    ensures var inner, inner' := S.At(Part(s, w), u), S.At(Part(s', w), u);
            Seen(At(s, u), inner') == Seen(At(s, u), inner) && (inner' == S.Idle <==> inner == S.Idle)
  {
    assert Placed(s, w, u) && PartMoves(Part(s, w), Part(s', w), t) && Stays(Part(s, w), Part(s', w), u);
    SameSeen(At(s, u), w, S.At(Part(s, w), u), S.At(Part(s', w), u));
  }

  /** The other threads' calls go on as they were. */
  lemma OthersKept(s: State, s': State, t: Tid, u: Tid)
    requires Linked(s) && OnlyMoves(s, s', t) && u != t
    ensures forall w {:trigger Placed(s', w, u)} :: Placed(s', w, u)
    ensures SeenAt(s', u) == SeenAt(s, u)
    ensures Inner(s', u) == S.Idle <==> Inner(s, u) == S.Idle
  {
    forall w ensures Placed(s', w, u) {
      OthersPlaced(s, s', t, u, w);
    }
    if Uses(At(s, u)).Some? {
      OthersPlaced(s, s', t, u, Uses(At(s, u)).value.on);
    }
  }

  /** So the callers see t move and nobody else. */
  lemma AbsMoves(s: State, s': State, t: Tid)
    requires Linked(s) && OnlyMoves(s, s', t)
    ensures Abs(s') == M.Goto(Abs(s), Abs(s').box, t, SeenAt(s', t))
  {
    forall u: Tid | u in s'.pc && u != t
      ensures SeenAt(s', u) == SeenAt(s, u)
    {
      OthersKept(s, s', t, u);
    }
  }

  // ---------------------------------------------------------------- a step keeps the invariant

  lemma FitsKept(act: S.Act, sem: S.Sem, t: Tid, inner: S.Pc)
    requires inner != S.Idle && !S.Blocked(sem, inner) && Fits(act, inner)
    ensures var inner' := S.Effect(sem, t, inner).1; inner' == S.Idle || Fits(act, inner')
  {
  }

  /** t's own call after its step. */
  lemma OwnCall(who: M.Callers, s: State, e: Event)
    requires Linked(s) && Inside(who, s, e)
    ensures var call := Uses(At(s, e.t)).value;
            var inner' := S.At(S.Next(Part(s, call.on), Within(s, e)), e.t);
            inner' == S.Idle || Fits(call.act, inner')
  {
    var call, inner := Uses(At(s, e.t)).value, Inner(s, e.t);
    assert Placed(s, call.on, e.t);
    if inner != S.Idle && e.act.Run? {
      FitsKept(call.act, Part(s, call.on).sem, e.t, inner);
    }
  }

  lemma CarryOwn(s: State, t: Tid, part: S.State)
    requires Linked(s) && Uses(At(s, t)).Some?
    requires S.At(part, t) == S.Idle || Fits(Uses(At(s, t)).value.act, S.At(part, t))
    ensures forall w {:trigger Placed(Carry(s, t, part), w, t)} :: Placed(Carry(s, t, part), w, t)
  {
    forall w ensures Placed(Carry(s, t, part), w, t) {
      CarryAt(s, t, part, w);
      assert Placed(s, w, t);
    }
  }

  /** If t's own calls are in order after its step, everybody's are. */
  lemma LinkedKept(s: State, s': State, t: Tid)
    requires Linked(s) && OnlyMoves(s, s', t)
    requires forall w {:trigger Placed(s', w, t)} :: Placed(s', w, t)
    ensures Linked(s')
  {
    forall w, u: Tid ensures Placed(s', w, u) {
      if u != t {
        OthersKept(s, s', t, u);
      }
    }
  }

  /** A fetcher that signals not_full is alone under the mutex. */
  lemma AloneInside(s: State, t: Tid)
    requires Linked(s) && M.Exclusive(Abs(s)) && M.Inside(M.At(Abs(s), t))
    ensures forall u: Tid :: SignalsNotFull(s, u) ==> u == t
  {
    forall u: Tid | SignalsNotFull(s, u) ensures u == t {
      assert Placed(s, NotFull, u);
      AbsAt(s, u);
    }
  }

  /** So wait_send does not change meanwhile. */
  lemma DueKept(s: State, s': State, t: Tid)
    requires Linked(s) && OnlyMoves(s, s', t) && Due(s)
    requires s'.words.waitSend == s.words.waitSend || forall u: Tid :: SignalsNotFull(s, u) ==> u == t
    requires SignalsNotFull(s', t) ==> s'.words.waitSend != 0
    ensures Due(s')
  {
    forall u: Tid | SignalsNotFull(s', u) ensures s'.words.waitSend != 0 {
      if u != t {
        OthersKept(s, s', t, u);
        assert SignalsNotFull(s, u);
      }
    }
  }

  // ---------------------------------------------------------------- a step is a step of the mailbox

  /** The mailbox event that an event is, if the callers see it at all. */
  function Shadow(s: State, e: Event): Option<M.Event> {
    match e.act
    case StartPost(block, msg) => Some(M.Event(e.t, M.StartPost(block, msg)))
    case StartFetch(req) => Some(M.Event(e.t, M.StartFetch(req)))
    case TimeOut => Some(M.Event(e.t, M.Expire))
    case WakeSpuriously => None
    case Run =>
      if Local(s, e.t) || Inner(s, e.t).WaitTake? || Inner(s, e.t).SignalClamp? then Some(M.Event(e.t, M.Run))
      else None
  }

  /** From a to b by the event, or by nothing. */
  predicate Follows(who: M.Callers, a: M.State, e: Option<M.Event>, b: M.State) {
    match e
    case None => b == a
    case Some(e) => |a.box.slots| == SYS_MBOX_SIZE && M.Enabled(who, a, e) && b == M.Next(who, a, e)
  }

  /** t outside any semaphore call goes on to the statement pc. */
  lemma TurnSimulates(s: State, t: Tid, words: Words, pc: M.Pc)
    requires Linked(s) && (Uses(At(s, t)) == None || Inner(s, t) == S.Idle)
    ensures var s' := Turn(s, t, words, pc);
            && OnlyMoves(s, s', t) && Linked(s') && Inner(s', t) == S.Idle
            && Abs(s') == M.Goto(Abs(s), Fill(words, Counter(s.mutex), Counter(s.notEmpty), Counter(s.notFull)), t, pc)
  {
    var s' := Turn(s, t, words, pc);
    OutOfCalls(s, t);
    assert forall w :: Part(s', w) == Part(s, w);
    LinkedKept(s, s', t);
    AbsMoves(s, s', t);
  }

  lemma TurnSound(s: State, t: Tid, words: Words, pc: M.Pc)
    requires Sound(s)
    ensures Sound(Turn(s, t, words, pc))
  {
    forall w ensures PartSound(Turn(s, t, words, pc), w) {
      assert PartSound(s, w);
    }
  }

  lemma StartSimulates(who: M.Callers, s: State, e: Event)
    requires Inv(s) && Enabled(who, s, e) && (e.act.StartPost? || e.act.StartFetch?)
    ensures Inv(Next(who, s, e)) && Follows(who, Abs(s), Shadow(s, e), Abs(Next(who, s, e)))
  {
    var s' := Next(who, s, e);
    var pc := At(s', e.t);
    assert s' == Turn(s, e.t, s.words, pc);
    TurnSound(s, e.t, s.words, pc);
    TurnSimulates(s, e.t, s.words, pc);
    DueKept(s, s', e.t);
    AbsAt(s, e.t);
  }

  lemma PlainIsEffect(words: Words, mutex: nat, notEmpty: nat, notFull: nat, pc: M.Pc)
    requires pc != M.Idle && |words.slots| == SYS_MBOX_SIZE
    requires Uses(pc) == None || (pc.FetchNotify? && words.waitSend == 0)
    ensures var b, (words', pc') := Fill(words, mutex, notEmpty, notFull), Plain(words, pc);
            && !M.Blocked(b, pc) && M.Effect(b, pc) == (Fill(words', mutex, notEmpty, notFull), pc')
            && (words'.waitSend != words.waitSend ==> M.Inside(pc))
  {
  }

  lemma LocalSimulates(who: M.Callers, s: State, e: Event)
    requires Inv(s) && Enabled(who, s, e) && e.act.Run? && Local(s, e.t) && M.Exclusive(Abs(s))
    ensures Inv(Next(who, s, e)) && Follows(who, Abs(s), Shadow(s, e), Abs(Next(who, s, e)))
  {
    var s' := Next(who, s, e);
    var (words, pc) := Plain(s.words, At(s, e.t));
    TurnSound(s, e.t, words, pc);
    TurnSimulates(s, e.t, words, pc);
    PlainIsEffect(s.words, Counter(s.mutex), Counter(s.notEmpty), Counter(s.notFull), At(s, e.t));
    AbsAt(s, e.t);
    if M.Inside(At(s, e.t)) {
      AloneInside(s, e.t);
    }
    DueKept(s, s', e.t);
  }

  /** What the callers see of t when its call moves from inner to inner'. */
  function Shown(pc: M.Pc, inner: S.Pc, inner': S.Pc): M.Pc
    requires Uses(pc).Some?
  {
    if inner' != S.Idle then Seen(pc, inner') else if inner.GiveUp? then M.Idle else After(pc)
  }

  function Counted(b: M.Box, w: Which, c: nat): M.Box {
    match w
    case Mutex => b.(mutex := c)
    case NotEmpty => b.(notEmpty := c)
    case NotFull => b.(notFull := c)
  }

  function CountOf(b: M.Box, w: Which): nat {
    match w
    case Mutex => b.mutex
    case NotEmpty => b.notEmpty
    case NotFull => b.notFull
  }

  lemma CarryShows(s: State, t: Tid, part: S.State)
    requires Linked(s) && Uses(At(s, t)).Some?
    requires S.At(part, t) == S.Idle || Fits(Uses(At(s, t)).value.act, S.At(part, t))
    ensures var s' := Carry(s, t, part);
            SeenAt(s', t) == Shown(At(s, t), Inner(s, t), S.At(part, t))
  {
    var s' := Carry(s, t, part);
    CarryOwn(s, t, part);
    if Uses(At(s', t)).Some? {
      var w := Uses(At(s', t)).value.on;
      CarryAt(s, t, part, w);
      assert Placed(s, w, t);
    }
  }

  lemma CarrySimulates(s: State, t: Tid, part: S.State)
    requires Linked(s) && Uses(At(s, t)).Some?
    requires PartMoves(Part(s, Uses(At(s, t)).value.on), part, t)
    requires S.At(part, t) == S.Idle || Fits(Uses(At(s, t)).value.act, S.At(part, t))
    ensures var s' := Carry(s, t, part);
            && Linked(s') && OnlyMoves(s, s', t)
            && Abs(s') == M.Goto(Abs(s), Counted(Abs(s).box, Uses(At(s, t)).value.on, Counter(part)), t,
                                 Shown(At(s, t), Inner(s, t), S.At(part, t)))
  {
    var s' := Carry(s, t, part);
    CarryMoves(s, t, part);
    CarryOwn(s, t, part);
    LinkedKept(s, s', t);
    CarryShows(s, t, part);
    AbsMoves(s, s', t);
  }

  lemma CarryDue(s: State, t: Tid, part: S.State)
    requires Linked(s) && Due(s) && Uses(At(s, t)).Some? && !Local(s, t)
    requires OnlyMoves(s, Carry(s, t, part), t)
    ensures Due(Carry(s, t, part))
  {
    assert SignalsNotFull(s, t) ==> s.words.waitSend != 0;
    DueKept(s, Carry(s, t, part), t);
  }

  /** The mailbox statement that a semaphore call is. */
  lemma CallEffect(b: M.Box, pc: M.Pc)
    requires Uses(pc).Some? && |b.slots| == SYS_MBOX_SIZE && (pc.FetchNotify? ==> b.waitSend != 0)
    ensures var call := Uses(pc).value;
            var c := CountOf(b, call.on);
            && (M.Blocked(b, pc) <==> call.act.CallWait? && c == 0)
            && (!M.Blocked(b, pc) ==>
                  M.Effect(b, pc) ==
                  (Counted(b, call.on, if call.act.CallWait? then c - 1 else Signalled(c)), After(pc)))
  {
  }

  /** A statement of the semaphore: its effect is seen at once, and nothing else is. */
  lemma StageMoves(sem: S.Sem, t: Tid, inner: S.Pc)
    requires inner != S.Idle && !S.Blocked(sem, inner)
    ensures var inner' := S.Effect(sem, t, inner).1;
            if inner' == S.Idle then StageOf(inner) == (if inner.GiveUp? then TimedOut else Done)
            else StageOf(inner') == if inner.WaitTake? || inner.SignalClamp? then Done else StageOf(inner)
  {
  }

  lemma SemaphoreMoves(w: Which, part: S.State, within: S.Event)
    requires S.Inv(Count(w), part) && S.Enabled(part, within)
    ensures S.Moved(if within.act.Run? then S.At(part, within.t) else S.Idle,
                    Counter(part), Counter(S.Next(part, within)))
  {
    S.CounterMoves(Count(w), part, within);
    S.StepKeepsInv(Count(w), part, within);
  }

  /** How the semaphore's counter moves at an event. */
  predicate CounterMoves(s: State, e: Event, part: S.State)
    requires Uses(At(s, e.t)).Some?
  {
    S.Moved(if e.act.Run? then Inner(s, e.t) else S.Idle, Counter(Part(s, Uses(At(s, e.t)).value.on)), Counter(part))
  }

  /** How t's call moves at an event, as the callers see it. */
  predicate CallerSees(s: State, e: Event, part: S.State)
    requires Uses(At(s, e.t)).Some?
  {
    Shown(At(s, e.t), Inner(s, e.t), S.At(part, e.t)) ==
    if Shadow(s, e) == None then SeenAt(s, e.t)
    else if e.act.TimeOut? then M.Idle
    else After(At(s, e.t))
  }

  lemma CallCounts(who: M.Callers, s: State, e: Event)
    requires Sound(s) && Inside(who, s, e)
    ensures CounterMoves(s, e, S.Next(Part(s, Uses(At(s, e.t)).value.on), Within(s, e)))
  {
    var w := Uses(At(s, e.t)).value.on;
    assert PartSound(s, w);
    SemaphoreMoves(w, Part(s, w), Within(s, e));
  }

  lemma CallShows(who: M.Callers, s: State, e: Event)
    requires Linked(s) && Inside(who, s, e)
    ensures CallerSees(s, e, S.Next(Part(s, Uses(At(s, e.t)).value.on), Within(s, e)))
  {
    var w := Uses(At(s, e.t)).value.on;
    assert Placed(s, w, e.t);
    if e.act.Run? && Inner(s, e.t) != S.Idle {
      StageMoves(Part(s, w).sem, e.t, Inner(s, e.t));
    }
  }

  /** What a step of a semaphore call makes of the semaphore. */
  lemma CallStep(who: M.Callers, s: State, e: Event) returns (part: S.State)
    requires Inv(s) && Inside(who, s, e)
    ensures Next(who, s, e) == Carry(s, e.t, part) && Sound(Next(who, s, e))
    ensures PartMoves(Part(s, Uses(At(s, e.t)).value.on), part, e.t)
    ensures S.At(part, e.t) == S.Idle || Fits(Uses(At(s, e.t)).value.act, S.At(part, e.t))
    ensures CounterMoves(s, e, part) && CallerSees(s, e, part)
  {
    part := S.Next(Part(s, Uses(At(s, e.t)).value.on), Within(s, e));
    CallMoves(who, s, e);
    OwnCall(who, s, e);
    CarrySound(s, e.t, part);
    CallCounts(who, s, e);
    CallShows(who, s, e);
  }

  lemma NothingFollows(who: M.Callers, a: M.State, t: Tid, w: Which, c: nat, pc: M.Pc)
    requires t in a.pc && pc == a.pc[t] && c == CountOf(a.box, w)
    ensures Follows(who, a, None, M.Goto(a, Counted(a.box, w, c), t, pc))
  {
  }

  lemma EffectFollows(who: M.Callers, a: M.State, t: Tid, call: Call, c: nat)
    requires Uses(M.At(a, t)) == Some(call) && |a.box.slots| == SYS_MBOX_SIZE
    requires M.At(a, t).FetchNotify? ==> a.box.waitSend != 0
    requires if call.act.CallWait? then CountOf(a.box, call.on) == c + 1 else c == Signalled(CountOf(a.box, call.on))
    ensures Follows(who, a, Some(M.Event(t, M.Run)), M.Goto(a, Counted(a.box, call.on, c), t, After(M.At(a, t))))
  {
    CallEffect(a.box, M.At(a, t));
  }

  lemma TimeOutFollows(who: M.Callers, a: M.State, t: Tid, call: Call, c: nat)
    requires Uses(M.At(a, t)) == Some(call) && |a.box.slots| == SYS_MBOX_SIZE
    requires call.act == S.CallWait(true) && c == CountOf(a.box, call.on)
    ensures Follows(who, a, Some(M.Event(t, M.Expire)), M.Goto(a, Counted(a.box, call.on, c), t, M.Idle))
  {
  }

  /** The callers do not see t enter a call, park, wake up or leave; they see it take or give a token, or time out. */
  lemma ShadowFollows(who: M.Callers, s: State, e: Event, call: Call, c: nat, pc: M.Pc)
    requires Linked(s) && Due(s) && |s.words.slots| == SYS_MBOX_SIZE && Inside(who, s, e)
    requires Uses(At(s, e.t)) == Some(call)
    requires S.Moved(if e.act.Run? then Inner(s, e.t) else S.Idle, Counter(Part(s, call.on)), c)
    requires pc == if Shadow(s, e) == None then SeenAt(s, e.t)
                   else if e.act.TimeOut? then M.Idle
                   else After(At(s, e.t))
    ensures Follows(who, Abs(s), Shadow(s, e), M.Goto(Abs(s), Counted(Abs(s).box, call.on, c), e.t, pc))
  {
    assert Placed(s, call.on, e.t) && CountOf(Abs(s).box, call.on) == Counter(Part(s, call.on));
    AbsAt(s, e.t);
    if Shadow(s, e) == None {
      NothingFollows(who, Abs(s), e.t, call.on, c, pc);
    } else if e.act.TimeOut? {
      TimeOutFollows(who, Abs(s), e.t, call, c);
    } else {
      assert SignalsNotFull(s, e.t) ==> s.words.waitSend != 0;
      EffectFollows(who, Abs(s), e.t, call, c);
    }
  }

  lemma CallKeepsInv(who: M.Callers, s: State, e: Event)
    requires Inv(s) && Inside(who, s, e)
    ensures Inv(Next(who, s, e))
  {
    var part := CallStep(who, s, e);
    CarrySimulates(s, e.t, part);
    CarryDue(s, e.t, part);
  }

  lemma CallFollows(who: M.Callers, s: State, e: Event)
    requires Inv(s) && Inside(who, s, e)
    ensures Follows(who, Abs(s), Shadow(s, e), Abs(Next(who, s, e)))
  {
    var part := CallStep(who, s, e);
    CarrySimulates(s, e.t, part);
    ShadowFollows(who, s, e, Uses(At(s, e.t)).value, Counter(part), Shown(At(s, e.t), Inner(s, e.t), S.At(part, e.t)));
  }

  /**
   A step of the stack is a step of the mailbox over atomic semaphores, or nothing that its callers see: an operation
   takes or gives a token at one statement of its semaphore call, and the rest of the call is invisible.
   */
  lemma StepSimulates(who: M.Callers, s: State, e: Event)
    requires Inv(s) && M.Exclusive(Abs(s)) && Enabled(who, s, e)
    ensures Inv(Next(who, s, e)) && Follows(who, Abs(s), Shadow(s, e), Abs(Next(who, s, e)))
  {
    if e.act.StartPost? || e.act.StartFetch? {
      StartSimulates(who, s, e);
    } else if Local(s, e.t) {
      LocalSimulates(who, s, e);
    } else {
      CallKeepsInv(who, s, e);
      CallFollows(who, s, e);
    }
  }

  lemma InitInv(garbage: seq<Msg>)
    requires |garbage| == SYS_MBOX_SIZE
    ensures Inv(Init(garbage)) && Abs(Init(garbage)) == M.Init(garbage)
  {
    forall w ensures PartSound(Init(garbage), w) {
      S.InitInv(Count(w));
    }
  }

  lemma ShadowExclusive(who: M.Callers, garbage: seq<Msg>, shadow: seq<M.Event>, a: M.State)
    requires |garbage| == SYS_MBOX_SIZE && RunsTo(M.StepOf(who), M.Init(garbage), shadow, a)
    ensures M.Exclusive(a)
  {
    M.RunKeepsInv(who, garbage, a);
  }

  /** Every run of the stack is, to its callers, a run of the mailbox over atomic semaphores. */
  lemma {:induction false} RunSimulates(who: M.Callers, garbage: seq<Msg>, schedule: seq<Event>, s: State)
    returns (shadow: seq<M.Event>)
    requires |garbage| == SYS_MBOX_SIZE && RunsTo(StepOf(who), Init(garbage), schedule, s)
    ensures Inv(s) && RunsTo(M.StepOf(who), M.Init(garbage), shadow, Abs(s))
  {
    if schedule == [] {
      shadow := [];
      InitInv(garbage);
      RunsNowhere(StepOf(who), Init(garbage), s);
      RunsNowhere(M.StepOf(who), M.Init(garbage), Abs(s));
    } else {
      var k := |schedule| - 1;
      var before := RunsBack(StepOf(who), Init(garbage), schedule, s);
      shadow := RunSimulates(who, garbage, schedule[..k], before);
      ShadowExclusive(who, garbage, shadow, Abs(before));
      StepSimulates(who, before, schedule[k]);
      if Shadow(before, schedule[k]).Some? {
        var a := Shadow(before, schedule[k]).value;
        RunsOn(M.StepOf(who), M.Init(garbage), shadow, Abs(before), a, Abs(s));
        shadow := shadow + [a];
      }
    }
  }

  /** So what is proved of the mailbox's reachable states holds of the stack's. */
  lemma ReachableShadow(who: M.Callers, s: State)
    requires Reachable(who, s)
    ensures Inv(s) && M.Reachable(who, Abs(s))
  {
    var garbage :| |garbage| == SYS_MBOX_SIZE && Reaches(StepOf(who), Init(garbage), s);
    var schedule :| RunsTo(StepOf(who), Init(garbage), schedule, s);
    var shadow := RunSimulates(who, garbage, schedule, s);
  }
}
