/**
 The mailbox as the object its operations update in place.  Before every statement of an operation the other threads
 move, as a plan says, so that a contract speaks of every interleaving.  The object carries its run and the states it
 passed through, and every operation is proved to extend them to another run of MailboxProtocol.
 */
module MailboxOps {
  import opened Common
  import opened MailboxRing
  import opened MailboxProtocol
  import opened MailboxRuns
  import opened Paths

  /** b' and b agree on everything that only the thread inside the mutex may change. */
  predicate Guarded(b: Box, b': Box) {
    && b'.first == b.first && b'.last == b.last && b'.slots == b.slots
    && b'.waitSend == b.waitSend && b'.posted == b.posted && b'.handed == b.handed
  }

  /** While a thread is inside the mutex, no step of another one touches that. */
  lemma OthersSpare(who: Callers, s: State, e: Event, self: Tid)
    requires Inv(who, s) && Enabled(who, s, e) && e.t != self
    ensures At(Next(who, s, e), self) == At(s, self)
    ensures Inside(At(s, self)) ==> Guarded(s.box, Next(who, s, e).box)
  {
    if Inside(At(s, self)) {
      assert !Inside(At(s, e.t)) && s.box.mutex == 0;
    }
  }

  /** The calls that self makes. */
  function CallsOf(self: Tid): Event -> bool {
    (e: Event) => e.t == self && !Continues(e.act)
  }

  /** pc waits on mutex and is followed by next. */
  predicate WaitsOnMutex(pc: Pc, next: Pc) {
    match pc
    case PostLock(block, msg) => next == PostCheck(block, msg)
    case PostRelock(msg) => next == PostUncount(msg)
    case FetchLock(req) => next == FetchCheck(req)
    case FetchRelock(req) => next == FetchCheck(req)
    case _ => false
  }

  /** A step of another thread than self that may happen. */
  function MayOf(who: Callers, self: Tid): (State, Event) -> bool {
    (s: State, e: Event) => e.t != self && |s.box.slots| == SYS_MBOX_SIZE && Enabled(who, s, e)
  }

  function OthersOf(who: Callers): Tid -> (State, Event) -> bool {
    (self: Tid) => MayOf(who, self)
  }

  function NextOf(who: Callers): (State, Event) -> State {
    (s: State, e: Event) => if |s.box.slots| == SYS_MBOX_SIZE && Enabled(who, s, e) then Next(who, s, e) else s
  }

  datatype Answer = Message(got: Option<Msg>) | Empty | TimedOut | StillWaiting

  class Mailbox {
    var first: int
    var last: int
    const msgs: array<Msg>
    var mutex: nat
    var notEmpty: nat
    var notFull: nat
    var waitSend: int
    // What the transition system speaks of beside the mailbox itself.
    var posted: seq<Msg>
    var handed: seq<Option<Msg>>
    var pc: map<Tid, Pc>
    const who: Callers
    // plan(n): the steps of the other threads at the n-th tick, before the horizon; late(n): a timed wait runs out.
    const plan: nat -> seq<Event>
    const horizon: nat
    const late: nat -> bool
    var ticks: nat
    // The run, and the states it passes through.
    ghost const garbage: seq<Msg>
    ghost var run: seq<Event>
    ghost var path: seq<State>
    ghost var marks: seq<Tick<Tid>>

    function Content(): Box
      reads this, msgs
    {
      Box(first, last, msgs[..], mutex, notEmpty, notFull, waitSend, posted, handed)
    }

    function Abs(): State
      reads this, msgs
    {
      State(Content(), pc)
    }

    ghost predicate Sound()
      reads this
    {
      |garbage| == SYS_MBOX_SIZE && IsPath(StepOf(who), Init(garbage), run, path)
    }

    /** At every tick so far the others have done it. */
    ghost predicate Heedful()
      reads this
    {
      |marks| == ticks && Obeys(OthersOf(who), NextOf(who), UpTo(plan, horizon), run, path, marks)
    }

    /** The object is where its run leads. */
    ghost predicate Valid()
      reads this, msgs
    {
      Sound() && Heedful() && path[|run|] == Abs()
    }

    /** So everything proved of reachable states holds of the object between any two of its statements. */
    lemma ValidIsReachable()
      requires Valid()
      ensures Reachable(who, Abs()) && msgs.Length == SYS_MBOX_SIZE && Inv(who, Abs())
    {
      PathReaches(StepOf(who), Init(garbage), run, path);
      assert msgs[..] == Abs().box.slots;
      ReachableInv(who, Abs());
    }

    function Doing(self: Tid): Pc
      reads this
    {
      if self in pc then pc[self] else Idle
    }

    /** What the operations need of that. */
    lemma HereIs(self: Tid)
      requires Valid()
      ensures msgs.Length == SYS_MBOX_SIZE && RingFacts(Content()) && LocalFacts(Content(), Doing(self))
      ensures mutex <= 1 && (Inside(Doing(self)) ==> mutex == 0)
    {
      ValidIsReachable();
      assert Doing(self) == At(Abs(), self);
    }

    /** The run has grown, and self's calls meanwhile are these. */
    twostate predicate Grew(self: Tid, calls: seq<Event>)
      reads this
    {
      Goes(CallsOf(self), old(run), run, calls) && old(path) <= path && old(ticks) <= ticks
    }

    /** self's call goes no further: its semaphore has no token, and the others have nothing left to do. */
    predicate Stranded(self: Tid)
      reads this, msgs
    {
      Doing(self) != Idle && Blocked(Content(), Doing(self)) && ticks >= horizon
    }

    /** How long the others will still move. */
    function Ahead(): nat
      reads this
    {
      if ticks < horizon then horizon - ticks else 0
    }

    constructor (who: Callers, plan: nat -> seq<Event>, horizon: nat, late: nat -> bool)
      ensures Valid() && fresh(msgs) && this.who == who && run == []
      ensures this.plan == plan && this.horizon == horizon && this.late == late && ticks == 0
      ensures Pending() == [] && pc == map[] && mutex == 1
    {
      var slots := new Msg[SYS_MBOX_SIZE];
      msgs, garbage, this.who, ticks := slots, slots[..], who, 0;
      this.plan, this.horizon, this.late := plan, horizon, late;
      first, last, waitSend := 0, 0, 0;
      notEmpty, notFull, mutex := 0, 0, 1;
      posted, handed, pc := [], [], map[];
      run, path, marks := [], [Init(slots[..])], [];
    }

    /** The pending messages, oldest first. */
    ghost function Pending(): seq<Msg>
      reads this, msgs
      requires Valid()
    {
      ValidIsReachable();
      Window(msgs[..], first, last)
    }

    /** The run grows by the step e, which led from s to here. */
    ghost method Record(s: State, e: Event, self: Tid)
      requires Sound() && Heedful() && path[|run|] == s && |s.box.slots| == SYS_MBOX_SIZE
      requires Enabled(who, s, e) && Abs() == Next(who, s, e)
      modifies this`run, this`path
      ensures Valid() && Grew(self, if CallsOf(self)(e) then [e] else []) && run == old(run) + [e]
    {
      PathGrows(StepOf(who), Init(garbage), run, path, e, Abs());
      GoesOneStep(CallsOf(self), run, e);
      ObeysMore(OthersOf(who), NextOf(who), UpTo(plan, horizon), run, path, marks,
                run + [e], path + [Abs()]);
      run, path := run + [e], path + [Abs()];
    }

    // -------------------------------------------------------------- the other threads

    /** Beyond the horizon nobody touches the tokens but self. */
    twostate predicate Calm()
      reads this
    {
      old(ticks) >= horizon ==> notFull == old(notFull) && notEmpty == old(notEmpty)
    }

    /** Time passes: the threads other than self follow the plan; impossible steps are passed over. */
    method World(self: Tid)
      requires Valid()
      modifies this, msgs
      ensures Valid() && Grew(self, []) && Doing(self) == old(Doing(self))
      ensures Inside(Doing(self)) ==> Guarded(old(Content()), Content())
      ensures ticks == old(ticks) + 1 && Calm() && (old(ticks) >= horizon ==> Content() == old(Content()))
    {
      ghost var from := |run|;
      Follow(self);
      ObeysTick(OthersOf(who), NextOf(who), UpTo(plan, horizon), run, path, marks, self, from);
      ticks := ticks + 1;
      marks := marks + [Tick(self, from)];
    }

    method Follow(self: Tid)
      requires Valid()
      modifies this, msgs
      ensures Valid() && Grew(self, []) && Doing(self) == old(Doing(self)) && ticks == old(ticks) && marks == old(marks)
      ensures Inside(Doing(self)) ==> Guarded(old(Content()), Content())
      ensures ticks >= horizon ==> Content() == old(Content())
      ensures run == old(run) + Heeded(MayOf(who, self), NextOf(who), old(Abs()), UpTo(plan, horizon)(ticks))
    {
      ghost var s := Abs();
      var schedule := UpTo(plan, horizon)(ticks);
      ValidIsReachable();
      var k := 0;
      while k < |schedule|
        invariant 0 <= k <= |schedule| && ticks == old(ticks) && marks == old(marks)
        invariant Valid() && Grew(self, []) && Doing(self) == old(Doing(self)) && msgs.Length == SYS_MBOX_SIZE
        invariant Inside(Doing(self)) ==> Guarded(old(Content()), Content())
        invariant Abs() == After(MayOf(who, self), NextOf(who), s, schedule[..k])
        invariant run == old(run) + Heeded(MayOf(who, self), NextOf(who), s, schedule[..k])
      {
        OneMore(MayOf(who, self), NextOf(who), s, schedule, k);
        if schedule[k].t != self && Enabled(who, Abs(), schedule[k]) {
          Other(self, schedule[k]);
        }
        k := k + 1;
      }
      assert schedule[..k] == schedule;
    }

    lemma SparesMine(self: Tid, e: Event)
      requires Valid() && e.t != self && Enabled(who, Abs(), e)
      ensures msgs.Length == SYS_MBOX_SIZE && At(Next(who, Abs(), e), self) == Doing(self)
      ensures |Next(who, Abs(), e).box.slots| == SYS_MBOX_SIZE
      ensures Inside(Doing(self)) ==> Guarded(Content(), Next(who, Abs(), e).box)
    {
      ValidIsReachable();
      OthersSpare(who, Abs(), e, self);
      OthersStay(who, Abs(), e);
    }

    method Other(self: Tid, e: Event)
      requires Valid() && e.t != self && Enabled(who, Abs(), e)
      modifies this, msgs
      ensures Valid() && Grew(self, []) && Doing(self) == old(Doing(self)) && ticks == old(ticks) && marks == old(marks)
      ensures Inside(Doing(self)) ==> Guarded(old(Content()), Content())
      ensures |old(Content()).slots| == SYS_MBOX_SIZE && Abs() == Next(who, old(Abs()), e) && run == old(run) + [e]
    {
      ghost var s := Abs();
      SparesMine(self, e);
      var s' := Next(who, Abs(), e);
      Load(s'.box, s'.pc);
      Record(s, e, self);
    }

    method Load(box: Box, pcs: map<Tid, Pc>)
      requires msgs.Length == |box.slots|
      modifies msgs, this`first, this`last, this`waitSend, this`mutex, this`notEmpty, this`notFull, this`posted
      modifies this`handed, this`pc
      ensures Abs() == State(box, pcs)
    {
      var i := 0;
      while i < msgs.Length
        invariant 0 <= i <= msgs.Length && msgs[..i] == box.slots[..i]
      {
        msgs[i] := box.slots[i];
        i := i + 1;
      }
      assert msgs[..] == box.slots;
      first, last, waitSend := box.first, box.last, box.waitSend;
      mutex, notEmpty, notFull := box.mutex, box.notEmpty, box.notFull;
      posted, handed, pc := box.posted, box.handed, pcs;
    }

    // -------------------------------------------------------------- single statements

    /** self's next statement turns the mailbox into box and is followed by next. */
    ghost predicate Does(self: Tid, box: Box, next: Pc)
      reads this, msgs
    {
      && msgs.Length == SYS_MBOX_SIZE && Doing(self) != Idle && !Blocked(Content(), Doing(self))
      && Effect(Content(), Doing(self)) == (box, next)
    }

    /** self calls an operation. */
    method Call(self: Tid, act: Act, begin: Pc)
      requires Valid() && Enabled(who, Abs(), Event(self, act)) && (act.StartPost? || act.StartFetch?)
      requires begin == if act.StartPost? then PostLock(act.block, act.msg) else FetchLock(act.req)
      modifies this`pc, this`run, this`path
      ensures Valid() && Grew(self, [Event(self, act)]) && pc == old(pc)[self := begin]
    {
      ghost var s := Abs();
      HereIs(self);
      pc := pc[self := begin];
      Record(s, Event(self, act), self);
    }

    /** A test, or the read of a slot. */
    method Turn(self: Tid, next: Pc)
      requires Valid() && Does(self, Content(), next)
      modifies this`pc, this`run, this`path
      ensures Valid() && Grew(self, []) && pc == old(pc)[self := next]
    {
      ghost var s := Abs();
      pc := pc[self := next];
      Record(s, Event(self, Run), self);
    }

    /** The same, and the others move. */
    method TurnOn(self: Tid, next: Pc)
      requires Valid() && Does(self, Content(), next) && Inside(next)
      modifies this, msgs
      ensures Valid() && Grew(self, []) && Doing(self) == next && Guarded(old(Content()), Content()) && Calm()
      ensures ticks == old(ticks) + 1
    {
      Turn(self, next);
      World(self);
    }

    /** A signal of mutex. */
    method ReleaseMutex(self: Tid, next: Pc)
      requires Valid() && Does(self, Content().(mutex := Signalled(mutex)), next)
      modifies this`mutex, this`pc, this`run, this`path
      ensures Valid() && Grew(self, []) && pc == old(pc)[self := next] && mutex == Signalled(old(mutex))
    {
      ghost var s := Abs();
      mutex, pc := Signalled(mutex), pc[self := next];
      Record(s, Event(self, Run), self);
    }

    /** A wait on mutex, for as long as the others move: ok, or it has no token. */
    method WaitMutex(self: Tid, next: Pc) returns (ok: bool)
      requires Valid() && WaitsOnMutex(Doing(self), next)
      modifies this, msgs
      ensures Valid() && Grew(self, []) && Doing(self) == (if ok then next else old(Doing(self))) && Calm()
      ensures !ok ==> mutex == 0 && Stranded(self)
    {
      World(self);
      while mutex == 0 && ticks < horizon
        invariant Valid() && Grew(self, []) && Doing(self) == old(Doing(self)) && Calm()
        decreases horizon - ticks
      {
        World(self);
      }
      ok := mutex > 0;
      if ok {
        Locked(self, next);
      }
    }

    method Locked(self: Tid, next: Pc)
      requires Valid() && WaitsOnMutex(Doing(self), next) && mutex > 0
      modifies this`mutex, this`pc, this`run, this`path
      ensures Valid() && Grew(self, []) && Doing(self) == next
    {
      ghost var s := Abs();
      HereIs(self);
      mutex, pc := mutex - 1, pc[self := next];
      Record(s, Event(self, Run), self);
    }

    /** A change of wait_send, or a signal of or the taking of a token from the other semaphores. */
    method Adjust(self: Tid, waiting: int, full: nat, empty: nat, next: Pc)
      requires Valid() && Does(self, Content().(waitSend := waiting, notFull := full, notEmpty := empty), next)
      modifies this`waitSend, this`notFull, this`notEmpty, this`pc, this`run, this`path
      ensures Valid() && Grew(self, []) && pc == old(pc)[self := next]
      ensures waitSend == waiting && notFull == full && notEmpty == empty
    {
      ghost var s := Abs();
      waitSend, notFull, notEmpty, pc := waiting, full, empty, pc[self := next];
      Record(s, Event(self, Run), self);
    }

    /** The store into the slot after the newest. */
    method WriteSlot(self: Tid, block: bool, msg: Msg)
      requires Valid() && Doing(self) == PostStore(block, msg)
      modifies msgs, this`pc, this`run, this`path
      ensures Valid() && Grew(self, []) && Doing(self) == PostMark(block, msg)
      ensures msgs.Length == SYS_MBOX_SIZE && msgs[..] == old(msgs[..])[last % SYS_MBOX_SIZE := msg]
    {
      ghost var s := Abs();
      HereIs(self);
      msgs[last % SYS_MBOX_SIZE] := msg;
      pc := pc[self := PostMark(block, msg)];
      Record(s, Event(self, Run), self);
    }

    /** The newest slot counts. */
    method Advance(self: Tid, block: bool, msg: Msg, wasEmpty: bool)
      requires Valid() && Doing(self) == PostAdvance(block, msg, wasEmpty)
      modifies this`last, this`posted, this`pc, this`run, this`path
      ensures Valid() && Grew(self, []) && Doing(self) == PostNotify(wasEmpty)
      ensures last == old(last) + 1 && posted == old(posted) + [msg]
    {
      ghost var s := Abs();
      HereIs(self);
      last, posted, pc := last + 1, posted + [msg], pc[self := PostNotify(wasEmpty)];
      Record(s, Event(self, Run), self);
    }

    /** The oldest slot counts no longer; its message goes to the caller. */
    method Remove(self: Tid, got: Option<Msg>)
      requires Valid() && Doing(self) == FetchAdvance(got)
      modifies this`first, this`handed, this`pc, this`run, this`path
      ensures Valid() && Grew(self, []) && Doing(self) == FetchNotify
      ensures first == old(first) + 1 && handed == old(handed) + [got]
    {
      ghost var s := Abs();
      HereIs(self);
      first, handed, pc := first + 1, handed + [got], pc[self := FetchNotify];
      Record(s, Event(self, Run), self);
    }

    // -------------------------------------------------------------- pieces of the operations

    /** self calls an operation and waits for the mutex; ok: it has it, is at next, and the others have moved. */
    method Enter(self: Tid, act: Act, begin: Pc, next: Pc) returns (ok: bool)
      requires Valid() && Enabled(who, Abs(), Event(self, act)) && (act.StartPost? || act.StartFetch?)
      requires begin == (if act.StartPost? then PostLock(act.block, act.msg) else FetchLock(act.req))
      requires WaitsOnMutex(begin, next)
      modifies this, msgs
      ensures Valid() && Grew(self, [Event(self, act)]) && Doing(self) == if ok then next else begin
      ensures if ok then |old(run)| < |run| else mutex == 0 && Stranded(self)
    {
      Call(self, act, begin);
      ok := WaitMutex(self, next);
      if ok {
        World(self);
      }
    }

    /** The slot and the emptiness test. */
    method Put(self: Tid, block: bool, msg: Msg)
      requires Valid() && Doing(self) == PostStore(block, msg)
      modifies this, msgs
      ensures Valid() && Grew(self, []) && Doing(self) == PostAdvance(block, msg, old(last) == old(first))
      ensures msgs.Length == SYS_MBOX_SIZE
      ensures Guarded(old(Content()).(slots := old(msgs[..])[old(last) % SYS_MBOX_SIZE := msg]), Content())
    {
      WriteSlot(self, block, msg);
      World(self);
      Mark(self, block, msg);
    }

    method Mark(self: Tid, block: bool, msg: Msg)
      requires Valid() && Doing(self) == PostMark(block, msg)
      modifies this`pc, this`run, this`path
      ensures Valid() && Grew(self, []) && Doing(self) == PostAdvance(block, msg, last == first)
    {
      HereIs(self);
      Turn(self, PostAdvance(block, msg, last == first));
    }

    /** The signals of the posting operations. */
    method Notify(self: Tid, wasEmpty: bool)
      requires Valid() && Doing(self) == PostNotify(wasEmpty)
      modifies this, msgs
      ensures Valid() && Grew(self, []) && Doing(self) == Idle && mutex == 1 && Guarded(old(Content()), Content())
    {
      NotifyFetcher(self, wasEmpty);
      World(self);
      Leave(self);
    }

    method NotifyFetcher(self: Tid, wasEmpty: bool)
      requires Valid() && Doing(self) == PostNotify(wasEmpty)
      modifies this`waitSend, this`notFull, this`notEmpty, this`pc, this`run, this`path
      ensures Valid() && Grew(self, []) && Doing(self) == PostUnlock
      ensures waitSend == old(waitSend) && notFull == old(notFull)
      ensures notEmpty == if wasEmpty then Signalled(old(notEmpty)) else old(notEmpty)
    {
      HereIs(self);
      Adjust(self, waitSend, notFull, if wasEmpty then Signalled(notEmpty) else notEmpty, PostUnlock);
    }

    /** The last statement of every operation. */
    method Leave(self: Tid)
      requires Valid() && (Doing(self) == PostUnlock || Doing(self) == FetchUnlock || Doing(self) == PostReject ||
                           Doing(self) == FetchMiss)
      modifies this`mutex, this`pc, this`run, this`path
      ensures Valid() && Grew(self, []) && Doing(self) == Idle && mutex == 1
    {
      HereIs(self);
      ReleaseMutex(self, Idle);
    }

    /** What both posting operations do once there is room, from the store to the release of the mutex. */
    method Store(self: Tid, block: bool, msg: Msg)
      requires Valid() && Doing(self) == PostStore(block, msg)
      modifies this, msgs
      ensures Valid() && Grew(self, []) && Doing(self) == Idle && mutex == 1
      ensures |old(Content()).slots| == SYS_MBOX_SIZE && Guarded(AfterStore(old(Content()), msg), Content())
    {
      HereIs(self);
      Put(self, block, msg);
      World(self);
      Finish(self, block, msg);
    }

    method Finish(self: Tid, block: bool, msg: Msg)
      requires Valid() && Doing(self).PostAdvance? && Doing(self).block == block && Doing(self).msg == msg
      modifies this, msgs
      ensures Valid() && Grew(self, []) && Doing(self) == Idle && mutex == 1
      ensures Guarded(old(Content()).(last := old(last) + 1, posted := old(posted) + [msg]), Content())
    {
      var wasEmpty := pc[self].wasEmpty;
      Advance(self, block, msg, wasEmpty);
      World(self);
      Notify(self, wasEmpty);
    }

    /** What both fetching operations do once there is a message, from the read to the release of the mutex. */
    method Take(self: Tid, req: Request) returns (got: Option<Msg>)
      requires Valid() && Doing(self) == FetchTake(req)
      modifies this, msgs
      ensures Valid() && Grew(self, []) && Doing(self) == Idle && mutex == 1
      ensures |old(Content()).slots| == SYS_MBOX_SIZE && Guarded(AfterTake(old(Content()), req.want), Content())
      ensures handed == old(handed) + [got]
    {
      got := PickUp(self, req);
      World(self);
      RemoveAndNotify(self, got);
    }

    method RemoveAndNotify(self: Tid, got: Option<Msg>)
      requires Valid() && Doing(self) == FetchAdvance(got)
      modifies this, msgs
      ensures Valid() && Grew(self, []) && Doing(self) == Idle && mutex == 1
      ensures Guarded(old(Content()).(first := old(first) + 1, handed := old(handed) + [got]), Content())
    {
      Remove(self, got);
      World(self);
      NotifyPosters(self);
    }

    method PickUp(self: Tid, req: Request) returns (got: Option<Msg>)
      requires Valid() && Doing(self) == FetchTake(req)
      modifies this`pc, this`run, this`path
      ensures Valid() && Grew(self, []) && Doing(self) == FetchAdvance(got) && msgs.Length == SYS_MBOX_SIZE
      ensures got == if req.want then Some(msgs[first % SYS_MBOX_SIZE]) else None
    {
      HereIs(self);
      got := if req.want then Some(msgs[first % SYS_MBOX_SIZE]) else None;
      Turn(self, FetchAdvance(got));
    }

    /** The signals of the fetching operations. */
    method NotifyPosters(self: Tid)
      requires Valid() && Doing(self) == FetchNotify
      modifies this, msgs
      ensures Valid() && Grew(self, []) && Doing(self) == Idle && mutex == 1 && Guarded(old(Content()), Content())
    {
      NotifyPoster(self);
      World(self);
      Leave(self);
    }

    method NotifyPoster(self: Tid)
      requires Valid() && Doing(self) == FetchNotify
      modifies this`waitSend, this`notFull, this`notEmpty, this`pc, this`run, this`path
      ensures Valid() && Grew(self, []) && Doing(self) == FetchUnlock
      ensures waitSend == old(waitSend) && notEmpty == old(notEmpty)
      ensures notFull == if waitSend != 0 then Signalled(old(notFull)) else old(notFull)
    {
      HereIs(self);
      Adjust(self, waitSend, if waitSend != 0 then Signalled(notFull) else notFull, notEmpty, FetchUnlock);
    }

    // -------------------------------------------------------------- the operations that do not sleep

    /** After the first since events, self was at the statement test in the state path[at]. */
    ghost predicate Met(self: Tid, test: Pc, since: nat, at: nat)
      reads this
    {
      && since < at < |path| && At(path[at], self) == test
      && RingOk(path[at].box.slots, path[at].box.first, path[at].box.last)
    }

    /**
     sys_mbox_trypost.  at: where it makes its test.  It is refused exactly when the ring is full there; otherwise it
     adds its message, once.  Nothing else that the mutex guards is different when it returns.
     */
    method TryPost(self: Tid, msg: Msg) returns (waiting: bool, ok: bool, ghost at: nat)
      requires Valid() && Doing(self) == Idle
      modifies this, msgs
      ensures Valid() && Grew(self, [Event(self, StartPost(false, msg))])
      ensures waiting ==> Doing(self) == PostLock(false, msg) && mutex == 0 && Stranded(self)
      ensures !waiting ==>
                && Doing(self) == Idle && mutex == 1 && Met(self, PostCheck(false, msg), |old(run)|, at)
                && ok == !Full(path[at].box.first, path[at].box.last)
                && Guarded(if ok then AfterStore(path[at].box, msg) else path[at].box, Content())
    {
      at := 0;
      ok := Enter(self, StartPost(false, msg), PostLock(false, msg), PostCheck(false, msg));
      waiting := !ok;
      if ok {
        HereIs(self);
        at := |run|;
        ok := StoreIfRoom(self, msg);
      }
    }

    /** trypost from its test on. */
    method StoreIfRoom(self: Tid, msg: Msg) returns (ok: bool)
      requires Valid() && Doing(self) == PostCheck(false, msg)
      modifies this, msgs
      ensures Valid() && Grew(self, []) && Doing(self) == Idle && mutex == 1
      ensures |old(Content()).slots| == SYS_MBOX_SIZE && ok == !Full(old(first), old(last))
      ensures Guarded(if ok then AfterStore(old(Content()), msg) else old(Content()), Content())
    {
      HereIs(self);
      ok := last + 1 < first + SYS_MBOX_SIZE;
      TurnOn(self, if ok then PostStore(false, msg) else PostReject);
      if ok {
        Store(self, false, msg);
      } else {
        Leave(self);
      }
    }

    /**
     sys_arch_mbox_tryfetch.  It answers SYS_MBOX_EMPTY exactly when the ring is empty where it makes its test;
     otherwise it removes the oldest message, once, and hands it out if the caller gave a place for it.
     */
    method TryFetch(self: Tid, req: Request) returns (answer: Answer, ghost at: nat)
      requires Valid() && Doing(self) == Idle && !req.block
      modifies this, msgs
      ensures Valid() && Grew(self, [Event(self, StartFetch(req))])
      ensures if answer.StillWaiting? then Doing(self) == FetchLock(req) && mutex == 0 && Stranded(self)
              else Tried(self, req, |old(run)|, at, answer)
    {
      at := 0;
      answer := StillWaiting;
      var ok := Enter(self, StartFetch(req), FetchLock(req), FetchCheck(req));
      if ok {
        answer, at := TryInside(self, req, |old(run)|);
      }
    }

    /** self has returned from a tryfetch that made its test at path[at]. */
    ghost predicate Tried(self: Tid, req: Request, since: nat, at: nat, answer: Answer)
      reads this, msgs
    {
      match answer
      case Empty =>
        && Doing(self) == Idle && mutex == 1 && Met(self, FetchCheck(req), since, at)
        && path[at].box.first == path[at].box.last && Guarded(path[at].box, Content())
      case Message(got) => Taken(self, req, since, at, got)
      case _ => false
    }

    method TryInside(self: Tid, req: Request, ghost since: nat) returns (answer: Answer, ghost at: nat)
      requires Valid() && Doing(self) == FetchCheck(req) && !req.block && since < |run|
      modifies this, msgs
      ensures Valid() && Grew(self, []) && Tried(self, req, since, at, answer)
    {
      HereIs(self);
      at := |run|;
      answer := TakeIfAny(self, req);
    }

    /** self has returned from a fetch that made its test at path[at] and took the oldest message there. */
    ghost predicate Taken(self: Tid, req: Request, since: nat, at: nat, got: Option<Msg>)
      reads this, msgs
    {
      && Doing(self) == Idle && mutex == 1 && Met(self, FetchCheck(req), since, at)
      && path[at].box.first < path[at].box.last && Guarded(AfterTake(path[at].box, req.want), Content())
      && got == if req.want then Some(Window(path[at].box.slots, path[at].box.first, path[at].box.last)[0]) else None
    }

    /** tryfetch from its test on. */
    method TakeIfAny(self: Tid, req: Request) returns (answer: Answer)
      requires Valid() && Doing(self) == FetchCheck(req) && !req.block
      modifies this, msgs
      ensures Valid() && Grew(self, []) && Doing(self) == Idle && mutex == 1
      ensures |old(Content()).slots| == SYS_MBOX_SIZE
      ensures if old(first) == old(last) then answer == Empty && Guarded(old(Content()), Content())
              else && answer == Message(if req.want then Some(old(msgs[first % SYS_MBOX_SIZE])) else None)
                   && Guarded(AfterTake(old(Content()), req.want), Content())
    {
      HereIs(self);
      if first == last {
        TurnOn(self, FetchMiss);
        Leave(self);
        answer := Empty;
      } else {
        var got := TakeOldest(self, req);
        answer := Message(got);
      }
    }

    /** fetch and tryfetch from a successful test on. */
    method TakeOldest(self: Tid, req: Request) returns (got: Option<Msg>)
      requires Valid() && Doing(self) == FetchCheck(req) && first != last
      modifies this, msgs
      ensures Valid() && Grew(self, []) && Doing(self) == Idle && mutex == 1
      ensures |old(Content()).slots| == SYS_MBOX_SIZE && Guarded(AfterTake(old(Content()), req.want), Content())
      ensures got == if req.want then Some(old(msgs[first % SYS_MBOX_SIZE])) else None
    {
      HereIs(self);
      TurnOn(self, FetchTake(req));
      got := Take(self, req);
      assert handed[|handed| - 1] == got;
    }

    method HandOut(self: Tid, req: Request, ghost since: nat) returns (got: Option<Msg>, ghost at: nat)
      requires Valid() && Doing(self) == FetchCheck(req) && first != last && since < |run|
      modifies this, msgs
      ensures Valid() && Grew(self, []) && Taken(self, req, since, at, got)
    {
      HereIs(self);
      at := |run|;
      got := TakeOldest(self, req);
    }

    // -------------------------------------------------------------- post

    /**
     sys_mbox_post.  It returns only after it has found room, where at says, and has added its message there, once, as
     the newest; otherwise it waits, when the others have come to rest, on a semaphore that has no token.
     */
    method Post(self: Tid, msg: Msg) returns (done: bool, ghost at: nat)
      requires Valid() && Doing(self) == Idle && self in who.posters
      modifies this, msgs
      ensures Valid() && Grew(self, [Event(self, StartPost(true, msg))])
      ensures if done then Added(self, msg, |old(run)|, at) else Stranded(self)
    {
      at := 0;
      done := Enter(self, StartPost(true, msg), PostLock(true, msg), PostCheck(true, msg));
      if done {
        done, at := Squeeze(self, msg, |old(run)|);
      }
    }

    /** A post that made its last test at path[at] has added its message there. */
    ghost predicate Added(self: Tid, msg: Msg, since: nat, at: nat)
      reads this, msgs
    {
      && Valid() && Doing(self) == Idle && mutex == 1 && Met(self, PostCheck(true, msg), since, at)
      && !Full(path[at].box.first, path[at].box.last) && Guarded(AfterStore(path[at].box, msg), Content())
      && Pending() == Window(path[at].box.slots, path[at].box.first, path[at].box.last) + [msg]
    }

    /** post from its first test on. */
    method Squeeze(self: Tid, msg: Msg, ghost since: nat) returns (done: bool, ghost at: nat)
      requires Valid() && Doing(self) == PostCheck(true, msg) && since < |run|
      modifies this, msgs
      ensures Valid() && Grew(self, [])
      ensures if done then Added(self, msg, since, at) else Stranded(self)
    {
      at := 0;
      done := WaitForRoom(self, msg);
      if done {
        HereIs(self);
        at := |run|;
        StoreNewest(self, msg);
      }
    }

    /** The loop of sys_mbox_post; room: it has ended, with self inside the mutex. */
    method WaitForRoom(self: Tid, msg: Msg) returns (room: bool)
      requires Valid() && Doing(self) == PostCheck(true, msg)
      modifies this, msgs
      ensures Valid() && Grew(self, [])
      ensures if room then Doing(self) == PostCheck(true, msg) && !Full(first, last) else Stranded(self)
    {
      while last + 1 >= first + SYS_MBOX_SIZE
        invariant Valid() && Grew(self, []) && Doing(self) == PostCheck(true, msg)
        decreases Ahead(), notFull
      {
        room := SleepForRoom(self, msg);
        if !room {
          return;
        }
      }
      room := true;
    }

    /** Once round it: to sleep and, with a token, back into the mutex. */
    method SleepForRoom(self: Tid, msg: Msg) returns (back: bool)
      requires Valid() && Doing(self) == PostCheck(true, msg) && Full(first, last)
      modifies this, msgs
      ensures Valid() && Grew(self, []) && ticks > old(ticks)
      ensures if back then Doing(self) == PostCheck(true, msg) else Stranded(self)
      ensures back && old(ticks) >= horizon ==> notFull < old(notFull)
    {
      FallAsleep(self, msg);
      AwaitRoom(self, msg);
      back := notFull > 0;
      if back {
        back := WakeForRoom(self, msg);
      }
    }

    /** The wait on not_full, for as long as the others move. */
    method AwaitRoom(self: Tid, msg: Msg)
      requires Valid() && Doing(self) == PostSleep(msg)
      modifies this, msgs
      ensures Valid() && Grew(self, []) && Doing(self) == PostSleep(msg) && Calm()
      ensures notFull > 0 || Stranded(self)
    {
      World(self);
      while notFull == 0 && ticks < horizon
        invariant Valid() && Grew(self, []) && Doing(self) == PostSleep(msg) && Calm()
        decreases horizon - ticks
      {
        World(self);
      }
    }

    /** Count oneself, give the mutex up, and be about to wait for room. */
    method FallAsleep(self: Tid, msg: Msg)
      requires Valid() && Doing(self) == PostCheck(true, msg) && Full(first, last)
      modifies this, msgs
      ensures Valid() && Grew(self, []) && Doing(self) == PostSleep(msg) && Calm() && ticks > old(ticks)
    {
      HereIs(self);
      TurnOn(self, PostCount(msg));
      CountAndYield(self, msg);
    }

    method CountAndYield(self: Tid, msg: Msg)
      requires Valid() && Doing(self) == PostCount(msg)
      modifies this, msgs
      ensures Valid() && Grew(self, []) && Doing(self) == PostSleep(msg) && Calm()
    {
      Count(self, msg);
      World(self);
      HereIs(self);
      ReleaseMutex(self, PostSleep(msg));
    }

    method Count(self: Tid, msg: Msg)
      requires Valid() && Doing(self) == PostCount(msg)
      modifies this`waitSend, this`notFull, this`notEmpty, this`pc, this`run, this`path
      ensures Valid() && Grew(self, []) && Doing(self) == PostYield(msg) && waitSend == old(waitSend) + 1 && Calm()
    {
      HereIs(self);
      Adjust(self, waitSend + 1, notFull, notEmpty, PostYield(msg));
    }

    /** The token is taken, the mutex awaited, the count taken back. */
    method WakeForRoom(self: Tid, msg: Msg) returns (ok: bool)
      requires Valid() && Doing(self) == PostSleep(msg) && notFull > 0
      modifies this, msgs
      ensures Valid() && Grew(self, [])
      ensures if ok then Doing(self) == PostCheck(true, msg) else Stranded(self)
      ensures ok && old(ticks) >= horizon ==> notFull == old(notFull) - 1
    {
      WakePoster(self, msg);
      ok := WaitMutex(self, PostUncount(msg));
      if ok {
        Return(self, msg);
      }
    }

    method Return(self: Tid, msg: Msg)
      requires Valid() && Doing(self) == PostUncount(msg)
      modifies this, msgs
      ensures Valid() && Grew(self, []) && Doing(self) == PostCheck(true, msg) && Calm()
    {
      World(self);
      Uncount(self, msg);
      World(self);
    }

    method WakePoster(self: Tid, msg: Msg)
      requires Valid() && Doing(self) == PostSleep(msg) && notFull > 0
      modifies this`waitSend, this`notFull, this`notEmpty, this`pc, this`run, this`path
      ensures Valid() && Grew(self, []) && Doing(self) == PostRelock(msg) && notFull == old(notFull) - 1
    {
      HereIs(self);
      Adjust(self, waitSend, notFull - 1, notEmpty, PostRelock(msg));
    }

    method Uncount(self: Tid, msg: Msg)
      requires Valid() && Doing(self) == PostUncount(msg)
      modifies this`waitSend, this`notFull, this`notEmpty, this`pc, this`run, this`path
      ensures Valid() && Grew(self, []) && Doing(self) == PostCheck(true, msg) && waitSend == old(waitSend) - 1
      ensures Calm()
    {
      HereIs(self);
      Adjust(self, waitSend - 1, notFull, notEmpty, PostCheck(true, msg));
    }

    /** post from a successful test on. */
    method StoreNewest(self: Tid, msg: Msg)
      requires Valid() && Doing(self) == PostCheck(true, msg) && !Full(first, last)
      modifies this, msgs
      ensures Valid() && Grew(self, []) && Doing(self) == Idle && mutex == 1
      ensures |old(Content()).slots| == SYS_MBOX_SIZE && Guarded(AfterStore(old(Content()), msg), Content())
      ensures Pending() == old(Pending()) + [msg]
    {
      HereIs(self);
      WindowPush(msgs[..], first, last, msg);
      TurnOn(self, PostStore(true, msg));
      Store(self, true, msg);
    }

    // -------------------------------------------------------------- fetch

    /**
     sys_arch_mbox_fetch.  It hands out only the message that was the oldest where it made its last test, and has
     removed it, once; it times out only if asked to, when its time has run out, even beside a token; otherwise it
     waits, when the others have come to rest, on a semaphore that has no token.
     */
    method Fetch(self: Tid, req: Request) returns (answer: Answer, ghost at: nat)
      requires Valid() && Doing(self) == Idle && req.block && self in who.fetchers
      modifies this, msgs
      ensures Valid() && Grew(self, [Event(self, StartFetch(req))])
      ensures if answer.Message? then Taken(self, req, |old(run)|, at, answer.got) else Unfed(self, req, answer)
    {
      at := 0;
      answer := StillWaiting;
      var ok := Enter(self, StartFetch(req), FetchLock(req), FetchCheck(req));
      if ok {
        answer, at := Seek(self, req, |old(run)|);
      }
    }

    /** fetch from its first test on. */
    method Seek(self: Tid, req: Request, ghost since: nat) returns (answer: Answer, ghost at: nat)
      requires Valid() && Doing(self) == FetchCheck(req) && req.block && since < |run|
      modifies this, msgs
      ensures Valid() && Grew(self, [])
      ensures if answer.Message? then Taken(self, req, since, at, answer.got) else Unfed(self, req, answer)
    {
      at := 0;
      answer := WaitForMail(self, req);
      if answer.Message? {
        var got;
        got, at := HandOut(self, req, since);
        answer := Message(got);
      }
    }

    /** A fetch that has not found a message has timed out, or waits for good. */
    predicate Unfed(self: Tid, req: Request, answer: Answer)
      reads this, msgs
    {
      match answer
      case TimedOut => req.timed && late(ticks) && Doing(self) == Idle
      case StillWaiting => Stranded(self) && (Doing(self).FetchSleep? && req.timed ==> !late(ticks))
      case _ => false
    }

    /** The loop of sys_arch_mbox_fetch; a message: there is one, and self is inside the mutex. */
    method WaitForMail(self: Tid, req: Request) returns (answer: Answer)
      requires Valid() && Doing(self) == FetchCheck(req) && req.block
      modifies this, msgs
      ensures Valid() && Grew(self, [])
      ensures if answer.Message? then Doing(self) == FetchCheck(req) && first != last else Unfed(self, req, answer)
    {
      while first == last
        invariant Valid() && Grew(self, []) && Doing(self) == FetchCheck(req)
        decreases Ahead(), notEmpty
      {
        answer := SleepForMail(self, req);
        if !answer.Message? {
          return;
        }
      }
      answer := Message(None);
    }

    /** Once round it: to sleep and, with a token, back into the mutex. */
    method SleepForMail(self: Tid, req: Request) returns (answer: Answer)
      requires Valid() && Doing(self) == FetchCheck(req) && req.block && first == last
      modifies this, msgs
      ensures Valid() && Grew(self, []) && ticks > old(ticks)
      ensures if answer.Message? then Doing(self) == FetchCheck(req) else Unfed(self, req, answer)
      ensures answer.Message? && old(ticks) >= horizon ==> notEmpty < old(notEmpty)
    {
      YieldForMail(self, req);
      AwaitMail(self, req);
      if req.timed && late(ticks) {
        Expires(self, req);
        answer := TimedOut;
      } else if notEmpty == 0 {
        answer := StillWaiting;
      } else {
        var ok := WakeForMail(self, req);
        answer := if ok then Message(None) else StillWaiting;
      }
    }

    /** The wait on not_empty, for as long as the others move or until the time has run out. */
    method AwaitMail(self: Tid, req: Request)
      requires Valid() && Doing(self) == FetchSleep(req)
      modifies this, msgs
      ensures Valid() && Grew(self, []) && Doing(self) == FetchSleep(req) && Calm()
      ensures notEmpty > 0 || (req.timed && late(ticks)) || Stranded(self)
    {
      World(self);
      while notEmpty == 0 && !(req.timed && late(ticks)) && ticks < horizon
        invariant Valid() && Grew(self, []) && Doing(self) == FetchSleep(req) && Calm()
        decreases horizon - ticks
      {
        World(self);
      }
    }

    /** Give the mutex up and be about to wait for a message. */
    method YieldForMail(self: Tid, req: Request)
      requires Valid() && Doing(self) == FetchCheck(req) && req.block && first == last
      modifies this, msgs
      ensures Valid() && Grew(self, []) && Doing(self) == FetchSleep(req) && Calm() && ticks > old(ticks)
    {
      HereIs(self);
      TurnOn(self, FetchYield(req));
      HereIs(self);
      ReleaseMutex(self, FetchSleep(req));
    }

    method Expires(self: Tid, req: Request)
      requires Valid() && Doing(self) == FetchSleep(req) && req.timed
      modifies this`pc, this`run, this`path
      ensures Valid() && Grew(self, []) && Doing(self) == Idle && ticks == old(ticks)
    {
      ghost var s := Abs();
      HereIs(self);
      pc := pc[self := Idle];
      Record(s, Event(self, Expire), self);
    }

    /** The token is taken and the mutex awaited. */
    method WakeForMail(self: Tid, req: Request) returns (ok: bool)
      requires Valid() && Doing(self) == FetchSleep(req) && notEmpty > 0
      modifies this, msgs
      ensures Valid() && Grew(self, [])
      ensures if ok then Doing(self) == FetchCheck(req) else Stranded(self) && Doing(self) == FetchRelock(req)
      ensures ok && old(ticks) >= horizon ==> notEmpty == old(notEmpty) - 1
    {
      WakeFetcher(self, req);
      ok := WaitMutex(self, FetchCheck(req));
      if ok {
        World(self);
      }
    }

    method WakeFetcher(self: Tid, req: Request)
      requires Valid() && Doing(self) == FetchSleep(req) && notEmpty > 0
      modifies this`waitSend, this`notFull, this`notEmpty, this`pc, this`run, this`path
      ensures Valid() && Grew(self, []) && Doing(self) == FetchRelock(req) && notEmpty == old(notEmpty) - 1
    {
      HereIs(self);
      Adjust(self, waitSend, notFull, notEmpty - 1, FetchRelock(req));
    }
  }
}
