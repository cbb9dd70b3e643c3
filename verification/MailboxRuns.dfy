/** Composing schedules, and what each mailbox operation does when no other thread moves during it. */
module MailboxRuns {
  import opened Common
  import opened MailboxRing
  import opened MailboxProtocol
  import opened Paths

  /** A step other than a timeout. */
  function StepInTime(who: Callers): (State, Event, State) -> bool {
    (s: State, e: Event, s': State) => !e.act.Expire? && Steps(who, s, e, s')
  }

  /** s is reached from a new mailbox without a timeout. */
  ghost predicate InTime(who: Callers, s: State) {
    exists garbage {:trigger Init(garbage)} :: |garbage| == SYS_MBOX_SIZE && Reaches(StepInTime(who), Init(garbage), s)
  }

  lemma InTimeIsReachable(who: Callers, s: State)
    requires InTime(who, s)
    ensures Reachable(who, s)
  {
    var garbage :| |garbage| == SYS_MBOX_SIZE && Reaches(StepInTime(who), Init(garbage), s);
    ReachesWider(StepInTime(who), StepOf(who), Init(garbage), s);
  }

  /** A step of one of the threads ts other than a timeout. */
  function StepOfSome(who: Callers, ts: set<Tid>): (State, Event, State) -> bool {
    (s: State, e: Event, s': State) => e.t in ts && !e.act.Expire? && Steps(who, s, e, s')
  }

  /** Some schedule of the threads ts alone takes s to s'. */
  ghost predicate Leads(who: Callers, ts: set<Tid>, s: State, s': State) {
    Reaches(StepOfSome(who, ts), s, s')
  }

  lemma LeadsStep(who: Callers, ts: set<Tid>, s: State, e: Event)
    requires |s.box.slots| == SYS_MBOX_SIZE && e.t in ts && !e.act.Expire? && Enabled(who, s, e)
    ensures Leads(who, ts, s, Next(who, s, e))
  {
    ReachesItself(StepOfSome(who, ts), s);
    ReachesOn(StepOfSome(who, ts), s, s, e, Next(who, s, e));
  }

  lemma LeadsThen(who: Callers, ts: set<Tid>, s: State, s': State, s'': State)
    requires Leads(who, ts, s, s') && Leads(who, ts, s', s'')
    ensures Leads(who, ts, s, s'')
  {
    ReachesJoin(StepOfSome(who, ts), s, s', s'');
  }

  lemma InTimeMore(who: Callers, ts: set<Tid>, s: State, s': State)
    requires InTime(who, s) && Leads(who, ts, s, s')
    ensures InTime(who, s')
  {
    var garbage :| |garbage| == SYS_MBOX_SIZE && Reaches(StepInTime(who), Init(garbage), s);
    ReachesWider(StepOfSome(who, ts), StepInTime(who), s, s');
    ReachesJoin(StepInTime(who), Init(garbage), s, s');
  }

  /** A run that brings t to the statement pc goes on with what pc does. */
  lemma Then(who: Callers, begin: State, s: State, b: Box, t: Tid, pc: Pc, b': Box, pc': Pc)
    requires |begin.box.slots| == SYS_MBOX_SIZE == |b.slots|
    requires Leads(who, {t}, begin, Goto(s, b, t, pc))
    requires pc != Idle && !Blocked(b, pc) && Effect(b, pc) == (b', pc')
    ensures Leads(who, {t}, begin, Goto(s, b', t, pc'))
  {
    LeadsStep(who, {t}, Goto(s, b, t, pc), Event(t, Run));
    assert Goto(Goto(s, b, t, pc), b', t, pc') == Goto(s, b', t, pc');
    LeadsThen(who, {t}, begin, Goto(s, b, t, pc), Goto(s, b', t, pc'));
  }

  lemma AtGoto(s: State, b: Box, t: Tid, pc: Pc)
    ensures forall u: Tid :: At(Goto(s, b, t, pc), u) == if u == t then pc else At(s, u)
  {
  }

  /** The mailbox after a successful store, in the terms a caller sees. */
  function AfterStore(b: Box, msg: Msg): Box
    requires |b.slots| == SYS_MBOX_SIZE
  {
    b.(slots := b.slots[b.last % SYS_MBOX_SIZE := msg], last := b.last + 1, posted := b.posted + [msg],
       notEmpty := if b.last == b.first then Signalled(b.notEmpty) else b.notEmpty)
  }

  /** The mailbox after a successful removal. */
  function AfterTake(b: Box, want: bool): Box
    requires |b.slots| == SYS_MBOX_SIZE
  {
    b.(first := b.first + 1,
       handed := b.handed + [if want then Some(b.slots[b.first % SYS_MBOX_SIZE]) else None],
       notFull := if b.waitSend != 0 then Signalled(b.notFull) else b.notFull)
  }

  /** Inside the mutex and with room: write the slot, note whether the ring was empty, advance. */
  lemma SlotThen(who: Callers, begin: State, s: State, b: Box, t: Tid, block: bool, msg: Msg)
    requires |begin.box.slots| == SYS_MBOX_SIZE == |b.slots|
    requires Leads(who, {t}, begin, Goto(s, b, t, PostStore(block, msg)))
    ensures Leads(who, {t}, begin,
                  Goto(s, AfterStore(b, msg).(notEmpty := b.notEmpty), t, PostNotify(b.last == b.first)))
  {
    var stored := b.(slots := AfterStore(b, msg).slots);
    var advanced := AfterStore(b, msg).(notEmpty := b.notEmpty);
    var advancing := PostAdvance(block, msg, b.last == b.first);
    assert Leads(who, {t}, begin, Goto(s, stored, t, PostMark(block, msg))) by {
      Then(who, begin, s, b, t, PostStore(block, msg), stored, PostMark(block, msg));
    }
    assert Leads(who, {t}, begin, Goto(s, stored, t, advancing)) by {
      Then(who, begin, s, stored, t, PostMark(block, msg), stored, advancing);
    }
    Then(who, begin, s, stored, t, advancing, advanced, PostNotify(b.last == b.first));
  }

  /** The rest of a successful posting: signal not_empty if the ring was empty, release the mutex. */
  lemma StoreThen(who: Callers, begin: State, s: State, b: Box, t: Tid, block: bool, msg: Msg)
    requires |begin.box.slots| == SYS_MBOX_SIZE == |b.slots|
    requires Leads(who, {t}, begin, Goto(s, b, t, PostStore(block, msg)))
    ensures Leads(who, {t}, begin, Goto(s, AfterStore(b, msg).(mutex := Signalled(b.mutex)), t, Idle))
  {
    var done := AfterStore(b, msg);
    SlotThen(who, begin, s, b, t, block, msg);
    assert Leads(who, {t}, begin, Goto(s, done, t, PostUnlock)) by {
      Then(who, begin, s, done.(notEmpty := b.notEmpty), t, PostNotify(b.last == b.first), done, PostUnlock);
    }
    Then(who, begin, s, done, t, PostUnlock, done.(mutex := Signalled(b.mutex)), Idle);
  }

  /** Inside the mutex with a message there: four statements take it and release the mutex. */
  lemma TakeThen(who: Callers, begin: State, s: State, b: Box, t: Tid, req: Request)
    requires |begin.box.slots| == SYS_MBOX_SIZE == |b.slots|
    requires Leads(who, {t}, begin, Goto(s, b, t, FetchTake(req)))
    ensures Leads(who, {t}, begin, Goto(s, AfterTake(b, req.want).(mutex := Signalled(b.mutex)), t, Idle))
  {
    var done := AfterTake(b, req.want);
    var got, advanced := done.handed[|b.handed|], done.(notFull := b.notFull);
    Then(who, begin, s, b, t, FetchTake(req), b, FetchAdvance(got));
    Then(who, begin, s, b, t, FetchAdvance(got), advanced, FetchNotify);
    Then(who, begin, s, advanced, t, FetchNotify, done, FetchUnlock);
    Then(who, begin, s, done, t, FetchUnlock, done.(mutex := Signalled(b.mutex)), Idle);
  }

  /** Calling a posting operation and making its test, nobody else being inside. */
  lemma PostEnter(who: Callers, s: State, t: Tid, block: bool, msg: Msg)
    requires |s.box.slots| == SYS_MBOX_SIZE && At(s, t) == Idle && s.box.mutex == 1
    requires block ==> t in who.posters
    ensures Leads(who, {t}, s,
                  Goto(s, s.box.(mutex := 0), t, if !Full(s.box.first, s.box.last) then PostStore(block, msg)
                                                 else if block then PostCount(msg) else PostReject))
  {
    var inside := s.box.(mutex := 0);
    LeadsStep(who, {t}, s, Event(t, StartPost(block, msg)));
    Then(who, s, s, s.box, t, PostLock(block, msg), inside, PostCheck(block, msg));
    Then(who, s, s, inside, t, PostCheck(block, msg), inside, Effect(inside, PostCheck(block, msg)).1);
  }

  lemma FetchEnter(who: Callers, s: State, t: Tid, req: Request)
    requires |s.box.slots| == SYS_MBOX_SIZE && At(s, t) == Idle && s.box.mutex == 1
    requires req.block ==> t in who.fetchers
    ensures Leads(who, {t}, s,
                  Goto(s, s.box.(mutex := 0), t, if s.box.first != s.box.last then FetchTake(req)
                                                 else if req.block then FetchYield(req) else FetchMiss))
  {
    var inside := s.box.(mutex := 0);
    LeadsStep(who, {t}, s, Event(t, StartFetch(req)));
    Then(who, s, s, s.box, t, FetchLock(req), inside, FetchCheck(req));
    Then(who, s, s, inside, t, FetchCheck(req), inside, Effect(inside, FetchCheck(req)).1);
  }

  /** A post or trypost that meets no other thread and finds room. */
  lemma PostAlone(who: Callers, s: State, t: Tid, block: bool, msg: Msg)
    requires |s.box.slots| == SYS_MBOX_SIZE && At(s, t) == Idle && s.box.mutex == 1
    requires !Full(s.box.first, s.box.last) && (block ==> t in who.posters)
    ensures Leads(who, {t}, s, Goto(s, AfterStore(s.box, msg), t, Idle))
  {
    var inside := s.box.(mutex := 0);
    assert AfterStore(inside, msg).(mutex := Signalled(inside.mutex)) == AfterStore(s.box, msg);
    PostEnter(who, s, t, block, msg);
    StoreThen(who, s, s, inside, t, block, msg);
  }

  /** A blocking post that meets no other thread and finds the ring full goes to sleep, counted. */
  lemma PostSleepAlone(who: Callers, s: State, t: Tid, msg: Msg)
    requires |s.box.slots| == SYS_MBOX_SIZE && At(s, t) == Idle && s.box.mutex == 1
    requires Full(s.box.first, s.box.last) && t in who.posters
    ensures Leads(who, {t}, s, Goto(s, s.box.(waitSend := s.box.waitSend + 1), t, PostSleep(msg)))
  {
    var inside, counted := s.box.(mutex := 0), s.box.(waitSend := s.box.waitSend + 1);
    PostEnter(who, s, t, true, msg);
    assert Leads(who, {t}, s, Goto(s, counted.(mutex := 0), t, PostYield(msg))) by {
      Then(who, s, s, inside, t, PostCount(msg), counted.(mutex := 0), PostYield(msg));
    }
    Then(who, s, s, counted.(mutex := 0), t, PostYield(msg), counted, PostSleep(msg));
  }

  /** A sleeping poster that finds a token and room comes back in, uncounted. */
  lemma PostWakeEnter(who: Callers, s: State, t: Tid, msg: Msg)
    requires |s.box.slots| == SYS_MBOX_SIZE && At(s, t) == PostSleep(msg) && s.box.mutex == 1
    requires s.box.notFull > 0 && !Full(s.box.first, s.box.last)
    ensures Leads(who, {t}, s,
                  Goto(s, s.box.(notFull := s.box.notFull - 1, mutex := 0, waitSend := s.box.waitSend - 1), t,
                       PostStore(true, msg)))
  {
    var woken := s.box.(notFull := s.box.notFull - 1);
    var inside := s.box.(notFull := s.box.notFull - 1, mutex := 0);
    var uncounted := s.box.(notFull := s.box.notFull - 1, mutex := 0, waitSend := s.box.waitSend - 1);
    assert Leads(who, {t}, s, Goto(s, woken, t, PostRelock(msg))) by {
      LeadsStep(who, {t}, s, Event(t, Run));
    }
    assert Leads(who, {t}, s, Goto(s, inside, t, PostUncount(msg))) by {
      Then(who, s, s, woken, t, PostRelock(msg), inside, PostUncount(msg));
    }
    assert Leads(who, {t}, s, Goto(s, uncounted, t, PostCheck(true, msg))) by {
      Then(who, s, s, inside, t, PostUncount(msg), uncounted, PostCheck(true, msg));
    }
    Then(who, s, s, uncounted, t, PostCheck(true, msg), uncounted, PostStore(true, msg));
  }

  /** A fetch or tryfetch that meets no other thread and finds a message. */
  lemma FetchAlone(who: Callers, s: State, t: Tid, req: Request)
    requires |s.box.slots| == SYS_MBOX_SIZE && At(s, t) == Idle && s.box.mutex == 1
    requires s.box.first != s.box.last && (req.block ==> t in who.fetchers)
    ensures Leads(who, {t}, s, Goto(s, AfterTake(s.box, req.want), t, Idle))
  {
    var inside := s.box.(mutex := 0);
    assert AfterTake(inside, req.want).(mutex := Signalled(inside.mutex)) == AfterTake(s.box, req.want);
    FetchEnter(who, s, t, req);
    TakeThen(who, s, s, inside, t, req);
  }

  /** A blocking fetch that meets no other thread and finds the ring empty goes to sleep outside the mutex. */
  lemma SleepAlone(who: Callers, s: State, t: Tid, req: Request)
    requires |s.box.slots| == SYS_MBOX_SIZE && At(s, t) == Idle && s.box.mutex == 1
    requires s.box.first == s.box.last && req.block && t in who.fetchers
    ensures Leads(who, {t}, s, Goto(s, s.box, t, FetchSleep(req)))
  {
    FetchEnter(who, s, t, req);
    Then(who, s, s, s.box.(mutex := 0), t, FetchYield(req), s.box, FetchSleep(req));
  }

  /** A sleeping fetcher that finds a token and a message comes back in. */
  lemma WakeEnter(who: Callers, s: State, t: Tid, req: Request)
    requires |s.box.slots| == SYS_MBOX_SIZE && At(s, t) == FetchSleep(req) && s.box.mutex == 1
    requires s.box.notEmpty > 0 && s.box.first != s.box.last
    ensures Leads(who, {t}, s,
                  Goto(s, s.box.(notEmpty := s.box.notEmpty - 1, mutex := 0), t, FetchTake(req)))
  {
    var woken := s.box.(notEmpty := s.box.notEmpty - 1);
    var inside := s.box.(notEmpty := s.box.notEmpty - 1, mutex := 0);
    assert Leads(who, {t}, s, Goto(s, woken, t, FetchRelock(req))) by {
      LeadsStep(who, {t}, s, Event(t, Run));
    }
    assert Leads(who, {t}, s, Goto(s, inside, t, FetchCheck(req))) by {
      Then(who, s, s, woken, t, FetchRelock(req), inside, FetchCheck(req));
    }
    Then(who, s, s, inside, t, FetchCheck(req), inside, FetchTake(req));
  }

  /** A sleeping fetcher that finds a token and a message takes both. */
  lemma WakeAlone(who: Callers, s: State, t: Tid, req: Request)
    requires |s.box.slots| == SYS_MBOX_SIZE && At(s, t) == FetchSleep(req) && s.box.mutex == 1
    requires s.box.notEmpty > 0 && s.box.first != s.box.last
    ensures Leads(who, {t}, s, Goto(s, AfterTake(s.box, req.want).(notEmpty := s.box.notEmpty - 1), t, Idle))
  {
    WakeEnter(who, s, t, req);
    TakeThen(who, s, s, s.box.(notEmpty := s.box.notEmpty - 1, mutex := 0), t, req);
  }
}
