/**
 lwipcs.go as the object its goroutines and its processing loop update in place, over the heap of src/tcp.c.  Between
 two statements of a method the others execute statements of theirs, as a plan says; the object carries its run and the
 states it passed through, and every method is proved to extend them to another run of WriteProtocol.
 */
module GoLoop {
  import opened Common
  import T = TcpModel
  import opened WriteProtocol
  import opened Paths
  import TcpRaw
  import WriteProperties

  /** What the loop finds in its select statement, or what lwIP calls back from it. */
  datatype Input =
    | FromQueue(alloc: bool)
    | SentBack(room: nat)
    | PollBack(room: nat)
    | DataBack
    | CloseBack(peer: bool)

  /** Whose statements a method executes. */
  datatype Mover = TheLoop | Goroutine(t: Tid)

  /** What sets the loop, or a goroutine, going. */
  function Asks(me: Mover): Event -> bool {
    match me
    case TheLoop => ((e: Event) => e.ProcTake? || e.OnSent? || e.OnPoll? || e.OnData? || e.OnClose?)
    case Goroutine(t) => ((e: Event) => (e.CallWrite? || e.CallClose?) && e.t == t)
  }

  /** e is not a step of me. */
  predicate Elsewhere(me: Mover, e: Event) {
    match me
    case TheLoop => e.CallWrite? || e.CallClose? || e.Run? || e.ForeignPut?
    case Goroutine(t) => (e.CallWrite? || e.CallClose? || e.Run?) ==> e.t != t
  }

  /** A step of the others that may happen; memory is wanting only where it is asked for. */
  function MayOf(cfg: Config, me: Mover): (State, Event) -> bool {
    (s: State, e: Event) =>
      Elsewhere(me, e) && Enabled(cfg, s, e) && (e == ProcRun(false) ==> s.core.proc.SendCall?)
  }

  function OthersOf(cfg: Config): Mover -> (State, Event) -> bool {
    (me: Mover) => MayOf(cfg, me)
  }

  function NextOf(cfg: Config): (State, Event) -> State {
    (s: State, e: Event) => if Enabled(cfg, s, e) then WriteProtocol.Next(cfg, s, e) else s
  }

  function Asked(me: Mover, e: Event): seq<Event> {
    if Asks(me)(e) then [e] else []
  }

  function AsEvent(i: Input): Event {
    match i
    case FromQueue(_) => ProcTake
    case SentBack(room) => OnSent(room)
    case PollBack(room) => OnPoll(room)
    case DataBack => OnData
    case CloseBack(peer) => OnClose(peer)
  }

  function AsEvents(inputs: seq<Input>): seq<Event> {
    if inputs == [] then [] else AsEvents(inputs[..|inputs| - 1]) + [AsEvent(inputs[|inputs| - 1])]
  }

  lemma AsEventsGrows(inputs: seq<Input>, k: nat)
    requires k < |inputs|
    ensures AsEvents(inputs[..k + 1]) == AsEvents(inputs[..k]) + [AsEvent(inputs[k])]
    ensures inputs[..k + 1] == inputs[..k] + [inputs[k]]
  {
    assert inputs[..k + 1][..k] == inputs[..k];
  }

  /** The goroutines leave alone what only the loop writes down. */
  predicate LoopHistory(h: History, h': History) {
    h'.lost == h.lost && h'.events == h.events
  }

  /** What a call of Write comes to; Stuck: it waits for the lock, for room in the queue or for its token. */
  datatype Outcome = Done(l: nat, failed: bool) | Stuck

  /** The histories of WriteProtocol's Core. */
  datatype History = History(
    next: nat,
    locked: seq<Write>,
    served: seq<Write>,
    nilReturned: set<Write>,
    failed: set<Write>,
    lost: bool,
    panicked: bool,
    events: seq<T.Event>)

  class Server {
    var err: bool
    var sendCount: nat
    var wait: nat
    var waitClosed: bool
    var lck: Option<Holder>
    var registered: bool
    var sendQueue: seq<Item>
    const es: TcpRaw.RawState
    // What the transition system speaks of beside these.
    var proc: Proc
    var hist: History
    var go: map<Tid, Goroutine>
    const cfg: Config
    // The run, and the states it passes through.
    ghost var run: seq<Event>
    ghost var path: seq<State>
    ghost var marks: seq<Tick<Mover>>
    // plan(n): the steps of the others at the n-th tick, before the horizon.
    const plan: nat -> seq<Event>
    const horizon: nat
    var ticks: nat

    /** The PCB, the queue and the loop, beside the connection conn. */
    function Beside(conn: T.Conn): Core
      reads this
    {
      Core(err, sendCount, wait, waitClosed, lck, registered, sendQueue, conn, proc, hist.next, hist.locked,
           hist.served, hist.nilReturned, hist.failed, hist.lost, hist.panicked, hist.events)
    }

    ghost function Abs(): State
      reads this, es, es.pcb
    {
      State(Beside(es.Abs()), go)
    }

    function Doing(t: Tid): Goroutine
      reads this
    {
      if t in go then go[t] else Idle
    }

    /** At every tick so far the others have followed the plan. */
    ghost predicate Heedful()
      reads this
    {
      |marks| == ticks && Obeys(OthersOf(cfg), NextOf(cfg), UpTo(plan, horizon), run, path, marks)
    }

    /** The C side accounts for its pbufs; path is a run of the transition system, with the others as planned. */
    ghost predicate Sound()
      reads this, es, es.pcb, es.all, es.chain
    {
      es.Valid() && es.pcb.answers == cfg.answers && IsPath(StepOf(cfg), Init(cfg), run, path) && Heedful()
    }

    /**
     The object is where its run leads.  A quantifier over the one k there is keeps the equation of the two states out
     of sight: it matters only to the methods that name IsHere.
     */
    ghost predicate Valid()
      reads this, es, es.pcb, es.all, es.chain
    {
      Sound() && forall k {:trigger IsHere(k)} :: k == |run| ==> IsHere(k)
    }

    ghost predicate IsHere(k: nat)
      requires k < |path|
      reads this, es, es.pcb
    {
      path[k] == Abs()
    }

    ghost function Here(): (s: State)
      requires Valid()
      reads this, es, es.pcb, es.all, es.chain
      ensures s == Abs() == path[|run|]
    {
      assert IsHere(|run|);
      Abs()
    }

    /** The run has grown, and meanwhile me was asked for these. */
    twostate predicate Grew(me: Mover, asked: seq<Event>)
      reads this
    {
      Goes(Asks(me), old(run), run, asked) && old(path) <= path
    }

    /** go_tcp_accept_h, called from cs_tcp_raw_accept. */
    constructor (es: TcpRaw.RawState, writers: set<Tid>, longest: nat, plan: nat -> seq<Event>, horizon: nat)
      requires es.Valid() && es.Abs() == T.Accept(es.pcb.room)
      ensures Valid() && run == [] && Abs() == Init(Config(writers, es.pcb.answers, es.pcb.room, longest))
      ensures this.es == es && cfg == Config(writers, es.pcb.answers, es.pcb.room, longest)
      ensures this.plan == plan && this.horizon == horizon && ticks == 0
    {
      this.es, cfg := es, Config(writers, es.pcb.answers, es.pcb.room, longest);
      this.plan, this.horizon, ticks, marks := plan, horizon, 0, [];
      err, sendCount, wait, waitClosed, lck, registered, sendQueue := false, 0, 0, false, None, true, [];
      proc, hist, go := Select, History(0, [], [], {}, {}, false, false, []), map[];
      run, path := [], [Init(Config(writers, es.pcb.answers, es.pcb.room, longest))];
    }

    /** The run grows by the step e, which led from s to here. */
    ghost method Record(s: State, e: Event, me: Mover)
      requires Sound() && path[|run|] == s && Enabled(cfg, s, e) && Abs() == WriteProtocol.Next(cfg, s, e)
      modifies this`run, this`path
      ensures Valid() && Grew(me, Asked(me, e)) && run == old(run) + [e]
    {
      PathGrows(StepOf(cfg), Init(cfg), run, path, e, Abs());
      GoesOneStep(Asks(me), run, e);
      ObeysMore(OthersOf(cfg), NextOf(cfg), UpTo(plan, horizon), run, path, marks, run + [e], path + [Abs()]);
      run, path := run + [e], path + [Abs()];
    }

    /** The same for a step that is known as a path. */
    ghost method RecordPath(s: State, e: Event, me: Mover)
      requires Sound() && path[|run|] == s && IsPath(StepOf(cfg), s, [e], [s, Abs()])
      modifies this`run, this`path
      ensures Valid() && Grew(me, Asked(me, e)) && run == old(run) + [e]
    {
      PathsJoin(StepOf(cfg), Init(cfg), run, path, [e], [s, Abs()]);
      GoesOneStep(Asks(me), run, e);
      ObeysMore(OthersOf(cfg), NextOf(cfg), UpTo(plan, horizon), run, path, marks, run + [e], path + [Abs()]);
      assert [s, Abs()][1..] == [Abs()];
      run, path := run + [e], path + [Abs()];
    }

    // -------------------------------------------------------------- the statements of Write

    /** A goroutine calls Write with a buffer that is not empty. */
    method CallsWrite(t: Tid, b: Bytes, ghost me: Mover)
      requires Valid() && Doing(t) == Idle && t in cfg.writers && 1 <= |b| <= cfg.longest
      modifies this`go, this`hist, this`run, this`path
      ensures Valid() && Grew(me, Asked(me, CallWrite(t, b)))
      ensures go == old(go)[t := WriteTest(WriteProtocol.Write(old(hist.next), b))]
      ensures hist == old(hist).(next := old(hist.next) + 1)
      ensures run == old(run) + [CallWrite(t, b)]
    {
      ghost var s := Here();
      go := go[t := WriteTest(WriteProtocol.Write(hist.next, b))];
      hist := hist.(next := hist.next + 1);
      Record(s, CallWrite(t, b), me);
    }

    /** The test of p.err. */
    method TestErr(t: Tid, w: Write, ghost me: Mover)
      requires Valid() && Doing(t) == WriteTest(w)
      modifies this`go, this`run, this`path
      ensures Valid() && Grew(me, []) && go == old(go)[t := if !err then WriteLock(w) else WriteReturn(w)]
      ensures run == old(run) + [Run(t)]
    {
      ghost var s := Here();
      go := go[t := if !err then WriteLock(w) else WriteReturn(w)];
      Record(s, Run(t), me);
    }

    /** The lock is free and taken. */
    method LockWrite(t: Tid, w: Write, ghost me: Mover)
      requires Valid() && Doing(t) == WriteLock(w) && lck == None
      modifies this`lck, this`hist, this`go, this`run, this`path
      ensures Valid() && Grew(me, []) && go == old(go)[t := WritePut(w)]
      ensures lck == Some(ByGo(t)) && hist == old(hist).(locked := old(hist.locked) + [w])
      ensures run == old(run) + [Run(t)]
    {
      ghost var s := Here();
      lck, hist, go := Some(ByGo(t)), hist.(locked := hist.locked + [w]), go[t := WritePut(w)];
      Record(s, Run(t), me);
    }

    /** The entry goes into the queue, which has room. */
    method Enqueue(t: Tid, w: Write, ghost me: Mover)
      requires Valid() && Doing(t) == WritePut(w) && |sendQueue| < QUEUE_CAPACITY
      modifies this`sendQueue, this`go, this`run, this`path
      ensures Valid() && Grew(me, []) && go == old(go)[t := WriteWait(w)] && sendQueue == old(sendQueue) + [Mine(w)]
      ensures run == old(run) + [Run(t)]
    {
      ghost var s := Here();
      sendQueue, go := sendQueue + [Mine(w)], go[t := WriteWait(w)];
      Record(s, Run(t), me);
    }

    /** A token is there, or the channel is closed. */
    method Receive(t: Tid, w: Write, ghost me: Mover)
      requires Valid() && Doing(t) == WriteWait(w) && (wait > 0 || waitClosed)
      modifies this`wait, this`hist, this`go, this`run, this`path
      ensures Valid() && Grew(me, []) && go == old(go)[t := WriteUnlock(w)]
      ensures if old(wait) > 0 then wait == old(wait) - 1 && hist == old(hist).(served := old(hist.served) + [w])
              else wait == 0 && hist == old(hist)
      ensures run == old(run) + [Run(t)]
    {
      if wait > 0 {
        ReceiveToken(t, w, me);
      } else {
        FindClosed(t, w, me);
      }
    }

    method ReceiveToken(t: Tid, w: Write, ghost me: Mover)
      requires Valid() && Doing(t) == WriteWait(w) && wait > 0
      modifies this`wait, this`hist, this`go, this`run, this`path
      ensures Valid() && Grew(me, []) && go == old(go)[t := WriteUnlock(w)]
      ensures wait == old(wait) - 1 && hist == old(hist).(served := old(hist.served) + [w])
      ensures run == old(run) + [Run(t)]
    {
      ghost var s := Here();
      wait, hist, go := wait - 1, hist.(served := hist.served + [w]), go[t := WriteUnlock(w)];
      Record(s, Run(t), me);
    }

    method FindClosed(t: Tid, w: Write, ghost me: Mover)
      requires Valid() && Doing(t) == WriteWait(w) && wait == 0 && waitClosed
      modifies this`go, this`run, this`path
      ensures Valid() && Grew(me, []) && go == old(go)[t := WriteUnlock(w)]
      ensures run == old(run) + [Run(t)]
    {
      ghost var s := Here();
      go := go[t := WriteUnlock(w)];
      Record(s, Run(t), me);
    }

    /** The lock is given back. */
    method UnlockWrite(t: Tid, w: Write, ghost me: Mover)
      requires Valid() && Doing(t) == WriteUnlock(w)
      modifies this`lck, this`go, this`run, this`path
      ensures Valid() && Grew(me, []) && go == old(go)[t := WriteReturn(w)] && lck == None
      ensures run == old(run) + [Run(t)]
    {
      ghost var s := Here();
      lck, go := None, go[t := WriteReturn(w)];
      Record(s, Run(t), me);
    }

    /** p.err is what Write returns. */
    method ReturnErr(t: Tid, w: Write, ghost me: Mover)
      requires Valid() && Doing(t) == WriteReturn(w)
      modifies this`hist, this`go, this`run, this`path
      ensures Valid() && Grew(me, []) && go == old(go)[t := Idle]
      ensures hist == if err then old(hist).(failed := old(hist.failed) + {w})
                      else old(hist).(nilReturned := old(hist.nilReturned) + {w})
      ensures run == old(run) + [Run(t)]
    {
      ghost var s := Here();
      if err {
        hist := hist.(failed := hist.failed + {w});
      } else {
        hist := hist.(nilReturned := hist.nilReturned + {w});
      }
      go := go[t := Idle];
      Record(s, Run(t), me);
    }

    // -------------------------------------------------------------- the statements of close, called from Close

    method CallsClose(t: Tid, ghost me: Mover)
      requires Valid() && Doing(t) == Idle
      modifies this`go, this`run, this`path
      ensures Valid() && Grew(me, Asked(me, CallClose(t))) && go == old(go)[t := CloseLock]
      ensures run == old(run) + [CallClose(t)]
    {
      ghost var s := Here();
      go := go[t := CloseLock];
      Record(s, CallClose(t), me);
    }

    /** The lock is free and taken. */
    method LockClose(t: Tid, ghost me: Mover)
      requires Valid() && Doing(t) == CloseLock && lck == None
      modifies this`lck, this`go, this`run, this`path
      ensures Valid() && Grew(me, []) && go == old(go)[t := CloseTest] && lck == Some(ByGo(t))
      ensures run == old(run) + [Run(t)]
    {
      ghost var s := Here();
      lck, go := Some(ByGo(t)), go[t := CloseTest];
      Record(s, Run(t), me);
    }

    /** The test of p.err. */
    method TestClosed(t: Tid, ghost me: Mover)
      requires Valid() && Doing(t) == CloseTest
      modifies this`go, this`run, this`path
      ensures Valid() && Grew(me, []) && go == old(go)[t := if err then CloseUnlock else CloseErr]
      ensures run == old(run) + [Run(t)]
    {
      ghost var s := Here();
      go := go[t := if err then CloseUnlock else CloseErr];
      Record(s, Run(t), me);
    }

    /** p.err says closed. */
    method SetErr(t: Tid, ghost me: Mover)
      requires Valid() && Doing(t) == CloseErr
      modifies this`err, this`go, this`run, this`path
      ensures Valid() && Grew(me, []) && go == old(go)[t := CloseChan] && err
      ensures run == old(run) + [Run(t)]
    {
      ghost var s := Here();
      err, go := true, go[t := CloseChan];
      Record(s, Run(t), me);
    }

    /** The token channel is closed, which it was not before. */
    method CloseWait(t: Tid, ghost me: Mover)
      requires Valid() && Doing(t) == CloseChan && !waitClosed
      modifies this`waitClosed, this`go, this`run, this`path
      ensures Valid() && Grew(me, []) && go == old(go)[t := CloseUnlock] && waitClosed
      ensures run == old(run) + [Run(t)]
    {
      ghost var s := Here();
      waitClosed, go := true, go[t := CloseUnlock];
      Record(s, Run(t), me);
    }

    lemma NotClosedYet(t: Tid)
      requires Valid() && Doing(t) == CloseChan
      ensures !waitClosed
    {
      PathReaches(StepOf(cfg), Init(cfg), run, path);
      ReachableInv(cfg, Here());
      assert GoHolds(At(Abs(), t));
    }

    /** The lock is given back. */
    method UnlockClose(t: Tid, ghost me: Mover)
      requires Valid() && Doing(t) == CloseUnlock
      modifies this`lck, this`go, this`run, this`path
      ensures Valid() && Grew(me, []) && go == old(go)[t := Idle] && lck == None
      ensures run == old(run) + [Run(t)]
    {
      ghost var s := Here();
      lck, go := None, go[t := Idle];
      Record(s, Run(t), me);
    }

    // -------------------------------------------------------------- the other goroutines

    predicate CanGo(t: Tid)
      reads this
    {
      match Doing(t)
      case Idle => false
      case WriteLock(_) => lck == None
      case CloseLock => lck == None
      case WritePut(_) => |sendQueue| < QUEUE_CAPACITY
      case WriteWait(_) => wait > 0 || waitClosed
      case _ => true
    }

    /** Goroutine t executes its next statement. */
    method Statement(t: Tid, ghost me: Mover)
      requires Valid() && CanGo(t)
      modifies this`lck, this`sendQueue, this`wait, this`hist, this`err, this`waitClosed, this`go, this`run, this`path
      ensures Valid() && Grew(me, []) && LoopHistory(old(hist), hist)
      ensures forall u :: u != t ==> Doing(u) == old(Doing(u))
      ensures run == old(run) + [Run(t)]
    {
      match go[t] {
        case WriteTest(w) => TestErr(t, w, me);
        case WriteLock(w) => LockWrite(t, w, me);
        case WritePut(w) => Enqueue(t, w, me);
        case WriteWait(w) => Receive(t, w, me);
        case WriteUnlock(w) => UnlockWrite(t, w, me);
        case WriteReturn(w) => ReturnErr(t, w, me);
        case CloseLock => LockClose(t, me);
        case CloseTest => TestClosed(t, me);
        case CloseErr => SetErr(t, me);
        case CloseChan =>
          NotClosedYet(t);
          CloseWait(t, me);
        case CloseUnlock => UnlockClose(t, me);
      }
    }

    /** Another PCB's entry enters the queue. */
    method Crowd(ghost me: Mover)
      requires Valid() && |sendQueue| < QUEUE_CAPACITY
      modifies this`sendQueue, this`run, this`path
      ensures Valid() && Grew(me, [])
      ensures run == old(run) + [ForeignPut]
    {
      ghost var s := Here();
      sendQueue := sendQueue + [Foreign];
      Record(s, ForeignPut, me);
    }

    /** The event is one of the goroutines' or of other PCBs', and may happen. */
    predicate CanOutside(e: Event)
      reads this
    {
      match e
      case CallWrite(t, b) => Doing(t) == Idle && t in cfg.writers && 1 <= |b| <= cfg.longest
      case CallClose(t) => Doing(t) == Idle
      case Run(t) => CanGo(t)
      case ForeignPut => |sendQueue| < QUEUE_CAPACITY
      case _ => false
    }

    /** A step of the goroutines other than me, or of other PCBs. */
    method Outside(e: Event, ghost me: Mover)
      requires Valid() && CanOutside(e) && Elsewhere(me, e)
      modifies this`lck, this`sendQueue, this`wait, this`hist, this`err, this`waitClosed, this`go, this`run, this`path
      ensures Valid() && Grew(me, []) && LoopHistory(old(hist), hist) && run == old(run) + [e]
      ensures me.Goroutine? ==> Doing(me.t) == old(Doing(me.t))
    {
      match e {
        case CallWrite(t, b) => CallsWrite(t, b, me);
        case CallClose(t) => CallsClose(t, me);
        case Run(t) => Statement(t, me);
        case ForeignPut => Crowd(me);
      }
    }

    /** Whether an event may happen, from what the object knows of its state. */
    lemma MayIs(me: Mover, e: Event)
      requires Valid()
      ensures me.TheLoop? ==> (MayOf(cfg, me)(path[|run|], e) <==> CanOutside(e))
      ensures me.Goroutine? ==> (MayOf(cfg, me)(path[|run|], e) <==> CanLoop(e) || (CanOutside(e) && Elsewhere(me, e)))
    {
      CanOutsideIs(e);
      CanLoopIs(e);
    }

    lemma CanOutsideIs(e: Event)
      requires Valid()
      ensures CanOutside(e) <==> Elsewhere(TheLoop, e) && Enabled(cfg, path[|run|], e)
    {
      assert IsHere(|run|);
      match e {
        case CallWrite(_, _) =>
        case CallClose(_) =>
        case Run(t) => CanGoIs(t);
        case ForeignPut =>
        case _ =>
      }
    }

    lemma CanGoIs(t: Tid)
      ensures CanGo(t) <==> Doing(t) != Idle && !GoBlocked(Abs().core, Doing(t))
    {
      match Doing(t)
      case WriteLock(_) =>
      case CloseLock =>
      case WritePut(_) =>
      case WriteWait(_) =>
      case _ =>
    }

    lemma CanLoopIs(e: Event)
      requires Valid()
      ensures CanLoop(e) <==> !Elsewhere(TheLoop, e) && Enabled(cfg, path[|run|], e) &&
                              (e == ProcRun(false) ==> path[|run|].core.proc.SendCall?)
    {
      assert IsHere(|run|);
      match e {
        case ProcRun(_) =>
        case OnSent(_) =>
        case _ =>
      }
    }

    /** Then the run leads where the transition system says. */
    lemma LedTo(s: State, e: Event)
      requires Valid() && run != [] && run[|run| - 1] == e && path[|run| - 1] == s
      ensures Enabled(cfg, s, e) && path[|run|] == NextOf(cfg)(s, e)
    {
      assert StepAt(StepOf(cfg), run, path, |run| - 1);
    }

    /** Time passes for the loop: the goroutines follow the plan. */
    method World()
      requires Valid()
      modifies this`lck, this`sendQueue, this`wait, this`hist, this`err, this`waitClosed, this`go, this`run, this`path
      modifies this`ticks, this`marks
      ensures Valid() && Grew(TheLoop, []) && LoopHistory(old(hist), hist) && ticks == old(ticks) + 1
    {
      ghost var from := |run|;
      Follow();
      ObeysTick(OthersOf(cfg), NextOf(cfg), UpTo(plan, horizon), run, path, marks, TheLoop, from);
      Tock(TheLoop, from);
    }

    /** A tick has passed. */
    method Tock(ghost me: Mover, ghost from: nat)
      requires Valid()
      requires Obeys(OthersOf(cfg), NextOf(cfg), UpTo(plan, horizon), run, path, marks + [Tick(me, from)])
      modifies this`ticks, this`marks
      ensures Valid() && ticks == old(ticks) + 1
    {
      ghost var s := Here();
      ticks := ticks + 1;
      marks := marks + [Tick(me, from)];
      assert Abs() == s;
    }

    method Follow()
      requires Valid()
      modifies this`lck, this`sendQueue, this`wait, this`hist, this`err, this`waitClosed, this`go, this`run, this`path
      ensures Valid() && Grew(TheLoop, []) && LoopHistory(old(hist), hist)
      ensures run == old(run) + Heeded(MayOf(cfg, TheLoop), NextOf(cfg), old(path[|run|]), UpTo(plan, horizon)(ticks))
    {
      ghost var s := path[|run|];
      var schedule := UpTo(plan, horizon)(ticks);
      var i := 0;
      while i < |schedule|
        invariant 0 <= i <= |schedule|
        invariant Valid() && Grew(TheLoop, []) && LoopHistory(old(hist), hist)
        invariant path[|run|] == After(MayOf(cfg, TheLoop), NextOf(cfg), s, schedule[..i])
        invariant run == old(run) + Heeded(MayOf(cfg, TheLoop), NextOf(cfg), s, schedule[..i])
      {
        OneMore(MayOf(cfg, TheLoop), NextOf(cfg), s, schedule, i);
        Heed(schedule[i]);
        i := i + 1;
      }
      assert schedule[..i] == schedule;
    }

    method Heed(e: Event)
      requires Valid()
      modifies this`lck, this`sendQueue, this`wait, this`hist, this`err, this`waitClosed, this`go, this`run, this`path
      ensures Valid() && Grew(TheLoop, []) && LoopHistory(old(hist), hist)
      ensures if MayOf(cfg, TheLoop)(old(path[|run|]), e)
              then path[|run|] == NextOf(cfg)(old(path[|run|]), e) && run == old(run) + [e]
              else path[|run|] == old(path[|run|]) && run == old(run)
    {
      ghost var s := path[|run|];
      MayIs(TheLoop, e);
      if CanOutside(e) {
        Outside(e, TheLoop);
        LedTo(s, e);
      }
    }

    // -------------------------------------------------------------- the loop: Write's entry

    /** A test of the loop, after which it goes on to p. */
    method Turn(p: Proc, ghost me: Mover)
      requires Valid() && proc != Select && !ProcBlocked(Abs().core)
      requires LoopEffect(cfg, Abs().core, ProcRun(true)) == Abs().core.(proc := p)
      modifies this`proc, this`run, this`path
      ensures Valid() && Grew(me, []) && proc == p
      ensures run == old(run) + [ProcRun(true)]
    {
      ghost var s := Here();
      proc := p;
      Record(s, ProcRun(true), me);
    }

    /** The loop takes the next entry from the queue. */
    method Take(ghost me: Mover)
      requires Valid() && proc == Select && sendQueue != []
      modifies this`sendQueue, this`proc, this`run, this`path
      ensures Valid() && Grew(me, Asked(me, ProcTake)) && (proc == Select || proc.SendTest?)
      ensures run == old(run) + [ProcTake]
    {
      ghost var s := Here();
      var item := sendQueue[0];
      sendQueue := sendQueue[1..];
      if item.Mine? {
        proc := SendTest(item.w);
      }
      Record(s, ProcTake, me);
    }

    /** The loop tests whether the PCB is closed. */
    method Test(ghost me: Mover)
      requires Valid() && proc.SendTest?
      modifies this`proc, this`run, this`path
      ensures Valid() && Grew(me, []) && proc == if err then Select else SendCount(old(proc.w))
      ensures run == old(run) + [ProcRun(true)]
    {
      Turn(if err then Select else SendCount(proc.w), me);
    }

    /** The loop counts the entry. */
    method Count(ghost me: Mover)
      requires Valid() && proc.SendCount?
      modifies this`sendCount, this`proc, this`run, this`path
      ensures Valid() && Grew(me, []) && proc == SendCall(old(proc.w))
      ensures run == old(run) + [ProcRun(true)]
    {
      ghost var s := Here();
      sendCount, proc := sendCount + 1, SendCall(proc.w);
      Record(s, ProcRun(true), me);
    }

    /** tcpSend, with cs_tcp_char_send below it. */
    method TcpSend(alloc: bool, ghost me: Mover)
      requires Valid() && proc.SendCall?
      modifies this`proc, this`hist, this`run, this`path, es, es.pcb, es.all
      ensures Valid() && Grew(me, []) && proc == Select && fresh(es.all - old(es.all))
      ensures hist.lost == (old(hist.lost) || !alloc) && run == old(run) + [ProcRun(alloc)]
    {
      ghost var s := Here();
      var r := es.CharSend(proc.w.b, alloc);
      SendStep(cfg, run, path, alloc, es.Abs(), r);
      Returned(s, ProcRun(alloc), T.AppSend(proc.w.b, alloc), Select, alloc, me);
    }

    /** sendEntry.Send.  tcpSend never finds the connection busy: it fails only for want of memory. */
    method Send(alloc: bool)
      requires Valid() && proc.SendTest?
      modifies this, es, es.pcb, es.all
      ensures Valid() && Grew(TheLoop, []) && proc == Select && fresh(es.all - old(es.all))
      ensures hist.lost ==> old(hist.lost) || !alloc
    {
      Test(TheLoop);
      if proc.SendCount? {
        World();
        SendCounted(alloc);
      }
    }

    method SendCounted(alloc: bool)
      requires Valid() && proc.SendCount?
      modifies this, es, es.pcb, es.all
      ensures Valid() && Grew(TheLoop, []) && proc == Select && fresh(es.all - old(es.all))
      ensures hist.lost ==> old(hist.lost) || !alloc
    {
      Count(TheLoop);
      World();
      TcpSend(alloc, TheLoop);
    }

    // -------------------------------------------------------------- the loop: callbacks

    /**
     The C side has been called, or lwIP's callback has run, and that brought fed to the connection at the step e
     from s; alloc: memory was not wanting; the loop goes on to p.
     */
    method Returned(ghost s: State, ghost e: Event, fed: T.Event, p: Proc, alloc: bool, ghost me: Mover)
      requires Sound() && s == path[|run|] == State(Beside(s.core.conn), go)
      requires IsPath(StepOf(cfg), s, [e], [s, AfterReturn(s, es.Abs(), fed, p, alloc)])
      modifies this`proc, this`hist, this`run, this`path
      ensures Valid() && Grew(me, Asked(me, e)) && proc == p && run == old(run) + [e]
      ensures hist.lost == (old(hist.lost) || !alloc)
    {
      proc, hist := p, hist.(events := hist.events + [fed], lost := hist.lost || !alloc);
      RecordPath(s, e, me);
    }

    /** cs_tcp_send, the sent callback; it calls go_tcp_send_done_h once nothing is pending. */
    method SentBack(room: nat, ghost me: Mover)
      requires Valid() && proc == Select && es.live && Unacked()
      modifies this`proc, this`hist, this`run, this`path, es, es.pcb, es.all
      ensures Valid() && Grew(me, Asked(me, OnSent(room))) && fresh(es.all - old(es.all))
      ensures proc == if old(es.p) == null then DoneTest else Select
      ensures hist.lost == old(hist.lost) && run == old(run) + [OnSent(room)]
    {
      ghost var s := Here();
      var done := es.p == null;
      es.Deliver(T.SentCallback(room));
      ReturnStep(cfg, s, OnSent(room), T.SentCallback(room), if done then DoneTest else Select, es.Abs());
      Returned(s, OnSent(room), T.SentCallback(room), if done then DoneTest else Select, true, me);
    }

    /** cs_tcp_raw_poll. */
    method PollBack(room: nat, ghost me: Mover)
      requires Valid() && proc == Select && es.live
      modifies this`proc, this`hist, this`run, this`path, es, es.pcb, es.all
      ensures Valid() && Grew(me, Asked(me, OnPoll(room))) && fresh(es.all - old(es.all)) && proc == Select
      ensures hist.lost == old(hist.lost) && run == old(run) + [OnPoll(room)]
    {
      ghost var s := Here();
      es.Deliver(T.PollCallback(room));
      ReturnStep(cfg, s, OnPoll(room), T.PollCallback(room), Select, es.Abs());
      Returned(s, OnPoll(room), T.PollCallback(room), Select, true, me);
    }

    /** cs_tcp_raw_recv with data. */
    method DataBack(ghost me: Mover)
      requires Valid() && proc == Select && es.live
      modifies this`proc, this`hist, this`run, this`path, es, es.pcb, es.all
      ensures Valid() && Grew(me, Asked(me, OnData)) && fresh(es.all - old(es.all)) && proc == Select
      ensures hist.lost == old(hist.lost) && run == old(run) + [OnData]
    {
      ghost var s := Here();
      es.Deliver(T.DataCallback);
      ReturnStep(cfg, s, OnData, T.DataCallback, Select, es.Abs());
      Returned(s, OnData, T.DataCallback, Select, true, me);
    }

    /** The loop tests whether the PCB is known and open. */
    method DoneLookup(ghost me: Mover)
      requires Valid() && proc.DoneTest?
      modifies this`proc, this`run, this`path
      ensures Valid() && Grew(me, []) && (proc == Select || proc == DoneCheck) && run == old(run) + [ProcRun(true)]
    {
      Turn(if !registered || err then Select else DoneCheck, me);
    }

    /** The loop counts the entry off, if one is counted. */
    method Uncount(ghost me: Mover)
      requires Valid() && proc.DoneCheck?
      modifies this`sendCount, this`proc, this`run, this`path
      ensures Valid() && Grew(me, []) && (proc == Select || proc == DonePut)
      ensures run == old(run) + [ProcRun(true)]
    {
      if sendCount > 0 {
        CountOff(me);
      } else {
        Turn(Select, me);
      }
    }

    method CountOff(ghost me: Mover)
      requires Valid() && proc.DoneCheck? && sendCount > 0
      modifies this`sendCount, this`proc, this`run, this`path
      ensures Valid() && Grew(me, []) && proc == DonePut && run == old(run) + [ProcRun(true)]
    {
      ghost var s := Here();
      sendCount, proc := sendCount - 1, DonePut;
      Record(s, ProcRun(true), me);
    }

    /** The loop returns the token: there is room for it and the channel is open. */
    method PutToken(ghost me: Mover)
      requires Valid() && proc.DonePut?
      modifies this`wait, this`proc, this`run, this`path
      ensures Valid() && Grew(me, []) && proc == Select
      ensures old(wait) == 0 && wait == 1 && !old(waitClosed)
      ensures run == old(run) + [ProcRun(true)]
    {
      ghost var s := Here();
      PathReaches(StepOf(cfg), Init(cfg), run, path);
      WriteProperties.TokenAlwaysFits(cfg, s);
      wait, proc := wait + 1, Select;
      Record(s, ProcRun(true), me);
    }

    /** go_tcp_send_done_h: never blocks. */
    method SendDone()
      requires Valid() && proc.DoneTest?
      modifies this
      ensures Valid() && Grew(TheLoop, []) && proc == Select && hist.lost == old(hist.lost)
    {
      DoneLookup(TheLoop);
      World();
      if proc.DoneCheck? {
        SendDoneCounted();
      }
    }

    method SendDoneCounted()
      requires Valid() && proc.DoneCheck?
      modifies this
      ensures Valid() && Grew(TheLoop, []) && proc == Select && hist.lost == old(hist.lost)
    {
      Uncount(TheLoop);
      World();
      if proc.DonePut? {
        PutToken(TheLoop);
      }
    }

    // -------------------------------------------------------------- the loop: the connection ends

    /** cs_tcp_raw_recv at the peer's end, or cs_tcp_raw_error: both go through cs_tcp_raw_close to go_tcp_close_h. */
    method CloseBack(peer: bool, ghost me: Mover)
      requires Valid() && proc == Select && es.live
      modifies this`proc, this`run, this`path
      ensures Valid() && Grew(me, Asked(me, OnClose(peer))) && proc == EndLookup(peer)
      ensures run == old(run) + [OnClose(peer)]
    {
      ghost var s := Here();
      proc := EndLookup(peer);
      Record(s, OnClose(peer), me);
    }

    /** The lookup and the delete of go_tcp_close_h. */
    method Unregister(ghost me: Mover)
      requires Valid() && proc.EndLookup?
      modifies this`registered, this`proc, this`run, this`path
      ensures Valid() && Grew(me, []) && (proc.EndLock? || proc.EndFree?)
      ensures run == old(run) + [ProcRun(true)]
    {
      ghost var s := Here();
      if registered {
        registered, proc := false, EndLock(proc.peer);
      } else {
        proc := EndFree(proc.peer);
      }
      Record(s, ProcRun(true), me);
    }

    /** close, called from the loop: the lock and the test. */
    method EndEnter(ghost conn: T.Conn)
      requires proc.EndTest? || (proc.EndLock? && lck == None)
      modifies this`lck, this`proc
      ensures Beside(conn) == ProcEffect(old(Beside(conn)), false)
    {
      var peer := proc.peer;
      if proc.EndLock? {
        lck, proc := Some(ByProc), EndTest(peer);
      } else {
        proc := if err then EndUnlock(peer) else EndErr(peer);
      }
    }

    /** The rest of close. */
    method EndLeave(ghost conn: T.Conn)
      requires proc.EndErr? || (proc.EndChan? && !waitClosed) || proc.EndUnlock?
      modifies this`lck, this`err, this`waitClosed, this`proc
      ensures Beside(conn) == ProcEffect(old(Beside(conn)), false)
    {
      var peer := proc.peer;
      if proc.EndErr? {
        err, proc := true, EndChan(peer);
      } else if proc.EndChan? {
        waitClosed, proc := true, EndUnlock(peer);
      } else {
        lck, proc := None, EndFree(peer);
      }
    }

    lemma EndNotYet()
      requires Valid()
      ensures proc.EndChan? ==> !waitClosed
    {
      PathReaches(StepOf(cfg), Init(cfg), run, path);
      ReachableInv(cfg, Here());
    }

    /** One statement of close, called from the loop. */
    method EndStep(ghost me: Mover)
      requires Valid() && (ProcHolds(proc) || (proc.EndLock? && lck == None))
      modifies this`lck, this`err, this`waitClosed, this`proc, this`run, this`path
      ensures Valid() && Grew(me, []) && EndsLeft(proc) < EndsLeft(old(proc)) && (ProcHolds(proc) || proc.EndFree?)
      ensures run == old(run) + [ProcRun(true)]
    {
      ghost var s := Here();
      if proc.EndTest? || proc.EndLock? {
        EndEnter(s.core.conn);
      } else {
        EndNotYet();
        EndLeave(s.core.conn);
      }
      EndRecord(s, me);
    }

    ghost method EndRecord(s: State, me: Mover)
      requires Sound() && path[|run|] == s && InClose(s.core)
      requires Beside(s.core.conn) == ProcEffect(s.core, false) && go == s.go && es.Abs() == s.core.conn
      modifies this`run, this`path
      ensures Valid() && Grew(me, []) && run == old(run) + [ProcRun(true)]
      ensures EndsLeft(proc) < EndsLeft(s.core.proc) && (ProcHolds(proc) || proc.EndFree?)
    {
      EndIsStep(cfg, s);
      Record(s, ProcRun(true), me);
    }

    /** Back in cs_tcp_raw_close: the state and its chain are freed. */
    method Free(ghost me: Mover)
      requires Valid() && proc.EndFree?
      modifies this`proc, this`hist, this`run, this`path, es, es.pcb, es.all
      ensures Valid() && Grew(me, []) && proc == Select && fresh(es.all - old(es.all)) && !es.live
      ensures hist.lost == old(hist.lost) && run == old(run) + [ProcRun(true)]
    {
      ghost var s := Here();
      PathReaches(StepOf(cfg), Init(cfg), run, path);
      var fed := if proc.peer then T.EndCallback else T.ErrorCallback;
      FreeEnds(cfg, s, fed);
      es.Deliver(fed);
      ReturnStep(cfg, s, ProcRun(true), fed, Select, es.Abs());
      Returned(s, ProcRun(true), fed, Select, true, me);
    }

    /** The rest of close, up to its Unlock. */
    method EndClose()
      requires Valid() && proc.EndLock? && lck == None
      modifies this
      ensures Valid() && Grew(TheLoop, []) && proc.EndFree? && hist.lost == old(hist.lost)
    {
      EndStep(TheLoop);
      while !proc.EndFree?
        invariant Valid() && Grew(TheLoop, []) && hist.lost == old(hist.lost) && (ProcHolds(proc) || proc.EndFree?)
        decreases EndsLeft(proc)
      {
        EndTurn();
      }
    }

    method EndTurn()
      requires Valid() && ProcHolds(proc)
      modifies this
      ensures Valid() && Grew(TheLoop, []) && hist.lost == old(hist.lost)
      ensures EndsLeft(proc) < EndsLeft(old(proc)) && (ProcHolds(proc) || proc.EndFree?)
    {
      World();
      EndStep(TheLoop);
    }

    /** The loop waits at the lock of close, until that is free or the goroutines have come to the end of their plan. */
    method EndAwait()
      requires Valid() && proc.EndLock?
      modifies this
      ensures Valid() && Grew(TheLoop, []) && proc == old(proc) && hist.lost == old(hist.lost)
      ensures lck == None || LoopStuck()
    {
      while lck != None && ticks < horizon
        invariant Valid() && Grew(TheLoop, []) && proc == old(proc) && hist.lost == old(hist.lost)
        decreases horizon - ticks
      {
        World();
      }
    }

    /** The loop cannot go on, and the goroutines have done all they had planned: the lock of close is held. */
    predicate LoopStuck()
      reads this
    {
      proc.EndLock? && lck != None && ticks >= horizon
    }

    /** The connection ends, unless the loop blocks at the lock of close, which a waiting Write holds. */
    method End(peer: bool)
      requires Valid() && proc == Select && es.live
      modifies this, es, es.pcb, es.all
      ensures Valid() && Grew(TheLoop, [OnClose(peer)]) && fresh(es.all - old(es.all)) && hist.lost == old(hist.lost)
      ensures (proc == Select && !es.live) || LoopStuck()
    {
      EndBegin(peer);
      if proc.EndLock? {
        EndLocked();
      }
      if proc.EndFree? {
        World();
        Free(TheLoop);
      }
    }

    /** close, called from the loop, unless its lock stays held. */
    method EndLocked()
      requires Valid() && proc.EndLock?
      modifies this
      ensures Valid() && Grew(TheLoop, []) && hist.lost == old(hist.lost) && (proc.EndFree? || LoopStuck())
    {
      EndAwait();
      if lck == None {
        EndClose();
      }
    }

    method EndBegin(peer: bool)
      requires Valid() && proc == Select && es.live
      modifies this
      ensures Valid() && Grew(TheLoop, [OnClose(peer)]) && hist.lost == old(hist.lost)
      ensures proc.EndLock? || proc.EndFree?
    {
      CloseBack(peer, TheLoop);
      World();
      Unregister(TheLoop);
      World();
    }

    // -------------------------------------------------------------- go_netif_proc

    method Serve(i: Input)
      requires Valid() && proc == Select && Available(i)
      modifies this, es, es.pcb, es.all
      ensures Valid() && Grew(TheLoop, [AsEvent(i)]) && fresh(es.all - old(es.all))
      ensures proc == Select || LoopStuck()
      ensures hist.lost ==> old(hist.lost) || i == FromQueue(false)
    {
      match i {
        case FromQueue(alloc) =>
          ServeQueue(alloc);
        case SentBack(room) =>
          SentBack(room, TheLoop);
          if proc.DoneTest? {
            World();
            SendDone();
          }
        case PollBack(room) =>
          PollBack(room, TheLoop);
        case DataBack =>
          DataBack(TheLoop);
        case CloseBack(peer) =>
          End(peer);
      }
    }

    method ServeQueue(alloc: bool)
      requires Valid() && proc == Select && sendQueue != []
      modifies this, es, es.pcb, es.all
      ensures Valid() && Grew(TheLoop, [ProcTake]) && fresh(es.all - old(es.all)) && proc == Select
      ensures hist.lost ==> old(hist.lost) || !alloc
    {
      Take(TheLoop);
      World();
      if proc.SendTest? {
        Send(alloc);
      }
    }

    /** lwIP has bytes whose acknowledgement it has not reported. */
    predicate Unacked()
      reads this, es, es.pcb
    {
      T.Acks(hist.events) < |es.pcb.sent|
    }

    predicate Available(i: Input)
      reads this, es, es.pcb
    {
      (if i.FromQueue? then sendQueue != [] else es.live) && (i.SentBack? ==> Unacked())
    }

    /**
     The loop serves the inputs in turn, k of them: all it does, interleaved with the goroutines, is a run of the
     transition system.  It stops early only when the next input is not there, or at the lock of close.  Unless memory
     for pbufs ran out, lwIP has been given the Writes that received a token, in lock order, and a prefix of the one
     that waits.
     */
    method NetifProc(inputs: seq<Input>) returns (k: nat)
      requires Valid() && proc == Select
      modifies this, es, es.pcb, es.all
      ensures Valid() && k <= |inputs| && RunsTo(StepOf(cfg), Init(cfg), run, Abs())
      ensures Grew(TheLoop, AsEvents(inputs[..k]))
      ensures proc == Select || LoopStuck()
      ensures k < |inputs| ==> LoopStuck() || !Available(inputs[k])
      ensures hist.lost ==> old(hist.lost) || FromQueue(false) in inputs[..k]
      ensures !hist.panicked && hist.served <= hist.locked
      ensures !hist.lost ==>
                (exists n: nat :: n <= |WriteProperties.Current(Abs())| &&
                                  es.pcb.sent == Bodies(hist.served) + WriteProperties.Current(Abs())[..n])
    {
      k := Loop(inputs);
      PathReaches(StepOf(cfg), Init(cfg), run, path);
      StreamSoFar(cfg, Here());
    }

    method Loop(inputs: seq<Input>) returns (k: nat)
      requires Valid() && proc == Select
      modifies this, es, es.pcb, es.all
      ensures Valid() && k <= |inputs| && Grew(TheLoop, AsEvents(inputs[..k]))
      ensures proc == Select || LoopStuck()
      ensures k < |inputs| ==> LoopStuck() || !Available(inputs[k])
      ensures hist.lost ==> old(hist.lost) || FromQueue(false) in inputs[..k]
    {
      k := 0;
      World();
      while k < |inputs| && proc == Select && Available(inputs[k])
        invariant k <= |inputs| && Valid() && fresh(es.all - old(es.all)) && Grew(TheLoop, AsEvents(inputs[..k]))
        invariant proc == Select || LoopStuck()
        invariant hist.lost ==> old(hist.lost) || FromQueue(false) in inputs[..k]
      {
        AsEventsGrows(inputs, k);
        ServeNext(inputs[k]);
        k := k + 1;
      }
    }

    method ServeNext(i: Input)
      requires Valid() && proc == Select && Available(i)
      modifies this, es, es.pcb, es.all
      ensures Valid() && Grew(TheLoop, [AsEvent(i)]) && fresh(es.all - old(es.all))
      ensures proc == Select || LoopStuck()
      ensures hist.lost ==> old(hist.lost) || i == FromQueue(false)
    {
      Serve(i);
      if proc == Select {
        World();
      }
    }

    // -------------------------------------------------------------- everybody but one goroutine

    /** The loop can execute a statement, or lwIP or a channel set it going, by e. */
    predicate CanLoop(e: Event)
      reads this, es, es.pcb
    {
      match e
      case ProcTake => proc == Select && sendQueue != []
      case ProcRun(alloc) =>
        && proc != Select && !(proc.EndLock? && lck != None) && !(proc.DonePut? && wait >= 1 && !waitClosed)
        && (alloc || proc.SendCall?)
      case OnSent(_) => proc == Select && es.live && Unacked()
      case OnPoll(_) => proc == Select && es.live
      case OnData => proc == Select && es.live
      case OnClose(_) => proc == Select && es.live
      case _ => false
    }

    method LoopStep(e: Event, t: Tid)
      requires Valid() && CanLoop(e)
      modifies this, es, es.pcb, es.all
      ensures Valid() && Grew(Goroutine(t), []) && go == old(go) && fresh(es.all - old(es.all))
      ensures run == old(run) + [e] && ticks == old(ticks) && marks == old(marks)
    {
      match e {
        case ProcTake => Take(Goroutine(t));
        case OnSent(room) => SentBack(room, Goroutine(t));
        case OnPoll(room) => PollBack(room, Goroutine(t));
        case OnData => DataBack(Goroutine(t));
        case OnClose(peer) => CloseBack(peer, Goroutine(t));
        case ProcRun(alloc) => LoopStatement(alloc, t);
      }
    }

    /** The statement the loop is at. */
    method LoopStatement(alloc: bool, t: Tid)
      requires Valid() && CanLoop(ProcRun(alloc))
      modifies this, es, es.pcb, es.all
      ensures Valid() && Grew(Goroutine(t), []) && go == old(go) && fresh(es.all - old(es.all))
      ensures run == old(run) + [ProcRun(alloc)] && ticks == old(ticks) && marks == old(marks)
    {
      if ProcHolds(proc) || proc.EndLock? {
        EndStep(Goroutine(t));
      } else if proc.EndLookup? {
        Unregister(Goroutine(t));
      } else if proc.EndFree? {
        Free(Goroutine(t));
      } else {
        EntryStatement(alloc, t);
      }
    }

    method EntryStatement(alloc: bool, t: Tid)
      requires Valid() && CanLoop(ProcRun(alloc)) && !Ending(proc)
      modifies this, es, es.pcb, es.all
      ensures Valid() && Grew(Goroutine(t), []) && go == old(go) && fresh(es.all - old(es.all))
      ensures run == old(run) + [ProcRun(alloc)] && ticks == old(ticks) && marks == old(marks)
    {
      match proc {
        case SendTest(_) => Test(Goroutine(t));
        case SendCount(_) => Count(Goroutine(t));
        case SendCall(_) => TcpSend(alloc, Goroutine(t));
        case DoneTest => DoneLookup(Goroutine(t));
        case DoneCheck => Uncount(Goroutine(t));
        case DonePut => PutToken(Goroutine(t));
      }
    }

    /** Time passes for goroutine t: the loop, lwIP and the other goroutines follow the plan. */
    method Everybody(t: Tid)
      requires Valid()
      modifies this, es, es.pcb, es.all
      ensures Valid() && Grew(Goroutine(t), []) && Doing(t) == old(Doing(t)) && fresh(es.all - old(es.all))
      ensures ticks == old(ticks) + 1
    {
      ghost var from := |run|;
      FollowAll(t);
      ObeysTick(OthersOf(cfg), NextOf(cfg), UpTo(plan, horizon), run, path, marks, Goroutine(t), from);
      Tock(Goroutine(t), from);
    }

    /** Goroutine t waits where it is, until it can go on or the others have come to the end of their plan. */
    method Await(t: Tid)
      requires Valid() && Doing(t) != Idle
      modifies this, es, es.pcb, es.all
      ensures Valid() && Grew(Goroutine(t), []) && Doing(t) == old(Doing(t)) && fresh(es.all - old(es.all))
      ensures CanGo(t) || ticks >= horizon
    {
      Everybody(t);
      while !CanGo(t) && ticks < horizon
        invariant Valid() && Grew(Goroutine(t), []) && Doing(t) == old(Doing(t)) && fresh(es.all - old(es.all))
        decreases horizon - ticks
      {
        Everybody(t);
      }
    }

    method FollowAll(t: Tid)
      requires Valid()
      modifies this, es, es.pcb, es.all
      ensures Valid() && Grew(Goroutine(t), []) && Doing(t) == old(Doing(t)) && fresh(es.all - old(es.all))
      ensures ticks == old(ticks) && marks == old(marks)
      ensures run == old(run) +
                     Heeded(MayOf(cfg, Goroutine(t)), NextOf(cfg), old(path[|run|]), UpTo(plan, horizon)(ticks))
    {
      ghost var s := path[|run|];
      var schedule := UpTo(plan, horizon)(ticks);
      var i := 0;
      while i < |schedule|
        invariant 0 <= i <= |schedule| && ticks == old(ticks) && marks == old(marks)
        invariant Valid() && Grew(Goroutine(t), []) && Doing(t) == old(Doing(t)) && fresh(es.all - old(es.all))
        invariant path[|run|] == After(MayOf(cfg, Goroutine(t)), NextOf(cfg), s, schedule[..i])
        invariant run == old(run) + Heeded(MayOf(cfg, Goroutine(t)), NextOf(cfg), s, schedule[..i])
      {
        OneMore(MayOf(cfg, Goroutine(t)), NextOf(cfg), s, schedule, i);
        HeedAll(t, schedule[i]);
        i := i + 1;
      }
      assert schedule[..i] == schedule;
    }

    method HeedAll(t: Tid, e: Event)
      requires Valid()
      modifies this, es, es.pcb, es.all
      ensures Valid() && Grew(Goroutine(t), []) && Doing(t) == old(Doing(t)) && fresh(es.all - old(es.all))
      ensures ticks == old(ticks) && marks == old(marks)
      ensures if MayOf(cfg, Goroutine(t))(old(path[|run|]), e)
              then path[|run|] == NextOf(cfg)(old(path[|run|]), e) && run == old(run) + [e]
              else path[|run|] == old(path[|run|]) && run == old(run)
    {
      ghost var s := path[|run|];
      MayIs(Goroutine(t), e);
      if CanLoop(e) {
        LoopStep(e, t);
        LedTo(s, e);
      } else if CanOutside(e) && Elsewhere(Goroutine(t), e) {
        Outside(e, Goroutine(t));
        LedTo(s, e);
      }
    }

    // -------------------------------------------------------------- PCB.Write and PCB.Close

    /**
     PCB.Write, while everybody else moves between its statements.  One call; at: where it tests whether the PCB is
     closed, and if it is, Write fails.  nil means that its token came, so that its buffer is in the stream; an error
     means that the PCB is closed; the lock is given back.  It is stuck only if the others have come to the end of their
     plan, and then at the lock, at a full queue, or waiting under the lock for its token.
     */
    method Write(t: Tid, b: Bytes) returns (r: Outcome, ghost at: nat)
      requires Valid() && Doing(t) == Idle && t in cfg.writers && |b| <= cfg.longest
      modifies this, es, es.pcb, es.all
      ensures Valid() && fresh(es.all - old(es.all))
      ensures b == [] ==> r == Done(0, true) && run == old(run)
      ensures b != [] ==> Grew(Goroutine(t), [CallWrite(t, b)]) && Wrote(t, WriteProtocol.Write(old(hist.next), b), r)
      ensures b != [] ==> |old(run)| < at && WroteAt(t, WriteProtocol.Write(old(hist.next), b), r, at)
    {
      at := 0;
      if b == [] {
        return Done(0, true), at;
      }
      CallsWrite(t, b, Goroutine(t));
      Everybody(t);
      at := |run|;
      r := WriteSome(t, WriteProtocol.Write(Doing(t).w.id, b));
    }

    /** What a call of Write with the data of w has led to. */
    predicate Wrote(t: Tid, w: Write, r: Outcome)
      reads this
    {
      match r
      case Done(l, failing) =>
        && Doing(t) == Idle && lck != Some(ByGo(t)) && l == |w.b|
        && failing == err && (if failing then w in hist.failed else w in hist.served && w in hist.nilReturned)
      case Stuck => StuckWriting(t, w)
    }

    /** In the state path[at] Write made its test. */
    ghost predicate WroteAt(t: Tid, w: Write, r: Outcome, at: nat)
      reads this
    {
      at < |path| && At(path[at], t) == WriteTest(w) && (path[at].core.err ==> r == Done(|w.b|, true))
    }

    /** From the test of p.err on. */
    method WriteSome(t: Tid, w: Write) returns (r: Outcome)
      requires Valid() && Doing(t) == WriteTest(w)
      modifies this, es, es.pcb, es.all
      ensures Valid() && fresh(es.all - old(es.all)) && Grew(Goroutine(t), []) && Wrote(t, w, r)
      ensures WroteAt(t, w, r, |old(run)|)
    {
      assert IsHere(|run|);
      ghost var at := |run|;
      ghost var closed := err;
      TestErr(t, w, Goroutine(t));
      r := WriteTested(t, w);
      if closed {
        ErrStays(at);
      }
    }

    method WriteTested(t: Tid, w: Write) returns (r: Outcome)
      requires Valid() && (Doing(t) == WriteLock(w) || Doing(t) == WriteReturn(w))
      modifies this, es, es.pcb, es.all
      ensures Valid() && fresh(es.all - old(es.all)) && Grew(Goroutine(t), []) && Wrote(t, w, r)
      ensures old(Doing(t)) == WriteReturn(w) ==> r.Done?
    {
      if Doing(t).WriteLock? {
        var out := WriteLocked(t, w);
        if !out {
          return Stuck;
        }
      }
      Everybody(t);
      r := FinishWrite(t, w);
    }

    /** A closed PCB stays closed. */
    lemma ErrStays(at: nat)
      requires Valid() && at <= |run| && path[at].core.err
      ensures err
    {
      assert IsHere(|run|);
      StaysClosed(cfg, run, path, at, |run|);
    }

    /** The part of Write under the lock; false: stuck in it. */
    method WriteLocked(t: Tid, w: Write) returns (out: bool)
      requires Valid() && Doing(t) == WriteLock(w)
      modifies this, es, es.pcb, es.all
      ensures Valid() && Grew(Goroutine(t), []) && fresh(es.all - old(es.all))
      ensures if out then Doing(t) == WriteReturn(w) else StuckWriting(t, w)
    {
      out := EnterWrite(t, w);
      if out {
        out := PutEntry(t, w);
      }
    }

    /** Up to the lock. */
    method EnterWrite(t: Tid, w: Write) returns (out: bool)
      requires Valid() && Doing(t) == WriteLock(w)
      modifies this, es, es.pcb, es.all
      ensures Valid() && Grew(Goroutine(t), []) && fresh(es.all - old(es.all))
      ensures if out then Doing(t) == WritePut(w) else StuckWriting(t, w)
    {
      Await(t);
      if lck != None {
        return false;
      }
      LockWrite(t, w, Goroutine(t));
      out := true;
    }

    /** From the queue put on. */
    method PutEntry(t: Tid, w: Write) returns (out: bool)
      requires Valid() && Doing(t) == WritePut(w)
      modifies this, es, es.pcb, es.all
      ensures Valid() && Grew(Goroutine(t), []) && fresh(es.all - old(es.all))
      ensures if out then Doing(t) == WriteReturn(w) else StuckWriting(t, w)
    {
      Await(t);
      if |sendQueue| >= QUEUE_CAPACITY {
        HolderHolds(t);
        return false;
      }
      Enqueue(t, w, Goroutine(t));
      out := AwaitToken(t, w);
    }

    /** From the wait for the token on. */
    method AwaitToken(t: Tid, w: Write) returns (out: bool)
      requires Valid() && Doing(t) == WriteWait(w)
      modifies this, es, es.pcb, es.all
      ensures Valid() && Grew(Goroutine(t), []) && fresh(es.all - old(es.all))
      ensures if out then Doing(t) == WriteReturn(w) else StuckWriting(t, w)
    {
      Await(t);
      if wait == 0 && !waitClosed {
        HolderHolds(t);
        return false;
      }
      out := TakeToken(t, w);
    }

    method TakeToken(t: Tid, w: Write) returns (out: bool)
      requires Valid() && Doing(t) == WriteWait(w) && (wait > 0 || waitClosed)
      modifies this, es, es.pcb, es.all
      ensures Valid() && Grew(Goroutine(t), []) && fresh(es.all - old(es.all))
      ensures out && Doing(t) == WriteReturn(w)
    {
      Receive(t, w, Goroutine(t));
      Everybody(t);
      UnlockWrite(t, w, Goroutine(t));
      out := true;
    }

    /** The end of Write: nil, and then the token had come. */
    method FinishWrite(t: Tid, w: Write) returns (r: Outcome)
      requires Valid() && Doing(t) == WriteReturn(w)
      modifies this`hist, this`go, this`run, this`path
      ensures Valid() && Grew(Goroutine(t), [])
      ensures Wrote(t, w, r) && r.Done?
    {
      ReturnErr(t, w, Goroutine(t));
      WriterIsOut(t);
      NilIsServed(w);
      r := Done(|w.b|, err);
    }

    /** What the invariant says of the lock and of one goroutine. */
    lemma HolderHolds(t: Tid)
      requires Valid() && GoHolds(Doing(t))
      ensures lck == Some(ByGo(t))
    {
      PathReaches(StepOf(cfg), Init(cfg), run, path);
      ReachableInv(cfg, Here());
      assert GoHolds(At(Abs(), t));
    }

    lemma WriterIsOut(t: Tid)
      requires Valid() && !GoHolds(Doing(t))
      ensures lck != Some(ByGo(t))
    {
      PathReaches(StepOf(cfg), Init(cfg), run, path);
      ReachableInv(cfg, Here());
      assert !GoHolds(At(Abs(), t));
    }

    lemma NilIsServed(w: Write)
      requires Valid()
      ensures w in hist.nilReturned ==> w in hist.served
    {
      PathReaches(StepOf(cfg), Init(cfg), run, path);
      WriteProperties.NilMeansSent(cfg, Here());
    }

    /**
     PCB.Close as far as close goes.  One call; at: where it makes its test.  It returns an error exactly if the PCB was
     closed before that; in either case it is closed when the call is over, and the lock is given back.  It is stuck
     only if the others have come to the end of their plan and left the lock held.
     */
    method Close(t: Tid) returns (r: Outcome, ghost at: nat)
      requires Valid() && Doing(t) == Idle
      modifies this, es, es.pcb, es.all
      ensures Valid() && fresh(es.all - old(es.all)) && Grew(Goroutine(t), [CallClose(t)])
      ensures r.Stuck? ==> Doing(t) == CloseLock && lck != None && ticks >= horizon
      ensures r.Done? ==> Doing(t) == Idle && lck == None && err && waitClosed
      ensures r.Done? ==> |old(run)| < at && ClosedAt(t, r, at)
    {
      r := EnterClose(t);
      at := 0;
      if r.Done? {
        r, at := CloseLocked(t);
      }
    }

    /** Up to the lock. */
    method EnterClose(t: Tid) returns (r: Outcome)
      requires Valid() && Doing(t) == Idle
      modifies this, es, es.pcb, es.all
      ensures Valid() && fresh(es.all - old(es.all)) && Grew(Goroutine(t), [CallClose(t)]) && |old(run)| < |run|
      ensures if r.Done? then Doing(t) == CloseTest else Doing(t) == CloseLock && lck != None && ticks >= horizon
    {
      CallsClose(t, Goroutine(t));
      Await(t);
      if lck != None {
        return Stuck;
      }
      LockClose(t, Goroutine(t));
      r := Done(0, false);
    }

    /** In the state path[at] close made its test, and so found whether the PCB had been closed. */
    ghost predicate ClosedAt(t: Tid, r: Outcome, at: nat)
      reads this
    {
      at < |path| && At(path[at], t) == CloseTest && r == Done(0, path[at].core.err)
    }

    /** close under its lock: the error is set before the channel is closed, and neither is done twice. */
    method CloseLocked(t: Tid) returns (r: Outcome, ghost at: nat)
      requires Valid() && Doing(t) == CloseTest
      modifies this, es, es.pcb, es.all
      ensures Valid() && fresh(es.all - old(es.all)) && Grew(Goroutine(t), [])
      ensures r.Done? && Doing(t) == Idle && lck == None && err && waitClosed
      ensures |old(run)| <= at && ClosedAt(t, r, at)
    {
      Everybody(t);
      at := |run|;
      r := MakeTest(t);
      CloseTested(t);
    }

    method CloseTested(t: Tid)
      requires Valid() && (Doing(t) == CloseUnlock || Doing(t) == CloseErr)
      modifies this, es, es.pcb, es.all
      ensures Valid() && fresh(es.all - old(es.all)) && Grew(Goroutine(t), [])
      ensures Doing(t) == Idle && lck == None && err && waitClosed
    {
      Everybody(t);
      if Doing(t) == CloseErr {
        CloseOnce(t);
      }
      LeaveClose(t);
    }

    method MakeTest(t: Tid) returns (r: Outcome)
      requires Valid() && Doing(t) == CloseTest
      modifies this`go, this`run, this`path
      ensures Valid() && Grew(Goroutine(t), []) && (Doing(t) == CloseUnlock || Doing(t) == CloseErr)
      ensures ClosedAt(t, r, |old(run)|) && r.Done?
    {
      assert IsHere(|run|);
      r := Done(0, err);
      TestClosed(t, Goroutine(t));
    }

    method CloseOnce(t: Tid)
      requires Valid() && Doing(t) == CloseErr
      modifies this, es, es.pcb, es.all
      ensures Valid() && fresh(es.all - old(es.all)) && Grew(Goroutine(t), []) && Doing(t) == CloseUnlock
    {
      SetErr(t, Goroutine(t));
      Everybody(t);
      NotClosedYet(t);
      CloseWait(t, Goroutine(t));
      Everybody(t);
    }

    method LeaveClose(t: Tid)
      requires Valid() && Doing(t) == CloseUnlock
      modifies this`lck, this`go, this`run, this`path
      ensures Valid() && Grew(Goroutine(t), []) && Doing(t) == Idle && lck == None && err && waitClosed
    {
      ClosedByNow(t);
      UnlockClose(t, Goroutine(t));
    }

    lemma ClosedByNow(t: Tid)
      requires Valid() && Doing(t) == CloseUnlock
      ensures err && waitClosed
    {
      PathReaches(StepOf(cfg), Init(cfg), run, path);
      ReachableInv(cfg, Here());
      assert GoHolds(At(Abs(), t));
    }

    /** The goroutine cannot go on, the others have done all they had planned, and this is where. */
    predicate StuckWriting(t: Tid, w: Write)
      reads this
    {
      ticks >= horizon &&
      ((Doing(t) == WriteLock(w) && lck != None)
       || (Doing(t) == WritePut(w) && |sendQueue| >= QUEUE_CAPACITY && lck == Some(ByGo(t)))
       || (Doing(t) == WriteWait(w) && wait == 0 && !waitClosed && lck == Some(ByGo(t))))
    }
  }

  lemma {:induction false} StaysClosed(cfg: Config, run: seq<Event>, path: seq<State>, i: nat, k: nat)
    requires IsPath(StepOf(cfg), Init(cfg), run, path) && i <= k <= |run| && path[i].core.err
    ensures path[k].core.err
    decreases k - i
  {
    if i < k {
      assert StepAt(StepOf(cfg), run, path, i);
      WriteProperties.StepStaysClosed(cfg, path[i], run[i]);
      StaysClosed(cfg, run, path, i + 1, k);
    }
  }

  /** WriteProperties at the end of a run. */
  lemma StreamSoFar(cfg: Config, s: State)
    requires Reachable(cfg, s)
    ensures !s.core.panicked && s.core.served <= s.core.locked
    ensures !s.core.lost ==> exists k: nat :: k <= |WriteProperties.Current(s)| &&
                               s.core.conn.sent == Bodies(s.core.served) + WriteProperties.Current(s)[..k]
  {
    ReachableInv(cfg, s);
    if !s.core.lost {
      var k := WriteProperties.StreamIsWritesInLockOrder(cfg, s);
    }
  }

  /** In close, or at its lock, which is free. */
  predicate InClose(c: Core) {
    ProcHolds(c.proc) || (c.proc.EndLock? && c.lock == None)
  }

  lemma EndCountsDown(c: Core)
    requires InClose(c)
    ensures var p := ProcEffect(c, false).proc; EndsLeft(p) < EndsLeft(c.proc) && (ProcHolds(p) || p.EndFree?)
  {
    match c.proc
    case EndLock(_) =>
    case EndTest(_) =>
    case EndErr(_) =>
    case EndChan(_) =>
    case EndUnlock(_) =>
  }

  lemma EndSparesConn(c: Core)
    requires InClose(c)
    ensures var c' := ProcEffect(c, false); c'.conn == c.conn && c'.events == c.events
  {
    match c.proc
    case EndLock(_) =>
    case EndTest(_) =>
    case EndErr(_) =>
    case EndChan(_) =>
    case EndUnlock(_) =>
  }

  lemma EndIsStep(cfg: Config, s: State)
    requires InClose(s.core)
    ensures Enabled(cfg, s, ProcRun(true))
    ensures WriteProtocol.Next(cfg, s, ProcRun(true)) == s.(core := ProcEffect(s.core, false))
    ensures var p := ProcEffect(s.core, false).proc; EndsLeft(p) < EndsLeft(s.core.proc) && (ProcHolds(p) || p.EndFree?)
  {
    EndCountsDown(s.core);
    EndSparesConn(s.core);
  }

  /** The loop frees the state only once. */
  lemma FreeEnds(cfg: Config, s: State, fed: T.Event)
    requires Reachable(cfg, s) && s.core.proc.EndFree?
    requires fed == if s.core.proc.peer then T.EndCallback else T.ErrorCallback
    ensures s.core.conn.live && !T.Step(s.core.conn, cfg.answers, fed).live
  {
    ReachableInv(cfg, s);
  }

  /** How many statements of close the loop has before it. */
  function EndsLeft(p: Proc): nat {
    match p
    case EndLock(_) => 5
    case EndTest(_) => 4
    case EndErr(_) => 3
    case EndChan(_) => 2
    case EndUnlock(_) => 1
    case _ => 0
  }

  function AfterReturn(s: State, conn: T.Conn, fed: T.Event, p: Proc, alloc: bool): State {
    s.(core := s.core.(proc := p, conn := conn, events := s.core.events + [fed], lost := s.core.lost || !alloc))
  }

  /** A callback, or the end of close, as the transition system sees it. */
  lemma ReturnStep(cfg: Config, s: State, e: Event, fed: T.Event, p: Proc, conn: T.Conn)
    requires LoopEvent(s.core, e) && !Sends(s.core, e) && Fed(s.core, e) == Some(fed)
    requires conn == T.Step(s.core.conn, cfg.answers, fed) && Shell(s.core, e, false) == s.core.(proc := p)
    ensures IsPath(StepOf(cfg), s, [e], [s, AfterReturn(s, conn, fed, p, true)])
  {
    OneStep(StepOf(cfg), s, e, AfterReturn(s, conn, fed, p, true));
  }

  /** What tcpSend makes of the state it is reached in: the connection is there and nothing is pending. */
  lemma SendStep(cfg: Config, run: seq<Event>, path: seq<State>, alloc: bool, conn: T.Conn, r: int)
    requires IsPath(StepOf(cfg), Init(cfg), run, path) && path[|run|].core.proc.SendCall?
    requires var c := path[|run|].core; (conn, r) == T.CharSend(c.conn, cfg.answers, c.proc.w.b, alloc)
    ensures var s := path[|run|];
            && r == (if alloc then 0 else 1)
            && IsPath(StepOf(cfg), s, [ProcRun(alloc)],
                      [s, AfterReturn(s, conn, T.AppSend(s.core.proc.w.b, alloc), Select, alloc)])
  {
    var s := path[|run|];
    PathReaches(StepOf(cfg), Init(cfg), run, path);
    SendIs(cfg, s, alloc, conn, r);
    OneStep(StepOf(cfg), s, ProcRun(alloc), AfterReturn(s, conn, T.AppSend(s.core.proc.w.b, alloc), Select, alloc));
  }

  lemma SendIs(cfg: Config, s: State, alloc: bool, conn: T.Conn, r: int)
    requires Reachable(cfg, s) && s.core.proc.SendCall?
    requires (conn, r) == T.CharSend(s.core.conn, cfg.answers, s.core.proc.w.b, alloc)
    ensures Enabled(cfg, s, ProcRun(alloc)) && r == if alloc then 0 else 1
    ensures WriteProtocol.Next(cfg, s, ProcRun(alloc)) ==
            AfterReturn(s, conn, T.AppSend(s.core.proc.w.b, alloc), Select, alloc)
  {
    WriteProperties.BusyIsUnreachable(cfg, s);
  }
}
