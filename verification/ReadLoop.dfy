/**
 The receive side of lwipcs.go as the object that Read, the loop and the closing goroutines update in place.  Between
 two statements of a method the others execute statements of theirs, as a plan says; the object carries its run, and
 every method is proved to extend it to another run of ReadCredit.
 */
module ReadLoop {
  import opened Common
  import opened ReadCredit
  import opened Paths

  predicate OfReader(e: Event) {
    e.CallRead? || e.ReaderRun?
  }

  predicate OfLoop(e: Event) {
    e.Deliver? || e.EndBack? || e.ProcTake? || e.ProcRun?
  }

  /** The calls of Read (reading), or what sets the loop going. */
  function Asks(reading: bool): Event -> bool {
    (e: Event) => if reading then e.CallRead? else e.Deliver? || e.EndBack? || e.ProcTake?
  }

  function Asked(reading: bool, e: Event): seq<Event> {
    if Asks(reading)(e) then [e] else []
  }

  predicate SameReader(s: State, s': State) {
    s'.reader == s.reader && s'.read == s.read && s'.outcomes == s.outcomes
  }

  predicate SameLoop(s: State, s': State) {
    s'.proc == s.proc && s'.delivered == s.delivered && s'.credited == s.credited && s'.live == s.live
  }

  /** A thread's own state changes only by its own steps. */
  lemma OthersLeave(cfg: Config, s: State, e: Event)
    requires Enabled(cfg, s, e)
    ensures !OfReader(e) ==> SameReader(s, Next(cfg, s, e))
    ensures !OfLoop(e) ==> SameLoop(s, Next(cfg, s, e))
  {
  }

  lemma DataFits(cfg: Config, run: seq<Event>, path: seq<State>)
    requires cfg.Ok() && IsPath(StepOf(cfg), Init(), run, path) && path[|run|].reader.ReadCheck?
    ensures 1 <= |path[|run|].reader.data| < U16
  {
    PathReaches(StepOf(cfg), Init(), run, path);
    ReachableInv(cfg, path[|run|]);
  }

  /** A step of the others that may happen.  reading: the others than Read, or else than the loop. */
  function MayOf(cfg: Config, reading: bool): (State, Event) -> bool {
    (s: State, e: Event) => Enabled(cfg, s, e) && !(if reading then OfReader(e) else OfLoop(e))
  }

  function OthersOf(cfg: Config): bool -> (State, Event) -> bool {
    (reading: bool) => MayOf(cfg, reading)
  }

  function NextOf(cfg: Config): (State, Event) -> State {
    (s: State, e: Event) => if Enabled(cfg, s, e) then Next(cfg, s, e) else s
  }

  /** Done: Read returned; Blocked: at a channel; Panicked: the process is gone. */
  datatype Result = Done(l: nat, failed: bool) | Blocked | Panicked

  /** What a piece of the loop comes to: it returns, it blocks, or the process is gone. */
  datatype Answer = Returned(code: int) | Stuck | Gone

  class Receiver {
    var err: bool
    var recvClosed: bool
    var lck: Option<Holder>
    var live: bool
    var recvQueued: seq<Bytes>
    var recvedQueue: seq<Option<nat>>
    var reader: Reader
    var proc: Proc
    var delivered: Bytes
    var read: Bytes
    var credited: nat
    var dropped: nat
    var outcomes: seq<Outcome>
    var crashed: bool
    const cfg: Config
    ghost var run: seq<Event>
    ghost var path: seq<State>
    ghost var marks: seq<Tick<bool>>
    // plan(n): what the others do at the n-th tick, before the horizon.
    const plan: nat -> seq<Event>
    const horizon: nat
    var ticks: nat

    function Abs(): State
      reads this
    {
      State(err, recvClosed, lck, live, recvQueued, recvedQueue, reader, proc, delivered, read, credited, dropped,
            outcomes, crashed)
    }

    /** At every tick so far the others have followed the plan. */
    ghost predicate Heedful()
      reads this
    {
      |marks| == ticks && Obeys(OthersOf(cfg), NextOf(cfg), UpTo(plan, horizon), run, path, marks)
    }

    /** The object is where its run leads. */
    ghost predicate Valid()
      reads this
    {
      cfg.Ok() && IsPath(StepOf(cfg), Init(), run, path) && Heedful() && path[|run|] == Abs()
    }

    /** The run has grown, and meanwhile these were asked for. */
    twostate predicate Grew(reading: bool, asked: seq<Event>)
      reads this
    {
      Goes(Asks(reading), old(run), run, asked) && old(path) <= path && old(ticks) <= ticks
    }

    constructor (cfg: Config, plan: nat -> seq<Event>, horizon: nat)
      requires cfg.Ok()
      ensures Valid() && run == [] && this.cfg == cfg && Abs() == Init()
      ensures this.plan == plan && this.horizon == horizon && ticks == 0
    {
      this.cfg, this.plan, this.horizon, ticks, run, path, marks := cfg, plan, horizon, 0, [], [Init()], [];
      err, recvClosed, lck, live, recvQueued, recvedQueue := false, false, None, true, [], [];
      reader, proc, delivered, read, credited, dropped, outcomes := Idle, Select, [], [], 0, 0, [];
      crashed := false;
    }

    /** The run grows by the step e, which led from s to here. */
    ghost method Record(s: State, e: Event)
      requires cfg.Ok() && IsPath(StepOf(cfg), Init(), run, path) && Heedful() && path[|run|] == s
      requires Enabled(cfg, s, e) && Abs() == Next(cfg, s, e)
      modifies this`run, this`path
      ensures Valid() && Grew(true, Asked(true, e)) && Grew(false, Asked(false, e)) && run == old(run) + [e]
    {
      PathGrows(StepOf(cfg), Init(), run, path, e, Abs());
      GoesOneStep(Asks(true), run, e);
      GoesOneStep(Asks(false), run, e);
      ObeysMore(OthersOf(cfg), NextOf(cfg), UpTo(plan, horizon), run, path, marks, run + [e], path + [Abs()]);
      run, path := run + [e], path + [Abs()];
    }

    /** One statement of Read, up to what it takes from the channel. */
    method TakeStatement()
      requires (reader.ReadTest? || reader.ReadTake? || reader.ReadFail?) && !ReaderBlocked(Abs())
      modifies this`reader, this`recvQueued, this`outcomes
      ensures Abs() == ReaderEffect(old(Abs()))
    {
      match reader {
        case ReadTest(room) =>
          if err {
            reader, outcomes := Idle, outcomes + [Outcome(0, true)];
          } else {
            reader := ReadTake(room);
          }
        case ReadTake(room) =>
          if recvQueued == [] {
            reader := ReadFail;
          } else {
            var data := recvQueued[0];
            recvQueued, reader := recvQueued[1..], if data == [] then ReadFail else ReadCheck(room, data);
          }
        case ReadFail =>
          reader, outcomes := Idle, outcomes + [Outcome(0, err)];
      }
    }

    /** One statement of the rest of Read; the bytes themselves go into the caller's buffer in Read. */
    method GiveStatement()
      requires (reader.ReadCheck? || reader.ReadReport?) && !ReaderBlocked(Abs())
      modifies this`reader, this`read, this`recvedQueue, this`outcomes, this`crashed
      ensures Abs() == ReaderEffect(old(Abs()))
    {
      match reader {
        case ReadCheck(room, data) =>
          if room < |data| {
            crashed := true;
          } else {
            read, reader := read + data, ReadReport(|data|);
          }
        case ReadReport(l) =>
          recvedQueue, reader, outcomes := recvedQueue + [Some(l)], Idle, outcomes + [Outcome(l, false)];
      }
    }

    /** The goroutine in Read executes its next statement. */
    method ReaderStatement()
      requires Valid() && !crashed && !ReaderBlocked(Abs())
      modifies this`reader, this`recvQueued, this`read, this`recvedQueue, this`outcomes, this`crashed
      modifies this`run, this`path
      ensures Grew(true, []) && Grew(false, []) && run == old(run) + [ReaderRun]
      ensures Valid() && Abs() == ReaderEffect(old(Abs()))
    {
      ghost var s := Abs();
      if reader.ReadCheck? || reader.ReadReport? {
        GiveStatement();
      } else {
        TakeStatement();
      }
      Record(s, ReaderRun);
    }

    /** One statement of go_tcp_recv_h. */
    method RecvStatement()
      requires (proc.RecvTest? || proc.RecvPut?) && !ProcBlocked(Abs())
      modifies this`proc, this`recvQueued, this`delivered, this`crashed
      ensures Abs() == ProcEffect(old(Abs()))
    {
      match proc {
        case RecvTest(data) =>
          proc := if err then Select else RecvPut(data);
        case RecvPut(data) =>
          if recvClosed {
            crashed := true;
          } else {
            recvQueued, delivered, proc := recvQueued + [data], delivered + data, Select;
          }
      }
    }

    /** One statement of the case r := <-recvedQueue. */
    method CreditStatement()
      requires proc.CreditTest? || proc.CreditCall?
      modifies this`proc, this`dropped, this`credited
      ensures Abs() == ProcEffect(old(Abs()))
    {
      match proc {
        case CreditTest(l) =>
          if err {
            dropped, proc := dropped + l, Select;
          } else {
            proc := CreditCall(l);
          }
        case CreditCall(l) =>
          credited, proc := credited + l % U16, Select;
      }
    }

    /** One statement of close, called from the loop. */
    method EndStatement()
      requires (proc.EndErr? || proc.EndChan? || proc.EndFree?) && !ProcBlocked(Abs())
      modifies this`proc, this`err, this`lck, this`recvClosed, this`crashed, this`live
      ensures Abs() == ProcEffect(old(Abs()))
    {
      match proc {
        case EndErr =>
          if err {
            proc := EndFree;
          } else {
            err, lck, proc := true, Some(ByProc), EndChan;
          }
        case EndChan =>
          crashed, recvClosed, lck, proc := crashed || recvClosed, true, None, EndFree;
        case EndFree =>
          live, proc := false, Select;
      }
    }

    /** The loop executes its next statement. */
    method ProcStatement()
      requires Valid() && !crashed && !ProcBlocked(Abs())
      modifies this`proc, this`recvQueued, this`delivered, this`credited, this`dropped, this`err, this`lck
      modifies this`recvClosed, this`live, this`crashed, this`run, this`path
      ensures Grew(true, []) && Grew(false, []) && run == old(run) + [ProcRun]
      ensures Valid() && Abs() == ProcEffect(old(Abs()))
    {
      ghost var s := Abs();
      if proc.RecvTest? || proc.RecvPut? {
        RecvStatement();
      } else if proc.CreditTest? || proc.CreditCall? {
        CreditStatement();
      } else {
        EndStatement();
      }
      Record(s, ProcRun);
    }

    /** A step of a goroutine that closes the PCB. */
    method CloserStep(e: Event)
      requires Valid() && Enabled(cfg, Abs(), e) && (e.UserErr? || e.UserChan?)
      modifies this`err, this`lck, this`recvClosed, this`crashed, this`run, this`path
      ensures Grew(true, []) && Grew(false, []) && run == old(run) + [e]
      ensures Valid() && Abs() == Next(cfg, old(Abs()), e)
    {
      ghost var s := Abs();
      if e.UserErr? {
        err, lck := true, Some(ByUser);
      } else {
        crashed, recvClosed, lck := crashed || recvClosed, true, None;
      }
      Record(s, e);
    }

    /** A step of a goroutine that holds its lock for another reason. */
    method LockStep(e: Event)
      requires Valid() && Enabled(cfg, Abs(), e) && (e.OtherLock? || e.OtherUnlock?)
      modifies this`lck, this`run, this`path
      ensures Grew(true, []) && Grew(false, []) && run == old(run) + [e]
      ensures Valid() && Abs() == Next(cfg, old(Abs()), e)
    {
      ghost var s := Abs();
      lck := if e.OtherLock? then Some(ByOther) else None;
      Record(s, e);
    }

    /** A call of Read, a report of another PCB, or what sets the loop going. */
    method Single(e: Event)
      requires Valid() && Enabled(cfg, Abs(), e)
      requires e.CallRead? || e.ForeignReport? || e.Deliver? || e.EndBack? || e.ProcTake?
      modifies this`reader, this`proc, this`recvedQueue, this`run, this`path
      ensures Grew(true, Asked(true, e)) && Grew(false, Asked(false, e)) && run == old(run) + [e]
      ensures Valid() && Abs() == Next(cfg, old(Abs()), e)
    {
      ghost var s := Abs();
      match e {
        case CallRead(room) =>
          reader := ReadTest(room);
        case ForeignReport =>
          recvedQueue := recvedQueue + [None];
        case Deliver(data) =>
          proc := RecvTest(data);
        case EndBack =>
          proc := EndErr;
        case ProcTake =>
          var r := recvedQueue[0];
          recvedQueue, proc := recvedQueue[1..], if r.Some? then CreditTest(r.value) else Select;
      }
      Record(s, e);
    }

    /** Whatever the step, if it may happen. */
    method Outside(e: Event)
      requires Valid() && Enabled(cfg, Abs(), e)
      modifies this
      ensures Grew(true, Asked(true, e)) && Grew(false, Asked(false, e)) && run == old(run) + [e]
      ensures Valid() && Abs() == Next(cfg, old(Abs()), e) && ticks == old(ticks) && marks == old(marks)
    {
      match e {
        case ReaderRun => ReaderStatement();
        case ProcRun => ProcStatement();
        case UserErr => CloserStep(e);
        case UserChan => CloserStep(e);
        case OtherLock => LockStep(e);
        case OtherUnlock => LockStep(e);
        case _ => Single(e);
      }
    }

    /** Time passes: the others follow the plan.  reading: it is Read that waits, otherwise the loop. */
    method World(reading: bool)
      requires Valid()
      modifies this
      ensures Valid() && Grew(reading, []) && ticks == old(ticks) + 1
      ensures if reading then SameReader(old(Abs()), Abs()) else SameLoop(old(Abs()), Abs())
    {
      ghost var from := |run|;
      Follow(reading);
      ObeysTick(OthersOf(cfg), NextOf(cfg), UpTo(plan, horizon), run, path, marks, reading, from);
      ticks := ticks + 1;
      marks := marks + [Tick(reading, from)];
    }

    method Follow(reading: bool)
      requires Valid()
      modifies this
      ensures Valid() && Grew(reading, []) && ticks == old(ticks) && marks == old(marks)
      ensures if reading then SameReader(old(Abs()), Abs()) else SameLoop(old(Abs()), Abs())
      ensures run == old(run) + Heeded(MayOf(cfg, reading), NextOf(cfg), old(Abs()), UpTo(plan, horizon)(ticks))
    {
      ghost var s := Abs();
      var schedule := UpTo(plan, horizon)(ticks);
      var i := 0;
      while i < |schedule|
        invariant 0 <= i <= |schedule| && ticks == old(ticks) && marks == old(marks)
        invariant Valid() && Grew(reading, [])
        invariant if reading then SameReader(old(Abs()), Abs()) else SameLoop(old(Abs()), Abs())
        invariant Abs() == After(MayOf(cfg, reading), NextOf(cfg), s, schedule[..i])
        invariant run == old(run) + Heeded(MayOf(cfg, reading), NextOf(cfg), s, schedule[..i])
      {
        OneMore(MayOf(cfg, reading), NextOf(cfg), s, schedule, i);
        Heed(reading, schedule[i]);
        i := i + 1;
      }
      assert schedule[..i] == schedule;
    }

    method Heed(reading: bool, e: Event)
      requires Valid()
      modifies this
      ensures Valid() && Grew(reading, []) && ticks == old(ticks) && marks == old(marks)
      ensures if reading then SameReader(old(Abs()), Abs()) else SameLoop(old(Abs()), Abs())
      ensures if MayOf(cfg, reading)(old(Abs()), e) then Abs() == NextOf(cfg)(old(Abs()), e) && run == old(run) + [e]
              else Abs() == old(Abs()) && run == old(run)
    {
      if Enabled(cfg, Abs(), e) && !(if reading then OfReader(e) else OfLoop(e)) {
        OthersLeave(cfg, Abs(), e);
        Outside(e);
      }
    }

    /** Read goes no further: it waits at a channel, and the others have nothing left to do. */
    predicate ReadStranded()
      reads this
    {
      !reader.Idle? && ReaderBlocked(Abs()) && ticks >= horizon
    }

    /** The same of the loop. */
    predicate LoopStranded()
      reads this
    {
      !proc.Select? && ProcBlocked(Abs()) && ticks >= horizon
    }

    /** The wait at a channel, for as long as the others move. */
    method AwaitRead()
      requires Valid()
      modifies this
      ensures Valid() && Grew(true, []) && SameReader(old(Abs()), Abs())
      ensures crashed || reader.Idle? || !ReaderBlocked(Abs()) || ReadStranded()
    {
      World(true);
      while !crashed && !reader.Idle? && ReaderBlocked(Abs()) && ticks < horizon
        invariant Valid() && Grew(true, []) && SameReader(old(Abs()), Abs())
        decreases horizon - ticks
      {
        World(true);
      }
    }

    method AwaitLoop()
      requires Valid()
      modifies this
      ensures Valid() && Grew(false, []) && SameLoop(old(Abs()), Abs())
      ensures crashed || proc.Select? || !ProcBlocked(Abs()) || LoopStranded()
    {
      World(false);
      while !crashed && !proc.Select? && ProcBlocked(Abs()) && ticks < horizon
        invariant Valid() && Grew(false, []) && SameLoop(old(Abs()), Abs())
        decreases horizon - ticks
      {
        World(false);
      }
    }

    /**
     PCB.Read.  at: where it tests whether the PCB is closed; if it is, it returns no bytes and the error, whatever is
     queued.  It returns bytes and nil, or no bytes and the error; the bytes are the next ones delivered, and the rest
     of the buffer is left alone.  It blocks only where there is nothing for it when the others have come to rest.
     */
    method Read(b: array<byte>) returns (r: Result, ghost at: nat)
      requires Valid() && !crashed && reader.Idle? && cfg.smallest <= b.Length
      modifies this, b
      ensures Valid() && Grew(true, [CallRead(b.Length)]) && read <= delivered
      ensures r.Panicked? <==> crashed
      ensures r.Blocked? ==> ReadStranded()
      ensures r.Done? ==> r.l <= b.Length && read == old(read) + b[..r.l] && b[r.l..] == old(b[r.l..])
      ensures r.Done? ==> (r.failed <==> r.l == 0) && outcomes == old(outcomes) + [Outcome(r.l, r.failed)]
      ensures Tested(b.Length, |old(run)|, at, r)
    {
      Single(CallRead(b.Length));
      var data;
      r, data, at := Receive(b.Length);
      if r.Done? && !r.failed {
        r := Hand(b, data);
      }
      PathReaches(StepOf(cfg), Init(), run, path);
      ReachableInv(cfg, Abs());
    }

    /** Read made its test at path[at], and a closed PCB was the end of it, unless the process panicked before. */
    ghost predicate Tested(room: nat, since: nat, at: nat, r: Result)
      reads this
    {
      (r.Panicked? && reader == ReadTest(room)) ||
      (since < at < |path| && path[at].reader == ReadTest(room) && (path[at].err ==> r == Done(0, true)))
    }

    /** Read as far as the length check; not failed: data is in hand. */
    method Receive(room: nat) returns (r: Result, data: Bytes, ghost at: nat)
      requires Valid() && !crashed && reader == ReadTest(room)
      modifies this
      ensures Valid() && Grew(true, []) && read == old(read)
      ensures r.Panicked? <==> crashed
      ensures r.Blocked? ==> ReadStranded()
      ensures r.Done? ==> r.l == 0
      ensures r.Done? && r.failed ==> outcomes == old(outcomes) + [Outcome(0, true)]
      ensures r.Done? && !r.failed ==> outcomes == old(outcomes) && reader == ReadCheck(room, data) && 1 <= |data| < U16
      ensures |old(run)| <= at < |path| && path[at].reader == ReadTest(room)
      ensures path[at].err ==> r == Done(0, true) || (r.Panicked? && reader == ReadTest(room))
    {
      data := [];
      World(true);
      at := |run|;
      if crashed {
        return Panicked, data, at;
      }
      ReaderStatement();
      if reader.Idle? {
        return Done(0, true), data, at;
      }
      r, data := TakeOne(room);
    }

    /** Read takes the next data from the channel. */
    method TakeOne(room: nat) returns (r: Result, data: Bytes)
      requires Valid() && reader == ReadTake(room)
      modifies this
      ensures Valid() && Grew(true, []) && read == old(read)
      ensures r.Panicked? <==> crashed
      ensures r.Blocked? ==> ReadStranded()
      ensures r.Done? ==> r.l == 0
      ensures r.Done? && r.failed ==> outcomes == old(outcomes) + [Outcome(0, true)]
      ensures r.Done? && !r.failed ==> outcomes == old(outcomes) && reader == ReadCheck(room, data) && 1 <= |data| < U16
    {
      data := [];
      AwaitRead();
      if crashed {
        return Panicked, data;
      }
      if recvQueued == [] && !recvClosed {
        return Blocked, data;
      }
      ReaderStatement();
      World(true);
      if crashed {
        return Panicked, data;
      }
      if reader.ReadCheck? {
        DataFits(cfg, run, path);
        return Done(0, false), reader.data;
      }
      Fail();
      r := Done(0, true);
    }

    /** err = p.err: it is set by now. */
    method Fail()
      requires Valid() && !crashed && reader.ReadFail?
      modifies this
      ensures Valid() && Grew(true, []) && read == old(read) && !crashed
      ensures outcomes == old(outcomes) + [Outcome(0, true)]
    {
      PathReaches(StepOf(cfg), Init(), run, path);
      ReachableInv(cfg, Abs());
      ReaderStatement();
    }

    /** The data is copied into the buffer, and reported. */
    method Hand(b: array<byte>, data: Bytes) returns (r: Result)
      requires Valid() && !crashed && reader == ReadCheck(b.Length, data) && |data| >= 1
      modifies this, b
      ensures Valid() && Grew(true, [])
      ensures r.Panicked? <==> crashed
      ensures r.Blocked? ==> ReadStranded()
      ensures r.Done? ==> r == Done(|data|, false) && |data| <= b.Length && b[..] == data + old(b[|data|..])
      ensures r.Done? ==> read == old(read) + data && outcomes == old(outcomes) + [Outcome(|data|, false)]
    {
      if b.Length < |data| {
        ReaderStatement();
        return Panicked;
      }
      Copy(b, data);
      ReaderStatement();
      AwaitRead();
      if crashed {
        return Panicked;
      }
      if |recvedQueue| >= QUEUE_CAPACITY {
        return Blocked;
      }
      ReaderStatement();
      r := Done(|data|, false);
    }

    static method Copy(b: array<byte>, data: Bytes)
      requires |data| <= b.Length
      modifies b
      ensures b[..] == data + old(b[|data|..])
    {
      var i := 0;
      while i < |data|
        invariant 0 <= i <= |data|
        invariant forall k :: 0 <= k < i ==> b[k] == data[k]
        invariant forall k :: i <= k < b.Length ==> b[k] == old(b[k])
      {
        b[i] := data[i];
        i := i + 1;
      }
    }

    /**
     go_tcp_recv_h, on the loop's stack.  at: where it tests whether the PCB is closed: Returned(1) if it is, and
     nothing is queued; otherwise Returned(0), and the data is queued.  It panics when a goroutine closes the channel
     between the test and the put, and blocks only at a full channel when the others have come to rest.
     */
    method Recv(data: Bytes) returns (r: Answer, ghost at: nat)
      requires Valid() && !crashed && proc.Select? && live && 1 <= |data| <= cfg.largest
      modifies this
      ensures Valid() && Grew(false, [Deliver(data)])
      ensures r.Gone? <==> crashed
      ensures r.Stuck? ==> proc == RecvPut(data) && LoopStranded()
      ensures r.Returned? ==> proc.Select? && delivered == old(delivered) + if r.code == 0 then data else []
      ensures r.Returned? ==> r == Returned(0) || r == Returned(1)
      ensures r.Returned? ==> Judged(data, |old(run)|, at, r == Returned(0))
      ensures !r.Returned? ==> proc == RecvTest(data) || (proc == RecvPut(data) && Judged(data, |old(run)|, at, true))
    {
      Single(Deliver(data));
      r, at := Answered(data);
    }

    /** go_tcp_recv_h from its test on. */
    method Answered(data: Bytes) returns (r: Answer, ghost at: nat)
      requires Valid() && !crashed && proc == RecvTest(data)
      modifies this
      ensures Valid() && Grew(false, [])
      ensures r.Gone? <==> crashed
      ensures r.Stuck? ==> proc == RecvPut(data) && LoopStranded()
      ensures r.Returned? ==> proc.Select? && delivered == old(delivered) + if r.code == 0 then data else []
      ensures r.Returned? ==> r == Returned(0) || r == Returned(1)
      ensures |old(run)| <= at < |path| && path[at].proc == RecvTest(data)
      ensures r.Returned? ==> path[at].err == (r == Returned(1))
      ensures !r.Returned? ==> proc == RecvTest(data) || (proc == RecvPut(data) && !path[at].err)
    {
      World(false);
      at := |run|;
      if crashed {
        return Gone, at;
      }
      ProcStatement();
      if proc.Select? {
        return Returned(1), at;
      }
      r := Put(data);
    }

    /** The loop made its test of the PCB at path[at] and found it open, or closed. */
    ghost predicate Judged(data: Bytes, since: nat, at: nat, open: bool)
      reads this
    {
      since < at < |path| && path[at].proc == RecvTest(data) && path[at].err == !open
    }

    /** The loop puts the data into the channel. */
    method Put(data: Bytes) returns (r: Answer)
      requires Valid() && !crashed && proc == RecvPut(data)
      modifies this
      ensures Valid() && Grew(false, [])
      ensures r.Gone? <==> crashed
      ensures !r.Returned? ==> proc == RecvPut(data)
      ensures r.Stuck? ==> LoopStranded()
      ensures r.Returned? ==> r == Returned(0) && proc.Select? && delivered == old(delivered) + data
    {
      AwaitLoop();
      if crashed {
        return Gone;
      }
      if |recvQueued| >= QUEUE_CAPACITY && !recvClosed {
        return Stuck;
      }
      ProcStatement();
      r := if crashed then Gone else Returned(0);
    }

    /** The loop takes a report: the credit of the oldest report goes back whole, unless the PCB has been closed. */
    method CreditBack() returns (r: Answer, ghost at: nat)
      requires Valid() && !crashed && proc.Select? && recvedQueue != []
      modifies this
      ensures Valid() && Grew(false, [ProcTake])
      ensures r.Returned? <==> !crashed
      ensures r.Gone? <==> crashed
      ensures r.Returned? ==> proc.Select?
      ensures r == Returned(0) ==>
                credited == old(credited) + (match old(recvedQueue)[0] case None => 0 case Some(l) => l)
      ensures r == Returned(1) ==> credited == old(credited) && err
      ensures r.Returned? ==> r.code == 0 || r.code == 1
      ensures r.Returned? && old(recvedQueue)[0].Some? ==>
                && |old(run)| < at < |path| && path[at].proc == CreditTest(old(recvedQueue)[0].value)
                && path[at].err == (r == Returned(1))
    {
      PathReaches(StepOf(cfg), Init(), run, path);
      ReachableInv(cfg, Abs());
      at := 0;
      Single(ProcTake);
      if proc.Select? {
        return Returned(0), at;
      }
      r, at := Credited(proc.l);
    }

    /** The loop gives the credit back unless the PCB is closed. */
    method Credited(l: nat) returns (r: Answer, ghost at: nat)
      requires Valid() && !crashed && proc == CreditTest(l) && Small(l)
      modifies this
      ensures Valid() && Grew(false, [])
      ensures r.Gone? <==> crashed
      ensures !crashed ==> r == Returned(0) || r == Returned(1)
      ensures r == Returned(0) ==> proc.Select? && credited == old(credited) + l
      ensures r == Returned(1) ==> proc.Select? && credited == old(credited) && err
      ensures r.Returned? ==>
                |old(run)| <= at < |path| && path[at].proc == CreditTest(l) && path[at].err == (r == Returned(1))
    {
      World(false);
      at := |run|;
      if crashed {
        return Gone, at;
      }
      ProcStatement();
      if proc.Select? {
        return Returned(1), at;
      }
      r := Call(l);
    }

    /** The credit goes to lwIP. */
    method Call(l: nat) returns (r: Answer)
      requires Valid() && !crashed && proc == CreditCall(l) && Small(l)
      modifies this
      ensures Valid() && Grew(false, [])
      ensures r == (if crashed then Gone else Returned(0))
      ensures r == Returned(0) ==> proc.Select? && credited == old(credited) + l
    {
      World(false);
      if crashed {
        return Gone;
      }
      ProcStatement();
      r := Returned(0);
    }

    /** go_tcp_close_h below cs_tcp_raw_close: then the PCB has its error, the channel is closed, the state freed. */
    method End() returns (r: Answer)
      requires Valid() && !crashed && proc.Select? && live
      modifies this
      ensures Valid() && Grew(false, [EndBack])
      ensures r.Gone? <==> crashed
      ensures r.Stuck? ==> proc.EndErr? && LoopStranded()
      ensures r.Returned? ==> proc.Select? && !live && err && recvClosed
    {
      Single(EndBack);
      r := Ended();
    }

    /** close, called from the loop, and what follows. */
    method Ended() returns (r: Answer)
      requires Valid() && !crashed && proc.EndErr?
      modifies this
      ensures Valid() && Grew(false, [])
      ensures r.Gone? <==> crashed
      ensures r.Stuck? ==> proc.EndErr? && LoopStranded()
      ensures r.Returned? ==> proc.Select? && !live && err && recvClosed
    {
      AwaitLoop();
      if crashed {
        return Gone;
      }
      if lck != None {
        return Stuck;
      }
      ProcStatement();
      r := EndRest();
    }

    /** close from its test on, and cs_tcp_raw_free. */
    method EndRest() returns (r: Answer)
      requires Valid() && !crashed && (proc.EndChan? || proc.EndFree?)
      modifies this
      ensures Valid() && Grew(false, [])
      ensures r == (if crashed then Gone else Returned(0))
      ensures r.Returned? ==> proc.Select? && !live && err && recvClosed
    {
      while !proc.Select?
        invariant Valid() && Grew(false, []) && !crashed
        invariant proc.EndChan? || proc.EndFree? || (proc.Select? && !live)
        decreases proc.EndChan?, proc.EndFree?
      {
        World(false);
        if crashed {
          return Gone;
        }
        EndGoesOn();
      }
      PathReaches(StepOf(cfg), Init(), run, path);
      ReachableInv(cfg, Abs());
      r := Returned(0);
    }

    method EndGoesOn()
      requires Valid() && !crashed && (proc.EndChan? || proc.EndFree?)
      modifies this
      ensures Valid() && Grew(false, []) && !crashed
      ensures if old(proc).EndChan? then proc.EndFree? else proc.Select? && !live
    {
      PathReaches(StepOf(cfg), Init(), run, path);
      ReachableInv(cfg, Abs());
      ProcStatement();
    }
  }
}
