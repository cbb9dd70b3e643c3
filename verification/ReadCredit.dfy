/**
 The receive side of lwipcs.go: go_tcp_recv_h queues what lwIP delivers, PCB.Read hands it out and reports its length,
 and the loop gives the window credit back.  One goroutine reads; any number may close.  The statements are
 interleaved one at a time.
 */
module ReadCredit {
  import opened Common
  import opened Paths

  const QUEUE_CAPACITY := 1024
  const U16 := 0x1_0000

  /** What Read returned: l, and whether err was set. */
  datatype Outcome = Outcome(l: nat, failed: bool)

  /** The statement of Read that comes next; room: the length of the caller's buffer. */
  datatype Reader =
    | Idle
    | ReadTest(room: nat)                // is the PCB closed?
    | ReadTake(room: nat)                // received := <-p.recvQueued
    | ReadFail                           // err = p.err
    | ReadCheck(room: nat, data: Bytes)  // panic if the data does not fit, else copy it
    | ReadReport(l: nat)                 // recvedQueue <- entry

  /** The statement of the loop that comes next. */
  datatype Proc =
    | Select
    | RecvTest(data: Bytes)  // is the PCB known and open?
    | RecvPut(data: Bytes)   // pcb.recvQueued <- data
    | CreditTest(l: nat)     // is the PCB open?
    | CreditCall(l: nat)     // tcp_recved
    | EndErr                 // close(): lock, test, p.err = closed
    | EndChan                // close(p.recvQueued), unlock
    | EndFree                // back in C: free the state

  /** Who holds p.lck: a goroutine or the loop that is closing the PCB, or somebody else, such as a waiting Write. */
  datatype Holder = ByUser | ByProc | ByOther

  /**
   delivered: what was queued of lwIP's data; read: what Read copied; credited: what tcp_recved was told; dropped: the
   reports that were not passed on.  A report of another PCB in the shared recvedQueue is None.  crashed: a panic.
   */
  datatype State = State(
    err: bool,
    recvClosed: bool,
    lock: Option<Holder>,
    live: bool,
    queue: seq<Bytes>,
    reports: seq<Option<nat>>,
    reader: Reader,
    proc: Proc,
    delivered: Bytes,
    read: Bytes,
    credited: nat,
    dropped: nat,
    outcomes: seq<Outcome>,
    crashed: bool)

  /** closes: goroutines may call Close; smallest: the least buffer passed to Read; largest: the longest pbuf chain. */
  datatype Config = Config(closes: bool, smallest: nat, largest: nat) {
    predicate Ok() {
      1 <= largest < U16
    }
  }

  datatype Event =
    | CallRead(room: nat)
    | ReaderRun
    | ForeignReport
    | UserErr      // a goroutine's close: lock, test, p.err = closed
    | UserChan     // close(p.recvQueued), unlock
    | OtherLock
    | OtherUnlock
    | Deliver(data: Bytes)
    | EndBack
    | ProcTake
    | ProcRun

  function Init(): State {
    State(false, false, None, true, [], [], Idle, Select, [], [], 0, 0, [], false)
  }

  predicate ReaderBlocked(s: State) {
    match s.reader
    case Idle => true
    case ReadTake(_) => s.queue == [] && !s.recvClosed
    case ReadReport(_) => |s.reports| >= QUEUE_CAPACITY
    case _ => false
  }

  predicate ProcBlocked(s: State) {
    match s.proc
    case Select => true
    case RecvPut(_) => |s.queue| >= QUEUE_CAPACITY && !s.recvClosed
    case EndErr => s.lock != None
    case _ => false
  }

  function ReaderEffect(s: State): State
    requires !ReaderBlocked(s)
  {
    match s.reader
    case ReadTest(room) =>
      if s.err then s.(reader := Idle, outcomes := s.outcomes + [Outcome(0, true)]) else s.(reader := ReadTake(room))
    case ReadTake(room) =>
      if s.queue == [] then s.(reader := ReadFail)
      else s.(queue := s.queue[1..], reader := if s.queue[0] == [] then ReadFail else ReadCheck(room, s.queue[0]))
    case ReadFail => s.(reader := Idle, outcomes := s.outcomes + [Outcome(0, s.err)])
    case ReadCheck(room, data) =>
      if room < |data| then s.(crashed := true)
      else s.(read := s.read + data, reader := ReadReport(|data|))
    case ReadReport(l) =>
      s.(reports := s.reports + [Some(l)], reader := Idle, outcomes := s.outcomes + [Outcome(l, false)])
  }

  function ProcEffect(s: State): State
    requires !ProcBlocked(s)
  {
    match s.proc
    case RecvTest(data) => s.(proc := if s.err then Select else RecvPut(data))
    case RecvPut(data) =>
      if s.recvClosed then s.(crashed := true)
      else s.(queue := s.queue + [data], delivered := s.delivered + data, proc := Select)
    case CreditTest(l) => if s.err then s.(dropped := s.dropped + l, proc := Select) else s.(proc := CreditCall(l))
    case CreditCall(l) => s.(credited := s.credited + l % U16, proc := Select)
    case EndErr => if s.err then s.(proc := EndFree) else s.(err := true, lock := Some(ByProc), proc := EndChan)
    case EndChan => s.(crashed := s.crashed || s.recvClosed, recvClosed := true, lock := None, proc := EndFree)
    case EndFree => s.(live := false, proc := Select)
  }

  predicate Enabled(cfg: Config, s: State, e: Event) {
    && !s.crashed
    && match e
       case CallRead(room) => s.reader.Idle? && cfg.smallest <= room
       case ReaderRun => !ReaderBlocked(s)
       case ForeignReport => |s.reports| < QUEUE_CAPACITY
       case UserErr => cfg.closes && s.lock == None && !s.err
       case UserChan => s.lock == Some(ByUser)
       case OtherLock => s.lock == None
       case OtherUnlock => s.lock == Some(ByOther)
       case Deliver(data) => s.proc.Select? && s.live && 1 <= |data| <= cfg.largest
       case EndBack => s.proc.Select? && s.live
       case ProcTake => s.proc.Select? && s.reports != []
       case ProcRun => !ProcBlocked(s)
  }

  function Next(cfg: Config, s: State, e: Event): State
    requires Enabled(cfg, s, e)
  {
    match e
    case CallRead(room) => s.(reader := ReadTest(room))
    case ReaderRun => ReaderEffect(s)
    case ForeignReport => s.(reports := s.reports + [None])
    case UserErr => s.(err := true, lock := Some(ByUser))
    case UserChan => s.(crashed := s.crashed || s.recvClosed, recvClosed := true, lock := None)
    case OtherLock => s.(lock := Some(ByOther))
    case OtherUnlock => s.(lock := None)
    case Deliver(data) => s.(proc := RecvTest(data))
    case EndBack => s.(proc := EndErr)
    case ProcTake =>
      s.(reports := s.reports[1..], proc := if s.reports[0].Some? then CreditTest(s.reports[0].value) else Select)
    case ProcRun => ProcEffect(s)
  }

  /** An enabled event and where it leads. */
  function StepOf(cfg: Config): (State, Event, State) -> bool {
    (s: State, e: Event, s': State) => Enabled(cfg, s, e) && s' == Next(cfg, s, e)
  }

  ghost predicate Reachable(cfg: Config, s: State) {
    Reaches(StepOf(cfg), Init(), s)
  }

  // ---------------------------------------------------------------- the invariant

  /** The bytes between the queue and the reader's buffer. */
  function Taken(r: Reader): Bytes {
    if r.ReadCheck? then r.data else []
  }

  predicate Fits(cfg: Config, data: Bytes) {
    1 <= |data| <= cfg.largest
  }

  predicate Delivery(s: State) {
    s.delivered == s.read + Taken(s.reader) + Flatten(s.queue)
  }

  /** The credit in the queue of reports. */
  function Queued(reports: seq<Option<nat>>): nat {
    if reports == [] then 0
    else Queued(reports[..|reports| - 1]) + match reports[|reports| - 1] case None => 0 case Some(l) => l
  }

  function WithReader(r: Reader): nat {
    if r.ReadReport? then r.l else 0
  }

  function WithLoop(p: Proc): nat {
    if p.CreditTest? || p.CreditCall? then p.l else 0
  }

  /** Credit on its way back: with the reader, in the queue, with the loop. */
  function OnItsWay(s: State): nat {
    WithReader(s.reader) + Queued(s.reports) + WithLoop(s.proc)
  }

  predicate Credit(s: State) {
    s.credited + s.dropped + OnItsWay(s) == |s.read|
  }

  predicate Small(l: nat) {
    1 <= l < U16
  }

  predicate QueuesFit(cfg: Config, queue: seq<Bytes>, reports: seq<Option<nat>>) {
    && (forall i :: 0 <= i < |queue| ==> Fits(cfg, queue[i]))
    && (forall i :: 0 <= i < |reports| && reports[i].Some? ==> Small(reports[i].value))
  }

  predicate ReaderFits(cfg: Config, r: Reader) {
    && (r.ReadCheck? ==> Fits(cfg, r.data))
    && (r.ReadReport? ==> Small(r.l))
  }

  predicate ProcFits(cfg: Config, p: Proc) {
    && (p.RecvTest? || p.RecvPut? ==> Fits(cfg, p.data))
    && (p.CreditTest? || p.CreditCall? ==> Small(p.l))
  }

  /** Nothing is empty or too long for 16 bits. */
  predicate Sizes(cfg: Config, s: State) {
    QueuesFit(cfg, s.queue, s.reports) && ReaderFits(cfg, s.reader) && ProcFits(cfg, s.proc)
  }

  /** p.err is set before the channel is closed, and neither twice. */
  predicate Closing(s: State) {
    && (s.recvClosed ==> s.err)
    && (s.err && !s.recvClosed <==> s.lock == Some(ByUser) || s.lock == Some(ByProc))
    && (s.proc.EndChan? <==> s.lock == Some(ByProc))
    && (s.reader.ReadFail? ==> s.recvClosed)
    && (s.dropped > 0 ==> s.err)
  }

  predicate Life(s: State) {
    && ((s.proc.EndErr? || s.proc.EndChan? || s.proc.EndFree?) ==> s.live)
    && ((s.proc.CreditCall? || s.proc.RecvTest? || s.proc.RecvPut?) ==> s.live)
    && (s.proc.EndFree? || !s.live ==> s.recvClosed)
  }

  predicate Kept(cfg: Config, s: State) {
    && (!cfg.closes ==> s.lock != Some(ByUser))
    && (!cfg.closes && s.err ==> s.proc.EndChan? || s.proc.EndFree? || !s.live)
    && (s.reader.ReadTest? || s.reader.ReadTake? || s.reader.ReadCheck? ==> cfg.smallest <= s.reader.room)
    && (!cfg.closes && cfg.largest <= cfg.smallest ==> !s.crashed)
    && (forall i :: 0 <= i < |s.outcomes| ==> (s.outcomes[i].failed <==> s.outcomes[i].l == 0))
  }

  predicate Inv(cfg: Config, s: State) {
    Delivery(s) && Credit(s) && Sizes(cfg, s) && Closing(s) && Life(s) && Kept(cfg, s)
  }

  lemma QueuedAppend(reports: seq<Option<nat>>, r: Option<nat>)
    ensures Queued(reports + [r]) == Queued(reports) + match r case None => 0 case Some(l) => l
  {
    assert (reports + [r])[..|reports + [r]| - 1] == reports;
  }

  lemma {:induction false} QueuedTail(reports: seq<Option<nat>>)
    requires reports != []
    ensures Queued(reports) == Queued(reports[1..]) + match reports[0] case None => 0 case Some(l) => l
  {
    if |reports| > 1 {
      QueuedTail(reports[..|reports| - 1]);
      assert reports[1..][..|reports[1..]| - 1] == reports[..|reports| - 1][1..];
    }
  }

  /** What the reader's step moves: data out of the queue, into the buffer, and its length into the reports. */
  lemma ReaderMoves(cfg: Config, s: State)
    requires Sizes(cfg, s) && !ReaderBlocked(s)
    ensures var s' := ReaderEffect(s);
            && s'.delivered == s.delivered && s'.proc == s.proc && s'.credited == s.credited && s'.dropped == s.dropped
            && s'.read + Taken(s'.reader) + Flatten(s'.queue) == s.read + Taken(s.reader) + Flatten(s.queue)
  {
    if s.reader.ReadTake? && s.queue != [] {
      assert Fits(cfg, s.queue[0]);
      assert s.read + s.queue[0] + Flatten(s.queue[1..]) == s.read + [] + (s.queue[0] + Flatten(s.queue[1..]));
    } else if s.reader.ReadCheck? {
      assert s.read + s.reader.data + [] == s.read + s.reader.data;
    }
  }

  lemma ReaderReports(s: State)
    requires !ReaderBlocked(s)
    ensures var s' := ReaderEffect(s);
            |s'.read| - WithReader(s'.reader) - Queued(s'.reports) ==
            |s.read| - WithReader(s.reader) - Queued(s.reports)
  {
    if s.reader.ReadReport? {
      QueuedAppend(s.reports, Some(s.reader.l));
    }
  }

  lemma ProcMoves(cfg: Config, s: State)
    requires ProcFits(cfg, s.proc) && !ProcBlocked(s)
    ensures var s' := ProcEffect(s);
            && s'.reader == s.reader && s'.read == s.read && s'.reports == s.reports
            && s'.credited + s'.dropped + WithLoop(s'.proc) == s.credited + s.dropped + WithLoop(s.proc)
            && (if s.proc.RecvPut? && !s.recvClosed
                then s'.queue == s.queue + [s.proc.data] && s'.delivered == s.delivered + s.proc.data
                else s'.queue == s.queue && s'.delivered == s.delivered)
  {
    if s.proc.EndErr? || s.proc.EndChan? || s.proc.EndFree? {
      EndMoves(s);
    }
  }

  lemma EndMoves(s: State)
    requires (s.proc.EndErr? || s.proc.EndChan? || s.proc.EndFree?) && !ProcBlocked(s)
    ensures var s' := ProcEffect(s);
            && s'.reader == s.reader && s'.read == s.read && s'.reports == s.reports
            && s'.credited == s.credited && s'.dropped == s.dropped
            && s'.queue == s.queue && s'.delivered == s.delivered
            && !s'.proc.RecvTest? && !s'.proc.RecvPut? && !s'.proc.CreditTest? && !s'.proc.CreditCall?
  {
  }

  lemma Queues(front: Bytes, queue: seq<Bytes>, data: Bytes)
    ensures front + Flatten(queue + [data]) == front + Flatten(queue) + data
  {
    FlattenAppend(queue, [data]);
    FlattenOne(data);
    assert front + (Flatten(queue) + data) == front + Flatten(queue) + data;
  }

  lemma BalanceKept(cfg: Config, s: State, e: Event)
    requires cfg.Ok() && Delivery(s) && Credit(s) && Sizes(cfg, s) && Enabled(cfg, s, e)
    ensures Delivery(Next(cfg, s, e)) && Credit(Next(cfg, s, e))
  {
    match e {
      case ReaderRun =>
        ReaderMoves(cfg, s);
        ReaderReports(s);
      case ProcRun =>
        ProcMoves(cfg, s);
        if s.proc.RecvPut? && !s.recvClosed {
          Queues(s.read + Taken(s.reader), s.queue, s.proc.data);
        }
      case ForeignReport => QueuedAppend(s.reports, None);
      case ProcTake => QueuedTail(s.reports);
      case _ =>
    }
  }

  lemma ReaderKeepsSizes(cfg: Config, s: State)
    requires cfg.Ok() && Sizes(cfg, s) && !ReaderBlocked(s)
    ensures Sizes(cfg, ReaderEffect(s))
  {
    if s.reader.ReadTake? && s.queue != [] {
      assert Fits(cfg, s.queue[0]);
    }
    ReaderKeepsQueues(cfg, s);
    assert ReaderEffect(s).proc == s.proc;
  }

  lemma ReaderKeepsQueues(cfg: Config, s: State)
    requires QueuesFit(cfg, s.queue, s.reports) && ReaderFits(cfg, s.reader) && !ReaderBlocked(s)
    ensures QueuesFit(cfg, ReaderEffect(s).queue, ReaderEffect(s).reports)
  {
  }

  lemma ProcKeepsSizes(cfg: Config, s: State)
    requires Sizes(cfg, s) && !ProcBlocked(s)
    ensures Sizes(cfg, ProcEffect(s))
  {
    assert ProcEffect(s).reader == s.reader && ProcEffect(s).reports == s.reports;
    if s.proc.EndErr? || s.proc.EndChan? || s.proc.EndFree? {
      EndMoves(s);
    }
  }

  lemma SizesKept(cfg: Config, s: State, e: Event)
    requires cfg.Ok() && Sizes(cfg, s) && Enabled(cfg, s, e)
    ensures Sizes(cfg, Next(cfg, s, e))
  {
    if e.ReaderRun? {
      ReaderKeepsSizes(cfg, s);
    } else if e.ProcRun? {
      ProcKeepsSizes(cfg, s);
    }
  }

  lemma ClosingKept(cfg: Config, s: State, e: Event)
    requires Sizes(cfg, s) && Closing(s) && Life(s) && Enabled(cfg, s, e)
    ensures Closing(Next(cfg, s, e)) && Life(Next(cfg, s, e))
  {
    if e.ReaderRun? && s.reader.ReadTake? && s.queue != [] {
      assert Fits(cfg, s.queue[0]);
    }
  }

  lemma KeptKept(cfg: Config, s: State, e: Event)
    requires Inv(cfg, s) && Enabled(cfg, s, e)
    ensures Kept(cfg, Next(cfg, s, e))
  {
    match e {
      case ReaderRun => ReaderKeepsKept(cfg, s);
      case ProcRun => ProcKeepsKept(cfg, s);
      case _ =>
    }
  }

  lemma ReaderKeepsKept(cfg: Config, s: State)
    requires ReaderFits(cfg, s.reader) && Closing(s) && Kept(cfg, s) && !ReaderBlocked(s) && !s.crashed
    requires Sizes(cfg, s)
    ensures Kept(cfg, ReaderEffect(s))
  {
    if s.reader.ReadTake? && s.queue != [] {
      assert Fits(cfg, s.queue[0]);
    }
  }

  lemma ProcKeepsKept(cfg: Config, s: State)
    requires Closing(s) && Life(s) && Kept(cfg, s) && !ProcBlocked(s) && !s.crashed
    ensures Kept(cfg, ProcEffect(s))
  {
  }

  lemma StepKeepsInv(cfg: Config, s: State, e: Event)
    requires cfg.Ok() && Inv(cfg, s) && Enabled(cfg, s, e)
    ensures Inv(cfg, Next(cfg, s, e))
  {
    BalanceKept(cfg, s, e);
    SizesKept(cfg, s, e);
    ClosingKept(cfg, s, e);
    KeptKept(cfg, s, e);
  }

  predicate IsNew(s: State) {
    && !s.err && !s.recvClosed && s.lock == None && s.live && s.queue == [] && s.reports == []
    && s.reader == Idle && s.proc == Select && s.delivered == s.read == []
    && s.credited == s.dropped == 0 && s.outcomes == [] && !s.crashed
  }

  lemma NewInv(cfg: Config, s: State)
    requires IsNew(s)
    ensures Inv(cfg, s)
  {
  }

  lemma StepsKeepInv(cfg: Config)
    requires cfg.Ok()
    ensures forall s, e, s' :: StepOf(cfg)(s, e, s') && Inv(cfg, s) ==> Inv(cfg, s')
  {
    forall s, e, s' | StepOf(cfg)(s, e, s') && Inv(cfg, s) ensures Inv(cfg, s') {
      StepKeepsInv(cfg, s, e);
    }
  }

  lemma RunKeepsInv(cfg: Config, init: State, s: State)
    requires cfg.Ok() && Inv(cfg, init) && Reaches(StepOf(cfg), init, s)
    ensures Inv(cfg, s)
  {
    StepsKeepInv(cfg);
    Invariant(StepOf(cfg), (s: State) => Inv(cfg, s), init, s);
  }

  lemma ReachableInv(cfg: Config, s: State)
    requires cfg.Ok() && Reachable(cfg, s)
    ensures Inv(cfg, s)
  {
    var init := Init();
    NewInv(cfg, init);
    RunKeepsInv(cfg, init, s);
  }

  // ---------------------------------------------------------------- what it means

  /** What was read, what the reader has in hand and what is queued are, in this order, what was delivered. */
  lemma ReadIsPrefixOfDelivered(cfg: Config, s: State)
    requires cfg.Ok() && Reachable(cfg, s)
    ensures s.delivered == s.read + Taken(s.reader) + Flatten(s.queue) && s.read <= s.delivered
  {
    ReachableInv(cfg, s);
  }

  /**
   The window credit given back and on its way back is what was read, until the PCB is closed; after that it is never
   more.  Each report passes through the 16-bit parameter of tcp_recved unchanged, to a connection that is still there.
   */
  lemma CreditIsConserved(cfg: Config, s: State)
    requires cfg.Ok() && Reachable(cfg, s)
    ensures s.credited + OnItsWay(s) <= |s.read| <= |s.delivered|
    ensures !s.err ==> s.credited + OnItsWay(s) == |s.read|
    ensures s.proc.CreditCall? ==> s.live && s.proc.l % U16 == s.proc.l
  {
    ReachableInv(cfg, s);
  }

  /** Every Read returned either bytes and nil, or no bytes and the PCB's error. */
  lemma BytesOrError(cfg: Config, s: State, o: Outcome)
    requires cfg.Ok() && Reachable(cfg, s) && o in s.outcomes
    ensures o.failed <==> o.l == 0
  {
    ReachableInv(cfg, s);
  }

  lemma {:induction false} ChunksWeigh(cfg: Config, queue: seq<Bytes>)
    requires forall i :: 0 <= i < |queue| ==> Fits(cfg, queue[i])
    ensures |queue| <= |Flatten(queue)|
  {
    if queue != [] {
      assert Fits(cfg, queue[0]);
      ChunksWeigh(cfg, queue[1..]);
    }
  }

  /** The loop can block at a delivery only while lwIP has 1024 bytes or more outstanding without credit. */
  lemma DeliveryBlocksOnlyBehind(cfg: Config, s: State)
    requires cfg.Ok() && Reachable(cfg, s) && s.proc.RecvPut? && ProcBlocked(s)
    ensures |s.delivered| - s.credited >= QUEUE_CAPACITY
  {
    ReachableInv(cfg, s);
    ChunksWeigh(cfg, s.queue);
  }

  // ---------------------------------------------------------------- after the close

  /** The reader is about to find that its buffer is too small. */
  predicate TooSmall(s: State) {
    s.reader.ReadCheck? && s.reader.room < |s.reader.data|
  }

  /** The PCB is closed and the loop has no delivery left that passed the test; then nothing more is delivered. */
  predicate Shut(s: State, delivered: Bytes) {
    s.err && !s.proc.RecvPut? && s.delivered == delivered && (s.crashed ==> TooSmall(s))
  }

  lemma ReaderKeepsShut(s: State, delivered: Bytes)
    requires Shut(s, delivered) && !s.crashed && !ReaderBlocked(s)
    ensures Shut(ReaderEffect(s), delivered)
  {
  }

  lemma ProcKeepsShut(s: State, delivered: Bytes)
    requires Shut(s, delivered) && Closing(s) && !s.crashed && !ProcBlocked(s)
    ensures Shut(ProcEffect(s), delivered)
  {
  }

  lemma StepKeepsShut(cfg: Config, s: State, e: Event, delivered: Bytes)
    requires Shut(s, delivered) && Closing(s) && Enabled(cfg, s, e)
    ensures Shut(Next(cfg, s, e), delivered)
  {
    match e {
      case ReaderRun => ReaderKeepsShut(s, delivered);
      case ProcRun => ProcKeepsShut(s, delivered);
      case _ =>
    }
  }

  /**
   Once the PCB is closed, and no delivery is between its test and its put, lwIP's data is refused, whatever happens:
   nothing more is queued, nothing is put into the closed channel, and only a buffer that is too small still panics.
   */
  lemma NothingIsDeliveredAfterClose(cfg: Config, s: State, s': State)
    requires cfg.Ok() && Reachable(cfg, s) && s.err && !s.proc.RecvPut? && !s.crashed
    requires Reaches(StepOf(cfg), s, s')
    ensures s'.delivered == s.delivered && !s'.proc.RecvPut? && (s'.crashed ==> TooSmall(s'))
  {
    ReachableInv(cfg, s);
    forall a, e, b | StepOf(cfg)(a, e, b) && Inv(cfg, a) && Shut(a, s.delivered)
      ensures Inv(cfg, b) && Shut(b, s.delivered)
    {
      StepKeepsInv(cfg, a, e);
      StepKeepsShut(cfg, a, e, s.delivered);
    }
    Invariant(StepOf(cfg), (a: State) => Inv(cfg, a) && Shut(a, s.delivered), s, s');
  }

  /** The PCB is closed and no Read is under way that began before; later ones all fail. */
  predicate Refusing(s: State, read: Bytes, n: nat) {
    && s.err && (s.reader.Idle? || s.reader.ReadTest?) && s.read == read && n <= |s.outcomes|
    && (forall i :: n <= i < |s.outcomes| ==> s.outcomes[i] == Outcome(0, true))
  }

  lemma ReaderKeepsRefusing(s: State, read: Bytes, n: nat)
    requires Refusing(s, read, n) && !ReaderBlocked(s)
    ensures Refusing(ReaderEffect(s), read, n)
  {
  }

  lemma ProcKeepsRefusing(s: State, read: Bytes, n: nat)
    requires Refusing(s, read, n) && !ProcBlocked(s)
    ensures Refusing(ProcEffect(s), read, n)
  {
    var s' := ProcEffect(s);
    assert s'.reader == s.reader && s'.read == s.read && s'.outcomes == s.outcomes && (s.err ==> s'.err);
  }

  lemma StepKeepsRefusing(cfg: Config, s: State, e: Event, read: Bytes, n: nat)
    requires Refusing(s, read, n) && Enabled(cfg, s, e)
    ensures Refusing(Next(cfg, s, e), read, n)
  {
    match e {
      case ReaderRun => ReaderKeepsRefusing(s, read, n);
      case ProcRun => ProcKeepsRefusing(s, read, n);
      case _ =>
    }
  }

  /**
   Once the PCB is closed no Read that begins afterwards hands out a byte, although data may still be queued: every one
   returns the error.
   */
  lemma NothingIsReadAfterClose(cfg: Config, s: State, s': State)
    requires Reachable(cfg, s) && s.err && s.reader.Idle? && Reaches(StepOf(cfg), s, s')
    ensures s'.read == s.read && |s.outcomes| <= |s'.outcomes|
    ensures forall i :: |s.outcomes| <= i < |s'.outcomes| ==> s'.outcomes[i] == Outcome(0, true)
  {
    var n := |s.outcomes|;
    forall a, e, b | StepOf(cfg)(a, e, b) && Refusing(a, s.read, n) ensures Refusing(b, s.read, n) {
      StepKeepsRefusing(cfg, a, e, s.read, n);
    }
    Invariant(StepOf(cfg), (a: State) => Refusing(a, s.read, n), s, s');
  }

  // ---------------------------------------------------------------- the two panics

  ghost predicate NeverCrashes(cfg: Config) {
    forall s :: Reachable(cfg, s) ==> !s.crashed
  }

  /** From a reachable state s the step e leads to s'. */
  lemma Then(cfg: Config, s: State, e: Event, s': State)
    requires Reachable(cfg, s) && Enabled(cfg, s, e) && s' == Next(cfg, s, e)
    ensures Reachable(cfg, s')
  {
    ReachesOn(StepOf(cfg), Init(), s, e, s');
  }

  lemma InitReachable(cfg: Config)
    ensures Reachable(cfg, Init())
  {
    ReachesItself(StepOf(cfg), Init());
  }

  /** A Close between the test and the put of a delivery. */
  lemma CloseUnderDelivery(cfg: Config) returns (s: State)
    requires cfg.Ok() && cfg.closes
    ensures Reachable(cfg, s) && s.crashed
  {
    InitReachable(cfg);
    var arrived := Init().(proc := RecvTest([0]));
    Then(cfg, Init(), Deliver([0]), arrived);
    var tested := Init().(proc := RecvPut([0]));
    Then(cfg, arrived, ProcRun, tested);
    var failed := tested.(err := true, lock := Some(ByUser));
    Then(cfg, tested, UserErr, failed);
    var closed := tested.(err := true, recvClosed := true);
    Then(cfg, failed, UserChan, closed);
    s := closed.(crashed := true);
    Then(cfg, closed, ProcRun, s);
  }

  /** The state after data has been queued, and nothing else has happened. */
  function Queueing(data: Bytes): State {
    Init().(queue := [data], delivered := data)
  }

  lemma Arrives(cfg: Config, data: Bytes)
    requires Fits(cfg, data)
    ensures Reachable(cfg, Queueing(data))
  {
    InitReachable(cfg);
    var arrived := Init().(proc := RecvTest(data));
    Then(cfg, Init(), Deliver(data), arrived);
    var tested := Init().(proc := RecvPut(data));
    Then(cfg, arrived, ProcRun, tested);
    assert [] + [data] == [data] && [] + data == data;
    Then(cfg, tested, ProcRun, Queueing(data));
  }

  /** A Read with a buffer shorter than what arrives. */
  lemma BufferTooSmall(cfg: Config) returns (s: State)
    requires cfg.Ok() && cfg.smallest < cfg.largest
    ensures Reachable(cfg, s) && s.crashed
  {
    var data: Bytes := seq(cfg.largest, _ => 0);
    Arrives(cfg, data);
    s := ReadsIntoLess(cfg, data, cfg.smallest);
  }

  lemma ReadsIntoLess(cfg: Config, data: Bytes, room: nat) returns (s: State)
    requires Reachable(cfg, Queueing(data)) && cfg.smallest <= room < |data|
    ensures Reachable(cfg, s) && s.crashed
  {
    var queueing := Queueing(data);
    var called := queueing.(reader := ReadTest(room));
    Then(cfg, queueing, CallRead(room), called);
    var tested := queueing.(reader := ReadTake(room));
    Then(cfg, called, ReaderRun, tested);
    var taken := queueing.(queue := [], reader := ReadCheck(room, data));
    assert [data][1..] == [];
    Then(cfg, tested, ReaderRun, taken);
    s := taken.(crashed := true);
    Then(cfg, taken, ReaderRun, s);
  }

  /** No run panics exactly if only the loop closes the PCB and every buffer holds the longest delivery. */
  lemma NeverCrashesIff(cfg: Config)
    requires cfg.Ok()
    ensures NeverCrashes(cfg) <==> !cfg.closes && cfg.largest <= cfg.smallest
  {
    if cfg.closes {
      var s := CloseUnderDelivery(cfg);
    } else if cfg.smallest < cfg.largest {
      var s := BufferTooSmall(cfg);
    } else {
      forall s | Reachable(cfg, s) ensures !s.crashed {
        ReachableInv(cfg, s);
      }
    }
  }
}
