/**
 PCB.Write, PCB.Close, the processing loop and the acknowledgement callback of lwipcs.go, interleaved one statement
 at a time over one TCP connection of TcpModel.  Entries that other PCBs put into the shared send queue appear as
 Foreign.  Any number of goroutines may close; a Config names those that may write.
 */
module WriteProtocol {
  import opened Common
  import opened Paths
  import T = TcpModel

  /** One call of Write; the number tells calls with equal data apart. */
  datatype Write = Write(id: nat, b: Bytes)

  datatype Item = Mine(w: Write) | Foreign

  /** The statement a writing or closing goroutine executes next. */
  datatype Goroutine =
    | Idle
    | WriteTest(w: Write)    // is the PCB open?
    | WriteLock(w: Write)    // p.lck.Lock()
    | WritePut(w: Write)     // sendQueue <- entry
    | WriteWait(w: Write)    // <-p.sendWait
    | WriteUnlock(w: Write)  // p.lck.Unlock()
    | WriteReturn(w: Write)  // err = p.err; return
    | CloseLock              // p.lck.Lock()
    | CloseTest              // is the PCB closed already?
    | CloseErr               // p.err = closed
    | CloseChan              // close(p.sendWait)
    | CloseUnlock            // p.lck.Unlock()

  /** The statement the processing loop executes next; peer: the close comes from the peer's end, not from an error. */
  datatype Proc =
    | Select
    | SendTest(w: Write)     // is the PCB closed meanwhile?
    | SendCount(w: Write)    // s.PCB.sendCount++
    | SendCall(w: Write)     // tcpSend
    | DoneTest               // is the PCB known and open?
    | DoneCheck              // count the entry off, if one is counted
    | DonePut                //   pcb.sendWait <- 1
    | EndLookup(peer: bool)  // pcb = tcpPcbs[state], delete
    | EndLock(peer: bool)    // close(): as in the goroutines
    | EndTest(peer: bool)
    | EndErr(peer: bool)
    | EndChan(peer: bool)
    | EndUnlock(peer: bool)
    | EndFree(peer: bool)    // back in C: free the state

  datatype Holder = ByGo(t: Tid) | ByProc

  const QUEUE_CAPACITY := 1024

  /**
   The PCB, the queue, the connection and the loop, with histories: the Writes in the order in which they won the
   lock, those that received a token, those that returned nil or an error; whether a tcpSend failed (lost), whether
   a channel was closed twice or sent to after its close (panicked), and the events the connection has seen.
   */
  datatype Core = Core(
    err: bool,
    sendCount: nat,
    wait: nat,
    waitClosed: bool,
    lock: Option<Holder>,
    registered: bool,
    queue: seq<Item>,
    conn: T.Conn,
    proc: Proc,
    next: nat,
    locked: seq<Write>,
    served: seq<Write>,
    nilReturned: set<Write>,
    failed: set<Write>,
    lost: bool,
    panicked: bool,
    events: seq<T.Event>)

  datatype State = State(core: Core, go: map<Tid, Goroutine>)

  /** longest: the most bytes that a caller of Write passes. */
  datatype Config = Config(writers: set<Tid>, answers: T.Answers, room: nat, longest: nat)

  datatype Event =
    | CallWrite(t: Tid, b: Bytes)
    | CallClose(t: Tid)
    | Run(t: Tid)
    | ForeignPut
    | ProcTake
    | ProcRun(alloc: bool)  // alloc: pbuf_alloc succeeds, should this step need it
    | OnSent(room: nat)
    | OnPoll(room: nat)
    | OnData
    | OnClose(peer: bool)

  function At(s: State, t: Tid): Goroutine {
    if t in s.go then s.go[t] else Idle
  }

  function Init(cfg: Config): State {
    State(Core(false, 0, 0, false, None, true, [], T.Accept(cfg.room), Select, 0, [], [], {}, {}, false, false, []),
          map[])
  }

  predicate GoBlocked(c: Core, g: Goroutine) {
    match g
    case WriteLock(_) => c.lock != None
    case CloseLock => c.lock != None
    case WritePut(_) => |c.queue| >= QUEUE_CAPACITY
    case WriteWait(_) => c.wait == 0 && !c.waitClosed
    case _ => false
  }

  predicate ProcBlocked(c: Core) {
    match c.proc
    case EndLock(_) => c.lock != None
    case DonePut => c.wait >= 1 && !c.waitClosed
    case _ => false
  }

  function GoEffect(c: Core, t: Tid, g: Goroutine): (Core, Goroutine)
    requires g != Idle && !GoBlocked(c, g)
  {
    match g
    case WriteTest(w) => (c, if !c.err then WriteLock(w) else WriteReturn(w))
    case WriteLock(w) => (c.(lock := Some(ByGo(t)), locked := c.locked + [w]), WritePut(w))
    case WritePut(w) => (c.(queue := c.queue + [Mine(w)]), WriteWait(w))
    case WriteWait(w) =>
      (if c.wait > 0 then c.(wait := c.wait - 1, served := c.served + [w]) else c, WriteUnlock(w))
    case WriteUnlock(w) => (c.(lock := None), WriteReturn(w))
    case WriteReturn(w) =>
      (if c.err then c.(failed := c.failed + {w}) else c.(nilReturned := c.nilReturned + {w}), Idle)
    case CloseLock => (c.(lock := Some(ByGo(t))), CloseTest)
    case CloseTest => (c, if c.err then CloseUnlock else CloseErr)
    case CloseErr => (c.(err := true), CloseChan)
    case CloseChan => (c.(waitClosed := true, panicked := c.panicked || c.waitClosed), CloseUnlock)
    case CloseUnlock => (c.(lock := None), Idle)
  }

  /** The event that a step of the loop brings to the connection, if any. */
  function Fed(c: Core, e: Event): Option<T.Event> {
    match e
    case ProcRun(alloc) =>
      (match c.proc
       case SendCall(w) => Some(T.AppSend(w.b, alloc))
       case EndFree(peer) => Some(if peer then T.EndCallback else T.ErrorCallback)
       case _ => None)
    case OnSent(room) => Some(T.SentCallback(room))
    case OnPoll(room) => Some(T.PollCallback(room))
    case OnData => Some(T.DataCallback)
    case _ => None
  }

  /** What the loop's own statement does beside that; accepted: tcpSend returned 0, should this be its call. */
  function ProcEffect(c: Core, accepted: bool): Core
    requires c.proc != Select && !ProcBlocked(c)
  {
    match c.proc
    case SendTest(w) => c.(proc := if c.err then Select else SendCount(w))
    case SendCount(w) => c.(sendCount := c.sendCount + 1, proc := SendCall(w))
    case SendCall(w) => c.(proc := Select, lost := c.lost || !accepted)
    case DoneTest => c.(proc := if !c.registered || c.err then Select else DoneCheck)
    case DoneCheck => if c.sendCount > 0 then c.(sendCount := c.sendCount - 1, proc := DonePut) else c.(proc := Select)
    case DonePut => c.(wait := c.wait + 1, panicked := c.panicked || c.waitClosed, proc := Select)
    case EndLookup(peer) =>
      if c.registered then c.(registered := false, proc := EndLock(peer)) else c.(proc := EndFree(peer))
    case EndLock(peer) => c.(lock := Some(ByProc), proc := EndTest(peer))
    case EndTest(peer) => c.(proc := if c.err then EndUnlock(peer) else EndErr(peer))
    case EndErr(peer) => c.(err := true, proc := EndChan(peer))
    case EndChan(peer) => c.(waitClosed := true, panicked := c.panicked || c.waitClosed, proc := EndUnlock(peer))
    case EndUnlock(peer) => c.(lock := None, proc := EndFree(peer))
    case EndFree(peer) => c.(proc := Select)
  }

  /** A loop step that may happen.  lwIP reports only new acknowledgements, so no more often than it took bytes. */
  predicate LoopEvent(c: Core, e: Event) {
    && !e.CallWrite? && !e.CallClose? && !e.Run?
    && (e.ForeignPut? ==> |c.queue| < QUEUE_CAPACITY)
    && (e.ProcRun? ==> c.proc != Select && !ProcBlocked(c))
    && (e.ProcTake? ==> c.queue != [] && c.proc == Select)
    && (e.OnSent? || e.OnPoll? || e.OnData? || e.OnClose? ==> c.proc == Select && c.conn.live)
    && (e.OnSent? ==> T.Acks(c.events) < |c.conn.sent|)
  }

  function Shell(c: Core, e: Event, accepted: bool): Core
    requires LoopEvent(c, e)
  {
    match e
    case ForeignPut => c.(queue := c.queue + [Foreign])
    case ProcTake => c.(queue := c.queue[1..], proc := if c.queue[0].Mine? then SendTest(c.queue[0].w) else Select)
    case ProcRun(_) => ProcEffect(c, accepted)
    case OnSent(_) => c.(proc := if c.conn.pending == [] then DoneTest else Select)
    case OnClose(peer) => c.(proc := EndLookup(peer))
    case _ => c
  }

  /** tcpSend returns 0: the connection is there, nothing is pending, and there is memory for the pbufs. */
  function Accepted(cfg: Config, c: Core, e: Event): bool {
    e.ProcRun? && c.proc.SendCall? && c.conn.live && T.CharSend(c.conn, cfg.answers, c.proc.w.b, e.alloc).1 == 0
  }

  /** The connection after a step of the loop, and what it has seen by then. */
  function ConnAfter(cfg: Config, c: Core, e: Event): T.Conn {
    match Fed(c, e)
    case None => c.conn
    case Some(fed) => T.Step(c.conn, cfg.answers, fed)
  }

  function EventsAfter(c: Core, e: Event): seq<T.Event> {
    match Fed(c, e)
    case None => c.events
    case Some(fed) => c.events + [fed]
  }

  function LoopEffect(cfg: Config, c: Core, e: Event): Core
    requires LoopEvent(c, e)
  {
    Shell(c, e, Accepted(cfg, c, e)).(conn := ConnAfter(cfg, c, e), events := EventsAfter(c, e))
  }

  predicate Enabled(cfg: Config, s: State, e: Event) {
    match e
    case CallWrite(t, b) => At(s, t) == Idle && t in cfg.writers && 1 <= |b| <= cfg.longest
    case CallClose(t) => At(s, t) == Idle
    case Run(t) => At(s, t) != Idle && !GoBlocked(s.core, At(s, t))
    case _ => LoopEvent(s.core, e)
  }

  function Next(cfg: Config, s: State, e: Event): State
    requires Enabled(cfg, s, e)
  {
    match e
    case CallWrite(t, b) =>
      State(s.core.(next := s.core.next + 1), s.go[t := WriteTest(Write(s.core.next, b))])
    case CallClose(t) => s.(go := s.go[t := CloseLock])
    case Run(t) =>
      var (core, g) := GoEffect(s.core, t, At(s, t));
      State(core, s.go[t := g])
    case _ => s.(core := LoopEffect(cfg, s.core, e))
  }

  /** An enabled event and where it leads. */
  function StepOf(cfg: Config): (State, Event, State) -> bool {
    (s: State, e: Event, s': State) => Enabled(cfg, s, e) && s' == Next(cfg, s, e)
  }

  ghost predicate Reachable(cfg: Config, s: State) {
    Reaches(StepOf(cfg), Init(cfg), s)
  }

  // ---------------------------------------------------------------- the invariant

  /** In a call of Write. */
  predicate Writing(g: Goroutine) {
    g.WriteTest? || g.WriteLock? || g.WritePut? || g.WriteWait? || g.WriteUnlock? || g.WriteReturn?
  }

  predicate GoHolds(g: Goroutine) {
    g.WritePut? || g.WriteWait? || g.WriteUnlock? || g.CloseTest? || g.CloseErr? || g.CloseChan? || g.CloseUnlock?
  }

  predicate ProcHolds(p: Proc) {
    p.EndTest? || p.EndErr? || p.EndChan? || p.EndUnlock?
  }

  predicate Ending(p: Proc) {
    p.EndLookup? || p.EndLock? || p.EndFree? || ProcHolds(p)
  }

  /** The statement of the goroutine that holds the lock, Idle if none does. */
  function HolderPc(s: State): Goroutine {
    if s.core.lock.Some? && s.core.lock.value.ByGo? then At(s, s.core.lock.value.t) else Idle
  }

  ghost predicate LockFacts(s: State) {
    && (forall t: Tid :: GoHolds(At(s, t)) <==> s.core.lock == Some(ByGo(t)))
    && (ProcHolds(s.core.proc) <==> s.core.lock == Some(ByProc))
  }

  /** p.err is set before the channel is closed, both under the lock, and neither twice. */
  predicate CloseFacts(c: Core, h: Goroutine) {
    && (c.waitClosed ==> c.err)
    && (c.err && !c.waitClosed <==> h.CloseChan? || c.proc.EndChan?)
    && (h.CloseErr? || c.proc.EndErr? ==> !c.err)
    && (h.CloseUnlock? || c.proc.EndUnlock? ==> c.err)
    && !c.panicked
  }

  /** The connection's part of the run is a run of TcpModel. */
  predicate ConnIsRun(cfg: Config, c: Core) {
    c.conn == T.Run(T.Accept(cfg.room), cfg.answers, c.events)
  }

  /** When the map knows the PCB and when the C state is there. */
  predicate LifeFacts(c: Core) {
    && (Ending(c.proc) ==> c.conn.live)
    && (c.registered <==> c.conn.live && (!Ending(c.proc) || c.proc.EndLookup?))
    && (c.proc.EndChan? || c.proc.EndUnlock? || c.proc.EndFree? || !c.conn.live ==> c.err)
  }

  function CountMine(q: seq<Item>): nat {
    if q == [] then 0 else CountMine(q[..|q| - 1]) + if q[|q| - 1].Mine? then 1 else 0
  }

  /** Everything that stands for one Write on its way: entry, entry in hand, unacknowledged send, token. */
  function Units(c: Core): nat {
    CountMine(c.queue) + (if c.proc.SendTest? || c.proc.SendCount? then 1 else 0) + c.sendCount +
    (if c.proc.DonePut? then 1 else 0) + c.wait
  }

  predicate TokenFacts(c: Core, h: Goroutine) {
    && (!c.err ==> Units(c) == if h.WriteWait? then 1 else 0)
    && (c.err ==> c.sendCount == 0 && c.wait == 0 && !c.proc.SendCount? && !c.proc.SendCall? && !c.proc.DonePut?)
    && (c.proc.SendCall? ==> c.sendCount == 1)
  }

  /** What is on its way is the Write of the goroutine that waits under the lock. */
  predicate MineFacts(c: Core, h: Goroutine) {
    !c.err ==>
      && (forall i :: 0 <= i < |c.queue| && c.queue[i].Mine? ==> h == WriteWait(c.queue[i].w))
      && (c.proc.SendTest? || c.proc.SendCount? || c.proc.SendCall? ==> h == WriteWait(c.proc.w))
  }

  /** A chain is pending only between the call that built it and its acknowledgement, so no close ever drops one. */
  predicate PendingFacts(c: Core, h: Goroutine) {
    && c.conn.dropped == []
    && (c.conn.pending != [] ==> c.sendCount == 1 && h.WriteWait? &&
                                 (c.proc.Select? || c.proc.EndLookup? || c.proc.EndLock?))
    && (c.conn.pending != [] ==> |Flatten(c.conn.pending)| <= |T.Truncated(h.w.b)|)
  }

  /** What C took of these Writes. */
  function Bodies(ws: seq<Write>): Bytes {
    if ws == [] then [] else Bodies(ws[..|ws| - 1]) + T.Truncated(ws[|ws| - 1].b)
  }

  /** The Write under the lock has been handed to C. */
  predicate HandedOver(c: Core) {
    c.wait == 1 || c.proc.DonePut? || (c.sendCount == 1 && !c.proc.SendCall?)
  }

  predicate StreamFacts(c: Core, h: Goroutine) {
    !c.lost ==> c.conn.taken == Bodies(c.served) + if h.WriteWait? && HandedOver(c) then T.Truncated(h.w.b) else []
  }

  /** Tokens are received in lock order. */
  predicate OrderFacts(c: Core, h: Goroutine) {
    && c.served <= c.locked
    && (!c.err ==> c.locked == c.served + if h.WritePut? || h.WriteWait? then [h.w] else [])
  }

  ghost predicate ReturnFacts(s: State) {
    && (!s.core.err ==> forall t: Tid :: At(s, t).WriteUnlock? || At(s, t).WriteReturn? ==> At(s, t).w in s.core.served)
    && (forall w :: w in s.core.nilReturned ==> w in s.core.served)
    && (s.core.failed != {} ==> s.core.err)
  }

  predicate CoreFacts(cfg: Config, c: Core, h: Goroutine) {
    CloseFacts(c, h) && ConnIsRun(cfg, c) && LifeFacts(c) && TokenFacts(c, h) && MineFacts(c, h) &&
    PendingFacts(c, h) && StreamFacts(c, h) && OrderFacts(c, h)
  }

  ghost predicate Inv(cfg: Config, s: State) {
    LockFacts(s) && CoreFacts(cfg, s.core, HolderPc(s)) && ReturnFacts(s)
  }

  // ---------------------------------------------------------------- a goroutine's step

  /** The pc of the lock's holder after the step of a goroutine that goes from g to g'. */
  function HolderAfter(h: Goroutine, g: Goroutine, g': Goroutine): Goroutine {
    if GoHolds(g') then g' else if GoHolds(g) then Idle else h
  }

  /** c, h and the pc g of goroutine t agree on who holds the lock. */
  predicate Agree(c: Core, h: Goroutine, t: Tid, g: Goroutine) {
    && (GoHolds(g) ==> h == g && c.lock == Some(ByGo(t)))
    && (if c.lock.Some? && c.lock.value.ByGo? then GoHolds(h) else h == Idle)
    && (ProcHolds(c.proc) <==> c.lock == Some(ByProc))
  }

  lemma CountMineAppend(q: seq<Item>, x: Item)
    ensures CountMine(q + [x]) == CountMine(q) + if x.Mine? then 1 else 0
  {
    assert (q + [x])[..|q + [x]| - 1] == q;
  }

  lemma {:induction false} CountMineTail(q: seq<Item>)
    requires q != []
    ensures CountMine(q) == CountMine(q[1..]) + if q[0].Mine? then 1 else 0
  {
    if |q| > 1 {
      CountMineTail(q[..|q| - 1]);
      assert q[1..][..|q[1..]| - 1] == q[..|q| - 1][1..];
    }
  }

  lemma {:induction false} CountMineSome(q: seq<Item>, i: nat)
    requires i < |q| && q[i].Mine?
    ensures CountMine(q) > 0
  {
    if i < |q| - 1 {
      CountMineSome(q[..|q| - 1], i);
    }
  }

  lemma BodiesAppend(ws: seq<Write>, w: Write)
    ensures Bodies(ws + [w]) == Bodies(ws) + T.Truncated(w.b)
  {
    assert (ws + [w])[..|ws + [w]| - 1] == ws;
  }

  lemma GoKeepsClose(c: Core, h: Goroutine, t: Tid, g: Goroutine)
    requires CloseFacts(c, h) && OrderFacts(c, h) && g != Idle && !GoBlocked(c, g) && Agree(c, h, t, g)
    requires TokenFacts(c, h)
    ensures var (c', g') := GoEffect(c, t, g);
            CloseFacts(c', HolderAfter(h, g, g')) && OrderFacts(c', HolderAfter(h, g, g'))
  {
  }

  lemma NoneMine(q: seq<Item>)
    requires CountMine(q) == 0
    ensures forall i :: 0 <= i < |q| ==> !q[i].Mine?
  {
    if i :| 0 <= i < |q| && q[i].Mine? {
      CountMineSome(q, i);
    }
  }

  lemma GoKeepsTokens(c: Core, h: Goroutine, t: Tid, g: Goroutine)
    requires TokenFacts(c, h) && g != Idle && !GoBlocked(c, g) && Agree(c, h, t, g)
    requires g.WriteWait? && c.waitClosed ==> c.err
    ensures var (c', g') := GoEffect(c, t, g); TokenFacts(c', HolderAfter(h, g, g'))
  {
    if g.WritePut? {
      CountMineAppend(c.queue, Mine(g.w));
    }
  }

  lemma GoKeepsMine(c: Core, h: Goroutine, t: Tid, g: Goroutine)
    requires TokenFacts(c, h) && MineFacts(c, h) && g != Idle && !GoBlocked(c, g) && Agree(c, h, t, g)
    requires g.WriteWait? && c.waitClosed ==> c.err
    ensures var (c', g') := GoEffect(c, t, g); MineFacts(c', HolderAfter(h, g, g'))
  {
    if CountMine(c.queue) == 0 {
      NoneMine(c.queue);
    }
  }

  lemma GoKeepsStream(c: Core, h: Goroutine, t: Tid, g: Goroutine)
    requires StreamFacts(c, h) && PendingFacts(c, h) && TokenFacts(c, h)
    requires g != Idle && !GoBlocked(c, g) && Agree(c, h, t, g)
    requires g.WriteWait? && c.waitClosed ==> c.err
    ensures var (c', g') := GoEffect(c, t, g);
            StreamFacts(c', HolderAfter(h, g, g')) && PendingFacts(c', HolderAfter(h, g, g'))
  {
    if g.WriteWait? {
      BodiesAppend(c.served, g.w);
    }
  }

  // ---------------------------------------------------------------- a step of the loop

  /** The loop does not touch the histories of the Writes, and an error stays. */
  predicate SameWrites(c: Core, c': Core) {
    && c'.next == c.next && c'.locked == c.locked && c'.served == c.served
    && c'.nilReturned == c.nilReturned && c'.failed == c.failed
    && (c.err ==> c'.err)
  }

  /** The loop's own statement touches neither the queue nor, beyond the send in hand, the Write it stands for. */
  predicate SameEntries(c: Core, c': Core) {
    && c'.queue == c.queue
    && (c'.proc.SendTest? || c'.proc.SendCount? || c'.proc.SendCall? ==>
          (c.proc.SendTest? || c.proc.SendCount?) && c'.proc.w == c.proc.w)
  }

  lemma ProcSpares(c: Core, accepted: bool)
    requires c.proc != Select && !ProcBlocked(c)
    ensures SameWrites(c, ProcEffect(c, accepted))
  {
  }

  lemma ProcSparesEntries(c: Core, accepted: bool)
    requires c.proc != Select && !ProcBlocked(c)
    ensures SameEntries(c, ProcEffect(c, accepted))
  {
  }

  lemma ProcKeepsClose(c: Core, h: Goroutine, accepted: bool)
    requires CloseFacts(c, h) && Agree(c, h, 0, Idle) && c.proc != Select && !ProcBlocked(c)
    requires c.err ==> !c.proc.DonePut?
    ensures CloseFacts(ProcEffect(c, accepted), h)
  {
  }

  lemma ProcKeepsOrder(c: Core, h: Goroutine, accepted: bool)
    requires OrderFacts(c, h) && c.proc != Select && !ProcBlocked(c)
    ensures OrderFacts(ProcEffect(c, accepted), h)
  {
    ProcSpares(c, accepted);
    SameOrder(c, ProcEffect(c, accepted), h);
  }

  lemma SameOrder(c: Core, c': Core, h: Goroutine)
    requires OrderFacts(c, h) && SameWrites(c, c')
    ensures OrderFacts(c', h)
  {
  }

  lemma ShellKeepsClose(c: Core, h: Goroutine, e: Event, accepted: bool)
    requires CloseFacts(c, h) && OrderFacts(c, h) && Agree(c, h, 0, Idle) && LoopEvent(c, e)
    requires c.err ==> !c.proc.DonePut?
    ensures CloseFacts(Shell(c, e, accepted), h) && OrderFacts(Shell(c, e, accepted), h)
  {
    if e.ProcRun? {
      ProcKeepsClose(c, h, accepted);
      ProcKeepsOrder(c, h, accepted);
    } else {
      var c' := Shell(c, e, accepted);
      assert c'.served == c.served && c'.locked == c.locked && c'.err == c.err;
    }
  }

  lemma ProcKeepsTokens(c: Core, h: Goroutine, accepted: bool)
    requires TokenFacts(c, h) && Agree(c, h, 0, Idle) && c.proc != Select && !ProcBlocked(c)
    ensures TokenFacts(ProcEffect(c, accepted), h)
  {
  }

  lemma ShellKeepsTokens(c: Core, h: Goroutine, e: Event, accepted: bool)
    requires TokenFacts(c, h) && Agree(c, h, 0, Idle) && LoopEvent(c, e)
    ensures TokenFacts(Shell(c, e, accepted), h)
  {
    if e.ProcRun? {
      ProcKeepsTokens(c, h, accepted);
    } else if e.ForeignPut? {
      CountMineAppend(c.queue, Foreign);
    } else if e.ProcTake? {
      CountMineTail(c.queue);
    }
  }

  lemma ProcKeepsMine(c: Core, h: Goroutine, accepted: bool)
    requires MineFacts(c, h) && c.proc != Select && !ProcBlocked(c)
    ensures MineFacts(ProcEffect(c, accepted), h)
  {
    ProcSpares(c, accepted);
    ProcSparesEntries(c, accepted);
    SameMine(c, ProcEffect(c, accepted), h);
  }

  lemma SameMine(c: Core, c': Core, h: Goroutine)
    requires MineFacts(c, h) && SameWrites(c, c') && SameEntries(c, c')
    ensures MineFacts(c', h)
  {
  }

  lemma ShellKeepsMine(c: Core, h: Goroutine, e: Event, accepted: bool)
    requires MineFacts(c, h) && LoopEvent(c, e)
    ensures MineFacts(Shell(c, e, accepted), h)
  {
    if e.ProcRun? {
      ProcKeepsMine(c, h, accepted);
    }
  }

  // ---------------------------------------------------------------- the connection under the loop

  lemma RunGrows(cfg: Config, events: seq<T.Event>, e: T.Event)
    ensures T.Run(T.Accept(cfg.room), cfg.answers, events + [e]) ==
            T.Step(T.Run(T.Accept(cfg.room), cfg.answers, events), cfg.answers, e)
  {
    assert (events + [e])[..|events + [e]| - 1] == events;
  }

  /** The connection facts that TcpModel proves of its runs. */
  lemma ConnFacts(cfg: Config, c: Core)
    requires ConnIsRun(cfg, c)
    ensures T.Lifecycle(c.conn) && T.Conserved(c.conn)
  {
    T.LifecycleHolds(cfg.answers, cfg.room, c.events);
    T.BytesAreConserved(cfg.answers, cfg.room, c.events);
  }

  /** Only the end of the processing of a close makes a connection dead. */
  lemma StepLife(conn: T.Conn, answers: T.Answers, e: T.Event)
    requires conn.live ==> conn.phase != T.Closing
    ensures T.Step(conn, answers, e).live <==> conn.live && !e.EndCallback? && !e.ErrorCallback?
  {
  }

  /** The step of the loop that ends a connection's life. */
  predicate Frees(c: Core, e: Event) {
    c.proc.EndFree? && e.ProcRun?
  }

  lemma ProcKeepsLife(c: Core, accepted: bool, conn: T.Conn)
    requires LifeFacts(c) && c.proc != Select && !ProcBlocked(c)
    requires conn.live == (c.conn.live && !c.proc.EndFree?)
    ensures LifeFacts(ProcEffect(c, accepted).(conn := conn))
  {
    if Ending(c.proc) {
      EndKeepsLife(c, accepted, conn);
    }
  }

  lemma EndKeepsLife(c: Core, accepted: bool, conn: T.Conn)
    requires LifeFacts(c) && Ending(c.proc) && !ProcBlocked(c)
    requires conn.live == (c.conn.live && !c.proc.EndFree?)
    ensures LifeFacts(ProcEffect(c, accepted).(conn := conn))
  {
    var c' := ProcEffect(c, accepted);
    match c.proc {
      case EndLookup(_) => assert c.registered && c'.proc.EndLock?;
      case EndTest(_) => assert c'.proc.EndUnlock? || c'.proc.EndErr?;
      case EndFree(_) => assert c'.proc.Select?;
      case _ =>
    }
  }

  lemma ShellKeepsLife(c: Core, e: Event, accepted: bool, conn: T.Conn)
    requires LifeFacts(c) && LoopEvent(c, e) && conn.live == (c.conn.live && !Frees(c, e))
    ensures LifeFacts(Shell(c, e, accepted).(conn := conn))
  {
    if e.ProcRun? {
      ProcKeepsLife(c, accepted, conn);
    }
  }

  lemma ConnKept(cfg: Config, c: Core, e: Event)
    requires ConnIsRun(cfg, c)
    ensures ConnAfter(cfg, c, e) == T.Run(T.Accept(cfg.room), cfg.answers, EventsAfter(c, e))
  {
    if Fed(c, e).Some? {
      RunGrows(cfg, c.events, Fed(c, e).value);
    }
  }

  lemma ConnLives(cfg: Config, c: Core, e: Event)
    requires T.Lifecycle(c.conn)
    ensures ConnAfter(cfg, c, e).live == (c.conn.live && !Frees(c, e))
  {
    assert Frees(c, e) <==> Fed(c, e).Some? && (Fed(c, e).value.EndCallback? || Fed(c, e).value.ErrorCallback?);
    if Fed(c, e).Some? {
      StepLife(c.conn, cfg.answers, Fed(c, e).value);
    }
  }

  /** A turn of the send loop only shortens the chain. */
  lemma DrainShortens(conn: T.Conn, answers: T.Answers)
    ensures |Flatten(T.Drain(conn, answers).pending)| <= |Flatten(conn.pending)|
    ensures conn.pending == [] ==> T.Drain(conn, answers).pending == []
    ensures T.Drain(conn, answers).taken == conn.taken
  {
    T.DrainHandsOver(conn, answers);
    FlattenSplit(conn.pending, T.Handed(conn, answers));
  }

  /** Only a close drops bytes, and then those that were pending. */
  lemma StepDrops(conn: T.Conn, answers: T.Answers, e: T.Event)
    requires conn.live ==> conn.phase != T.Closing
    requires e.EndCallback? || e.ErrorCallback? ==> conn.pending == []
    ensures T.Step(conn, answers, e).dropped == conn.dropped
  {
  }

  /** An event other than a send takes nothing and only shortens the chain. */
  lemma CallbackShortens(conn: T.Conn, answers: T.Answers, e: T.Event)
    requires !e.AppSend?
    ensures var conn' := T.Step(conn, answers, e);
            && conn'.taken == conn.taken
            && (conn.pending == [] ==> conn'.pending == [])
            && |Flatten(conn'.pending)| <= |Flatten(conn.pending)|
  {
    match e {
      case SentCallback(room) => DrainShortens(conn.(room := room), answers);
      case PollCallback(room) => DrainShortens(conn.(room := room), answers);
      case _ =>
    }
  }

  /** A send into a connection with nothing pending takes all of the (truncated) buffer or nothing. */
  lemma SendTakes(conn: T.Conn, answers: T.Answers, b: Bytes, alloc: bool)
    requires conn.live && conn.pending == []
    ensures var conn' := T.Step(conn, answers, T.AppSend(b, alloc));
            && T.CharSend(conn, answers, b, alloc).1 == (if alloc then 0 else 1)
            && conn'.taken == conn.taken + (if alloc then T.Truncated(b) else [])
            && |Flatten(conn'.pending)| <= |T.Truncated(b)|
            && (!alloc ==> conn'.pending == [])
  {
    if alloc {
      T.ChunksAreTheBuffer(T.Truncated(b));
      DrainShortens(conn.(pending := T.Chunks(T.Truncated(b)), taken := conn.taken + T.Truncated(b)), answers);
    }
  }

  /** The step of the loop that calls tcpSend. */
  predicate Sends(c: Core, e: Event) {
    c.proc.SendCall? && e.ProcRun?
  }

  /** conn' is what a step other than a send may make of conn. */
  predicate Shortened(conn: T.Conn, conn': T.Conn) {
    && conn'.taken == conn.taken
    && (conn.pending == [] ==> conn'.pending == [])
    && |Flatten(conn'.pending)| <= |Flatten(conn.pending)|
  }

  lemma ProcKeepsStream(c: Core, h: Goroutine, accepted: bool, conn': T.Conn)
    requires TokenFacts(c, h) && PendingFacts(c, h) && StreamFacts(c, h) && Agree(c, h, 0, Idle)
    requires c.proc != Select && !ProcBlocked(c) && !c.proc.SendCall? && Shortened(c.conn, conn')
    ensures StreamFacts(ProcEffect(c, accepted).(conn := conn'), h)
  {
    ProcSpares(c, accepted);
    ProcHandsOver(c, h, accepted);
    SameStream(c, ProcEffect(c, accepted), h, conn');
  }

  lemma ProcHandsOver(c: Core, h: Goroutine, accepted: bool)
    requires TokenFacts(c, h) && Agree(c, h, 0, Idle) && c.proc != Select && !ProcBlocked(c) && !c.proc.SendCall?
    ensures ProcEffect(c, accepted).lost == c.lost
    ensures h.WriteWait? ==> HandedOver(ProcEffect(c, accepted)) == HandedOver(c)
  {
    if !c.proc.SendCount? && !c.proc.DoneCheck? && !c.proc.DonePut? {
      ProcSparesTokens(c, accepted);
    }
  }

  lemma ProcSparesTokens(c: Core, accepted: bool)
    requires c.proc != Select && !ProcBlocked(c)
    requires !c.proc.SendCall? && !c.proc.SendCount? && !c.proc.DoneCheck? && !c.proc.DonePut?
    ensures var c' := ProcEffect(c, accepted);
            && c'.lost == c.lost && c'.wait == c.wait && c'.sendCount == c.sendCount
            && !c'.proc.DonePut? && !c'.proc.SendCall?
  {
    match c.proc
    case SendTest(_) =>
    case DoneTest =>
    case EndLookup(_) =>
    case EndLock(_) =>
    case EndTest(_) =>
    case EndErr(_) =>
    case EndChan(_) =>
    case EndUnlock(_) =>
    case EndFree(_) =>
  }

  lemma SameStream(c: Core, c': Core, h: Goroutine, conn': T.Conn)
    requires StreamFacts(c, h) && SameWrites(c, c') && c'.lost == c.lost && conn'.taken == c.conn.taken
    requires h.WriteWait? ==> HandedOver(c') == HandedOver(c)
    ensures StreamFacts(c'.(conn := conn'), h)
  {
  }

  lemma ProcKeepsPending(c: Core, h: Goroutine, accepted: bool, conn': T.Conn)
    requires TokenFacts(c, h) && PendingFacts(c, h) && Agree(c, h, 0, Idle)
    requires c.proc != Select && !ProcBlocked(c) && !c.proc.SendCall? && Shortened(c.conn, conn') && conn'.dropped == []
    requires c.proc.EndLookup? ==> c.registered
    ensures PendingFacts(ProcEffect(c, accepted).(conn := conn'), h)
  {
  }

  lemma CallbackKeepsStream(c: Core, h: Goroutine, e: Event, accepted: bool, conn': T.Conn)
    requires TokenFacts(c, h) && PendingFacts(c, h) && StreamFacts(c, h) && Agree(c, h, 0, Idle)
    requires LoopEvent(c, e) && !Sends(c, e) && Shortened(c.conn, conn') && conn'.dropped == []
    requires c.proc.EndLookup? ==> c.registered
    ensures var c' := Shell(c, e, accepted).(conn := conn'); PendingFacts(c', h) && StreamFacts(c', h)
  {
    if e.ProcRun? {
      ProcKeepsStream(c, h, accepted, conn');
      ProcKeepsPending(c, h, accepted, conn');
    } else if e.ProcTake? {
      CountMineTail(c.queue);
    }
  }

  lemma SendKeepsStream(c: Core, h: Goroutine, e: Event, accepted: bool, conn': T.Conn)
    requires TokenFacts(c, h) && MineFacts(c, h) && PendingFacts(c, h) && StreamFacts(c, h) && LoopEvent(c, e)
    requires Sends(c, e)
    requires conn'.taken == c.conn.taken + (if accepted then T.Truncated(c.proc.w.b) else [])
    requires |Flatten(conn'.pending)| <= |T.Truncated(c.proc.w.b)| && conn'.dropped == []
    ensures var c' := Shell(c, e, accepted).(conn := conn'); PendingFacts(c', h) && StreamFacts(c', h)
  {
  }

  // ---------------------------------------------------------------- every step

  lemma LoopKeepsFacts(cfg: Config, c: Core, h: Goroutine, e: Event)
    requires CoreFacts(cfg, c, h) && Agree(c, h, 0, Idle) && LoopEvent(c, e)
    ensures CoreFacts(cfg, LoopEffect(cfg, c, e), h)
  {
    var accepted, conn' := Accepted(cfg, c, e), ConnAfter(cfg, c, e);
    ConnFacts(cfg, c);
    ConnKept(cfg, c, e);
    ConnLives(cfg, c, e);
    ShellKeepsClose(c, h, e, accepted);
    ShellKeepsTokens(c, h, e, accepted);
    ShellKeepsMine(c, h, e, accepted);
    ShellKeepsLife(c, e, accepted, conn');
    ConnKeepsStream(cfg, c, h, e);
    Assemble(cfg, Shell(c, e, accepted), h, conn', EventsAfter(c, e));
  }

  lemma ConnKeepsStream(cfg: Config, c: Core, h: Goroutine, e: Event)
    requires CoreFacts(cfg, c, h) && Agree(c, h, 0, Idle) && LoopEvent(c, e)
    ensures var c' := Shell(c, e, Accepted(cfg, c, e)).(conn := ConnAfter(cfg, c, e));
            PendingFacts(c', h) && StreamFacts(c', h)
  {
    var accepted, conn' := Accepted(cfg, c, e), ConnAfter(cfg, c, e);
    ConnFacts(cfg, c);
    if Fed(c, e).Some? {
      StepDrops(c.conn, cfg.answers, Fed(c, e).value);
    }
    if Sends(c, e) {
      SendTakes(c.conn, cfg.answers, c.proc.w.b, e.alloc);
      SendKeepsStream(c, h, e, accepted, conn');
    } else {
      assert Shortened(c.conn, conn') by {
        if Fed(c, e).Some? {
          CallbackShortens(c.conn, cfg.answers, Fed(c, e).value);
        }
      }
      CallbackKeepsStream(c, h, e, accepted, conn');
    }
  }

  /** The facts about the PCB do not look at the connection, the facts about the connection only at it. */
  lemma Assemble(cfg: Config, c: Core, h: Goroutine, conn: T.Conn, events: seq<T.Event>)
    requires CloseFacts(c, h) && TokenFacts(c, h) && MineFacts(c, h) && OrderFacts(c, h)
    requires LifeFacts(c.(conn := conn)) && PendingFacts(c.(conn := conn), h) && StreamFacts(c.(conn := conn), h)
    requires conn == T.Run(T.Accept(cfg.room), cfg.answers, events)
    ensures CoreFacts(cfg, c.(conn := conn, events := events), h)
  {
  }

  lemma GoKeepsFacts(cfg: Config, c: Core, h: Goroutine, t: Tid, g: Goroutine)
    requires CoreFacts(cfg, c, h) && g != Idle && !GoBlocked(c, g) && Agree(c, h, t, g)
    ensures var (c', g') := GoEffect(c, t, g); CoreFacts(cfg, c', HolderAfter(h, g, g'))
  {
    GoKeepsClose(c, h, t, g);
    GoKeepsTokens(c, h, t, g);
    GoKeepsMine(c, h, t, g);
    GoKeepsStream(c, h, t, g);
    GoSparesLoop(c, t, g);
  }

  /** A goroutine touches neither the connection nor the loop, and an error stays. */
  lemma GoSparesLoop(c: Core, t: Tid, g: Goroutine)
    requires g != Idle && !GoBlocked(c, g)
    ensures var c' := GoEffect(c, t, g).0;
            && c'.conn == c.conn && c'.events == c.events && c'.proc == c.proc && c'.registered == c.registered
            && (c.err ==> c'.err)
  {
    match g
    case WriteTest(_) =>
    case WriteLock(_) =>
    case WritePut(_) =>
    case WriteWait(_) =>
    case WriteUnlock(_) =>
    case WriteReturn(_) =>
    case CloseLock =>
    case CloseTest =>
    case CloseErr =>
    case CloseChan =>
    case CloseUnlock =>
  }

  /** A goroutine's step, a call included, as Next makes it. */
  lemma HolderMoves(cfg: Config, s: State, e: Event)
    requires LockFacts(s) && Enabled(cfg, s, e) && (e.CallWrite? || e.CallClose? || e.Run?)
    ensures Agree(s.core, HolderPc(s), e.t, At(s, e.t))
    ensures LockFacts(Next(cfg, s, e))
    ensures HolderPc(Next(cfg, s, e)) == HolderAfter(HolderPc(s), At(s, e.t), At(Next(cfg, s, e), e.t))
  {
    var s' := Next(cfg, s, e);
    assert forall u: Tid :: u != e.t ==> At(s', u) == At(s, u);
    assert GoHolds(At(s, e.t)) <==> s.core.lock == Some(ByGo(e.t));
    if s.core.lock.Some? && s.core.lock.value.ByGo? {
      assert GoHolds(At(s, s.core.lock.value.t));
    }
    LockMoves(s.core, e.t, At(s, e.t), s'.core, At(s', e.t));
  }

  /** What a goroutine's step does to the lock. */
  lemma LockMoves(c: Core, t: Tid, g: Goroutine, c': Core, g': Goroutine)
    requires g == Idle ==> c'.lock == c.lock && !GoHolds(g')
    requires g != Idle ==> !GoBlocked(c, g) && (c', g') == GoEffect(c, t, g)
    requires GoHolds(g) <==> c.lock == Some(ByGo(t))
    ensures GoHolds(g') <==> c'.lock == Some(ByGo(t))
    ensures c'.lock == c.lock || (c.lock == None && c'.lock == Some(ByGo(t)) && GoHolds(g')) ||
            (c.lock == Some(ByGo(t)) && c'.lock == None)
  {
    if g != Idle && !g.WriteLock? && !g.CloseLock? && !g.WriteUnlock? && !g.CloseUnlock? {
      GoSparesLock(c, t, g);
    }
  }

  lemma GoSparesLock(c: Core, t: Tid, g: Goroutine)
    requires g != Idle && !GoBlocked(c, g)
    requires !g.WriteLock? && !g.CloseLock? && !g.WriteUnlock? && !g.CloseUnlock?
    ensures var (c', g') := GoEffect(c, t, g); c'.lock == c.lock && (GoHolds(g') <==> GoHolds(g))
  {
  }

  /** What a step of the loop may do to the lock. */
  predicate LockMove(c: Core, c': Core) {
    && (ProcHolds(c'.proc) <==> c'.lock == Some(ByProc))
    && (c'.lock == c.lock || (c.lock == None && c'.lock == Some(ByProc)) || (c.lock == Some(ByProc) && c'.lock == None))
  }

  lemma ShellMoves(c: Core, e: Event, accepted: bool)
    requires LoopEvent(c, e) && (ProcHolds(c.proc) <==> c.lock == Some(ByProc))
    ensures LockMove(c, Shell(c, e, accepted))
  {
    if e.ProcRun? {
      ProcMoves(c, accepted);
    }
  }

  lemma ProcMoves(c: Core, accepted: bool)
    requires c.proc != Select && !ProcBlocked(c) && (ProcHolds(c.proc) <==> c.lock == Some(ByProc))
    ensures LockMove(c, ProcEffect(c, accepted))
  {
    if c.proc.EndLock? || ProcHolds(c.proc) {
      EndMoves(c, accepted);
    } else {
      ProcSparesLock(c, accepted);
    }
  }

  lemma EndMoves(c: Core, accepted: bool)
    requires (c.proc.EndLock? && c.lock == None) || (ProcHolds(c.proc) && c.lock == Some(ByProc))
    ensures LockMove(c, ProcEffect(c, accepted))
  {
  }

  lemma ProcSparesLock(c: Core, accepted: bool)
    requires c.proc != Select && !ProcBlocked(c) && !c.proc.EndLock? && !ProcHolds(c.proc)
    ensures var c' := ProcEffect(c, accepted); c'.lock == c.lock && !ProcHolds(c'.proc)
  {
    if Ending(c.proc) {
      assert c.proc.EndLookup? || c.proc.EndFree?;
    } else {
      SendSparesLock(c, accepted);
    }
  }

  lemma SendSparesLock(c: Core, accepted: bool)
    requires c.proc != Select && !ProcBlocked(c) && !Ending(c.proc)
    ensures var c' := ProcEffect(c, accepted); c'.lock == c.lock && !Ending(c'.proc)
  {
    match c.proc
    case SendTest(_) =>
    case SendCount(_) =>
    case SendCall(_) =>
    case DoneTest =>
    case DoneCheck =>
    case DonePut =>
  }

  lemma ShellSpares(c: Core, e: Event, accepted: bool)
    requires LoopEvent(c, e)
    ensures SameWrites(c, Shell(c, e, accepted))
  {
    if e.ProcRun? {
      ProcSpares(c, accepted);
    }
  }

  lemma ProcLockMoves(s: State, e: Event, accepted: bool, s': State)
    requires LockFacts(s) && LoopEvent(s.core, e) && s'.go == s.go
    requires s'.core == Shell(s.core, e, accepted).(conn := s'.core.conn, events := s'.core.events)
    ensures LockFacts(s') && HolderPc(s') == HolderPc(s) && (ReturnFacts(s) ==> ReturnFacts(s'))
  {
    ShellMoves(s.core, e, accepted);
    ShellSpares(s.core, e, accepted);
    SameGoroutines(s, Shell(s.core, e, accepted), s');
  }

  /** Nobody in particular agrees with the lock's holder. */
  lemma HolderAgrees(s: State)
    requires LockFacts(s)
    ensures Agree(s.core, HolderPc(s), 0, Idle)
  {
    if s.core.lock.Some? && s.core.lock.value.ByGo? {
      assert GoHolds(At(s, s.core.lock.value.t));
    }
  }

  /** Facts about the goroutines survive a step of the loop that does no more to the lock and the histories. */
  lemma SameGoroutines(s: State, c: Core, s': State)
    requires LockFacts(s) && s'.go == s.go && s'.core == c.(conn := s'.core.conn, events := s'.core.events)
    requires LockMove(s.core, c) && SameWrites(s.core, c)
    ensures LockFacts(s') && HolderPc(s') == HolderPc(s) && (ReturnFacts(s) ==> ReturnFacts(s'))
  {
    assert forall u: Tid :: At(s', u) == At(s, u);
  }

  /** What ReturnFacts says of one goroutine. */
  predicate Returns(c: Core, g: Goroutine) {
    !c.err && (g.WriteUnlock? || g.WriteReturn?) ==> g.w in c.served
  }

  lemma GoReturns(c: Core, h: Goroutine, t: Tid, g: Goroutine)
    requires CloseFacts(c, h) && Returns(c, g) && g != Idle && !GoBlocked(c, g)
    ensures var (c', g') := GoEffect(c, t, g);
            && Returns(c', g') && c.served <= c'.served && (c.err ==> c'.err)
            && (forall w :: w in c'.nilReturned ==> w in c.nilReturned || w in c'.served)
            && (c'.failed != c.failed ==> c'.err)
  {
  }

  lemma GoKeepsReturns(cfg: Config, s: State, e: Event)
    requires CloseFacts(s.core, HolderPc(s)) && ReturnFacts(s)
    requires Enabled(cfg, s, e) && (e.CallWrite? || e.CallClose? || e.Run?)
    ensures ReturnFacts(Next(cfg, s, e))
  {
    var s' := Next(cfg, s, e);
    assert forall u: Tid :: u != e.t ==> At(s', u) == At(s, u);
    if e.Run? {
      GoReturns(s.core, HolderPc(s), e.t, At(s, e.t));
    }
    forall u: Tid ensures Returns(s'.core, At(s', u)) {
      assert Returns(s.core, At(s, u));
    }
  }

  lemma CallKeepsFacts(cfg: Config, c: Core, h: Goroutine)
    requires CoreFacts(cfg, c, h)
    ensures CoreFacts(cfg, c.(next := c.next + 1), h)
  {
  }

  lemma StepKeepsInv(cfg: Config, s: State, e: Event)
    requires Inv(cfg, s) && Enabled(cfg, s, e)
    ensures Inv(cfg, Next(cfg, s, e))
  {
    if e.CallWrite? || e.CallClose? || e.Run? {
      HolderMoves(cfg, s, e);
      GoKeepsReturns(cfg, s, e);
      if e.Run? {
        GoKeepsFacts(cfg, s.core, HolderPc(s), e.t, At(s, e.t));
      } else {
        CallKeepsFacts(cfg, s.core, HolderPc(s));
      }
    } else {
      ProcLockMoves(s, e, Accepted(cfg, s.core, e), Next(cfg, s, e));
      HolderAgrees(s);
      LoopKeepsFacts(cfg, s.core, HolderPc(s), e);
    }
  }

  lemma InitInv(cfg: Config)
    ensures Inv(cfg, Init(cfg))
  {
  }

  lemma ReachableInv(cfg: Config, s: State)
    requires Reachable(cfg, s)
    ensures Inv(cfg, s)
  {
    InitInv(cfg);
    forall s, e, s' | StepOf(cfg)(s, e, s') && Inv(cfg, s) ensures Inv(cfg, s') {
      StepKeepsInv(cfg, s, e);
    }
    Invariant(StepOf(cfg), (s: State) => Inv(cfg, s), Init(cfg), s);
  }
}
