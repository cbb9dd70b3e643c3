/** What Write, Close and the loop guarantee in every interleaving, and when the byte stream is what callers see. */
module WriteProperties {
  import opened Common
  import T = TcpModel
  import opened Paths
  import opened WriteProtocol

  // ---------------------------------------------------------------- tokens

  function Waiting(s: State): set<Tid> {
    set t | t in s.go && s.go[t].WriteWait?
  }

  /**
   While the PCB is open, the writers waiting under the lock are matched by its entries in the queue, the entry in
   hand, its unacknowledged sends and the tokens on their way, and there is at most one.
   */
  lemma TokensAreConserved(cfg: Config, s: State)
    requires Reachable(cfg, s) && !s.core.err
    ensures |Waiting(s)| == Units(s.core) <= 1
  {
    ReachableInv(cfg, s);
    var h := HolderPc(s);
    assert forall t: Tid :: t in Waiting(s) <==> At(s, t).WriteWait?;
    assert forall t: Tid :: At(s, t).WriteWait? ==> s.core.lock == Some(ByGo(t));
    if h.WriteWait? {
      assert Waiting(s) == {s.core.lock.value.t};
    } else {
      assert forall t: Tid :: t in Waiting(s) ==> s.core.lock == Some(ByGo(t)) && h == At(s, t);
      assert Waiting(s) == {};
    }
  }

  /** The loop never blocks returning a token, never sends on a closed channel, and no channel is closed twice. */
  lemma TokenAlwaysFits(cfg: Config, s: State)
    requires Reachable(cfg, s)
    ensures s.core.proc.DonePut? ==> s.core.wait == 0 && !s.core.waitClosed && !ProcBlocked(s.core)
    ensures !s.core.panicked
  {
    ReachableInv(cfg, s);
  }

  /** A pending chain means an unacknowledged send, so a send finds none: the busy answer is never given to Go. */
  lemma BusyIsUnreachable(cfg: Config, s: State)
    requires Reachable(cfg, s)
    ensures s.core.conn.pending != [] ==> s.core.sendCount == 1 && !s.core.err
    ensures s.core.proc.SendCall? ==> s.core.conn.live && s.core.conn.pending == []
    ensures s.core.proc.SendCall? ==>
              forall alloc :: T.CharSend(s.core.conn, cfg.answers, s.core.proc.w.b, alloc).1 == if alloc then 0 else 1
  {
    ReachableInv(cfg, s);
  }

  // ---------------------------------------------------------------- the stream

  /** The Write under the lock, as far as C may have got to see it. */
  function Current(s: State): Bytes {
    if !s.core.err && HolderPc(s).WriteWait? then T.Truncated(HolderPc(s).w.b) else []
  }

  lemma {:induction false} SuffixIsPrefix(a: Bytes, b: Bytes, sent: Bytes, rest: Bytes) returns (k: nat)
    requires sent + rest == a + b && |rest| <= |b|
    ensures k <= |b| && sent == a + b[..k]
  {
    k := |sent| - |a|;
    assert sent == (sent + rest)[..|sent|] == (a + b)[..|a| + k];
  }

  /**
   As long as memory for pbufs was found: the bytes given to tcp_write are the Writes that received a token, in the
   order in which they won the lock, then a prefix of the one Write that waits under the lock, if any.
   */
  lemma StreamIsWritesInLockOrder(cfg: Config, s: State) returns (k: nat)
    requires Reachable(cfg, s) && !s.core.lost
    ensures s.core.served <= s.core.locked
    ensures k <= |Current(s)| && s.core.conn.sent == Bodies(s.core.served) + Current(s)[..k]
  {
    ReachableInv(cfg, s);
    ConnFacts(cfg, s.core);
    var c, h := s.core, HolderPc(s);
    var passed := if h.WriteWait? && HandedOver(c) then T.Truncated(h.w.b) else [];
    assert c.conn.sent + Flatten(c.conn.pending) == c.conn.taken;
    k := SuffixIsPrefix(Bodies(c.served), passed, c.conn.sent, Flatten(c.conn.pending));
  }

  /**
   A Write that returned nil is in the stream, with as many of its bytes as the C side took: all, below 65536 bytes.
   While the PCB is open no Write has returned an error.
   */
  lemma NilMeansSent(cfg: Config, s: State)
    requires Reachable(cfg, s)
    ensures forall w :: w in s.core.nilReturned ==> w in s.core.served
    ensures !s.core.err ==> s.core.failed == {}
  {
    ReachableInv(cfg, s);
  }

  /** The loop is about to return a token, or may be. */
  function Returning(p: Proc): nat {
    if p.DoneTest? || p.DoneCheck? || p.DonePut? then 1 else 0
  }

  /** Tokens on their way to a Write or received by one, against the sent callbacks and the bytes sent. */
  predicate Paid(c: Core) {
    |c.served| + c.wait + Returning(c.proc) <= T.Acks(c.events) <= |c.conn.sent|
  }

  lemma GoKeepsPaid(c: Core, t: Tid, g: Goroutine)
    requires Paid(c) && g != Idle && !GoBlocked(c, g)
    ensures Paid(GoEffect(c, t, g).0)
  {
    GoSparesLoop(c, t, g);
  }

  lemma SentGrows(conn: T.Conn, answers: T.Answers, e: T.Event)
    ensures |T.Step(conn, answers, e).sent| >= |conn.sent|
  {
    match e {
      case SentCallback(room) => T.DrainHandsOver(conn.(room := room), answers);
      case PollCallback(room) => T.DrainHandsOver(conn.(room := room), answers);
      case AppSend(buf, _) =>
        T.DrainHandsOver(conn.(pending := T.Chunks(T.Truncated(buf)), taken := conn.taken + T.Truncated(buf)), answers);
      case _ =>
    }
  }

  lemma AcksGrow(events: seq<T.Event>, e: T.Event)
    ensures T.Acks(events + [e]) == T.Acks(events) + if e.SentCallback? then 1 else 0
  {
    assert (events + [e])[..|events|] == events;
  }

  lemma ProcKeepsPaid(c: Core, accepted: bool)
    requires c.proc != Select && !ProcBlocked(c)
    ensures var c' := ProcEffect(c, accepted);
            c'.served == c.served && c'.wait + Returning(c'.proc) <= c.wait + Returning(c.proc)
  {
    if Ending(c.proc) {
      ProcSpares(c, accepted);
      ProcSparesTokens(c, accepted);
      EndReturnsNone(c, accepted);
    } else {
      match c.proc
      case SendTest(_) =>
      case SendCount(_) =>
      case SendCall(_) =>
      case DoneTest =>
      case DoneCheck =>
      case DonePut =>
    }
  }

  lemma EndReturnsNone(c: Core, accepted: bool)
    requires Ending(c.proc) && !ProcBlocked(c)
    ensures Returning(ProcEffect(c, accepted).proc) == 0
  {
    match c.proc
    case EndLookup(_) =>
    case EndLock(_) =>
    case EndTest(_) =>
    case EndErr(_) =>
    case EndChan(_) =>
    case EndUnlock(_) =>
    case EndFree(_) =>
  }

  lemma ShellKeepsPaid(c: Core, e: Event, accepted: bool)
    requires LoopEvent(c, e)
    ensures var c' := Shell(c, e, accepted);
            && c'.served == c.served
            && c'.wait + Returning(c'.proc) <= c.wait + Returning(c.proc) + if e.OnSent? then 1 else 0
  {
    if e.ProcRun? {
      ProcKeepsPaid(c, accepted);
    }
  }

  lemma LoopKeepsPaid(cfg: Config, c: Core, e: Event)
    requires Paid(c) && LoopEvent(c, e)
    ensures Paid(LoopEffect(cfg, c, e))
  {
    ShellKeepsPaid(c, e, Accepted(cfg, c, e));
    if Fed(c, e).Some? {
      SentGrows(c.conn, cfg.answers, Fed(c, e).value);
      AcksGrow(c.events, Fed(c, e).value);
    }
  }

  lemma StepKeepsPaid(cfg: Config, s: State, e: Event)
    requires Paid(s.core) && Enabled(cfg, s, e)
    ensures Paid(Next(cfg, s, e).core)
  {
    match e {
      case CallWrite(_, _) => assert Paid(s.core.(next := s.core.next + 1));
      case CallClose(_) =>
      case Run(t) => GoKeepsPaid(s.core, t, At(s, t));
      case _ => LoopKeepsPaid(cfg, s.core, e);
    }
  }

  /** Every token is paid for by a sent callback of its own, and that by a byte of its own. */
  lemma TokensArePaid(cfg: Config, s: State)
    requires Reachable(cfg, s)
    ensures |s.core.served| + s.core.wait <= T.Acks(s.core.events) <= |s.core.conn.sent|
  {
    forall s, e, s' | StepOf(cfg)(s, e, s') && Paid(s.core) ensures Paid(s'.core) {
      StepKeepsPaid(cfg, s, e);
    }
    Invariant(StepOf(cfg), (s: State) => Paid(s.core), Init(cfg), s);
  }

  /**
   The loop begins to handle an acknowledgement exactly at the steps at which the C side reports one, and the end of the
   connection exactly before those at which it reports that.
   */
  lemma AckGoesUp(cfg: Config, s: State, e: Event)
    requires Reachable(cfg, s) && LoopEvent(s.core, e)
    ensures var c, c' := s.core, LoopEffect(cfg, s.core, e);
            && T.Ups(c'.conn, T.SendDoneUp) ==
               T.Ups(c.conn, T.SendDoneUp) + (if !c.proc.DoneTest? && c'.proc.DoneTest? then 1 else 0)
            && T.Ups(c'.conn, T.CloseUp) == T.Ups(c.conn, T.CloseUp) + (if Frees(c, e) then 1 else 0)
  {
    ReachableLife(cfg, s);
    LoopRaises(s.core, e, Accepted(cfg, s.core, e));
    ConnRaises(cfg, s.core, e);
  }

  lemma ReachableLife(cfg: Config, s: State)
    requires Reachable(cfg, s)
    ensures T.Lifecycle(s.core.conn) && (s.core.proc.EndFree? ==> s.core.conn.live)
  {
    ReachableInv(cfg, s);
    ConnFacts(cfg, s.core);
  }

  /** How the connection comes to report one. */
  lemma ConnRaises(cfg: Config, c: Core, e: Event)
    requires T.Lifecycle(c.conn) && LoopEvent(c, e) && (c.proc.EndFree? ==> c.conn.live)
    ensures var conn' := ConnAfter(cfg, c, e);
            && T.Ups(conn', T.SendDoneUp) ==
               T.Ups(c.conn, T.SendDoneUp) + (if e.OnSent? && c.conn.pending == [] then 1 else 0)
            && T.Ups(conn', T.CloseUp) == T.Ups(c.conn, T.CloseUp) + (if Frees(c, e) then 1 else 0)
  {
    if Fed(c, e).Some? {
      T.StepAnswers(c.conn, cfg.answers, Fed(c, e).value);
    }
  }

  /** How the loop comes to handle an acknowledgement. */
  lemma LoopRaises(c: Core, e: Event, accepted: bool)
    requires LoopEvent(c, e)
    ensures !c.proc.DoneTest? && Shell(c, e, accepted).proc.DoneTest? <==> e.OnSent? && c.conn.pending == []
  {
    if e.ProcRun? {
      match c.proc
      case SendTest(_) =>
      case SendCount(_) =>
      case SendCall(_) =>
      case DoneTest =>
      case DoneCheck =>
      case DonePut =>
      case EndLookup(_) =>
      case EndLock(_) =>
      case EndTest(_) =>
      case EndErr(_) =>
      case EndChan(_) =>
      case EndUnlock(_) =>
      case EndFree(_) =>
    }
  }

  /** Once the PCB is closed nothing more is written, and nothing that was taken is ever dropped. */
  lemma NothingAfterClose(cfg: Config, s: State, e: Event)
    requires Reachable(cfg, s) && Enabled(cfg, s, e) && s.core.err
    ensures Next(cfg, s, e).core.conn.sent == s.core.conn.sent == s.core.conn.taken
    ensures Next(cfg, s, e).core.served == s.core.served
  {
    AllIsSent(cfg, s);
    if e.Run? {
      QuietGoroutine(s.core, e.t, At(s, e.t));
    } else if !e.CallWrite? && !e.CallClose? {
      ShellSpares(s.core, e, Accepted(cfg, s.core, e));
      QuietLoop(cfg, s.core, e);
    }
  }

  lemma AllIsSent(cfg: Config, s: State)
    requires Reachable(cfg, s) && s.core.err
    ensures s.core.conn.pending == [] && s.core.conn.sent == s.core.conn.taken
    ensures s.core.wait == 0 && !s.core.proc.SendCall?
  {
    ReachableInv(cfg, s);
    ConnFacts(cfg, s.core);
  }

  lemma QuietGoroutine(c: Core, t: Tid, g: Goroutine)
    requires g != Idle && !GoBlocked(c, g) && c.wait == 0
    ensures var (c', _) := GoEffect(c, t, g); c'.conn == c.conn && c'.served == c.served
  {
    match g
    case WriteTest(_) =>
    case WriteLock(_) =>
    case WritePut(_) =>
    case WriteWait(_) =>
    case WriteUnlock(_) =>
    case WriteReturn(_) =>
    case CloseLock =>
    case CloseTest =>
    case CloseErr =>
    case CloseChan =>
    case CloseUnlock =>
  }

  lemma QuietLoop(cfg: Config, c: Core, e: Event)
    requires LoopEvent(c, e) && c.conn.pending == [] && !c.proc.SendCall?
    ensures ConnAfter(cfg, c, e).sent == c.conn.sent
  {
    if Fed(c, e).Some? {
      QuietStep(c.conn, cfg.answers, Fed(c, e).value);
    }
  }

  lemma QuietStep(conn: T.Conn, answers: T.Answers, e: T.Event)
    requires conn.pending == [] && !e.AppSend?
    ensures T.Step(conn, answers, e).sent == conn.sent
  {
  }

  function Plain(ws: seq<Write>): Bytes {
    if ws == [] then [] else Plain(ws[..|ws| - 1]) + ws[|ws| - 1].b
  }

  lemma {:induction false} BodiesAreShorter(ws: seq<Write>)
    ensures |Bodies(ws)| <= |Plain(ws)|
    ensures |Bodies(ws)| == |Plain(ws)| ==> forall i :: 0 <= i < |ws| ==> |ws[i].b| < T.U16
  {
    if ws != [] {
      BodiesAreShorter(ws[..|ws| - 1]);
      assert forall i :: 0 <= i < |ws| - 1 ==> ws[i] == ws[..|ws| - 1][i];
    }
  }

  /** The Writes' buffers go out whole exactly if every one of them is shorter than 65536 bytes. */
  lemma {:induction false} BodiesArePlainIff(ws: seq<Write>)
    ensures Bodies(ws) == Plain(ws) <==> forall i :: 0 <= i < |ws| ==> |ws[i].b| < T.U16
  {
    BodiesAreShorter(ws);
    if ws != [] && forall i :: 0 <= i < |ws| ==> |ws[i].b| < T.U16 {
      assert forall i :: 0 <= i < |ws| - 1 ==> ws[..|ws| - 1][i] == ws[i];
      BodiesArePlainIff(ws[..|ws| - 1]);
      T.TakenWholeIff(ws[|ws| - 1].b);
    }
  }

  /** What is closed stays closed. */
  lemma StepStaysClosed(cfg: Config, s: State, e: Event)
    requires Enabled(cfg, s, e) && s.core.err
    ensures Next(cfg, s, e).core.err
  {
    if e.Run? {
      GoStaysClosed(s.core, e.t, At(s, e.t));
    } else if e.ProcRun? {
      ProcStaysClosed(s.core, Accepted(cfg, s.core, e));
    }
  }

  lemma GoStaysClosed(c: Core, t: Tid, g: Goroutine)
    requires g != Idle && !GoBlocked(c, g) && c.err
    ensures GoEffect(c, t, g).0.err
  {
    match g
    case WriteTest(_) =>
    case WriteLock(_) =>
    case WritePut(_) =>
    case WriteWait(_) =>
    case WriteUnlock(_) =>
    case WriteReturn(_) =>
    case CloseLock =>
    case CloseTest =>
    case CloseErr =>
    case CloseChan =>
    case CloseUnlock =>
  }

  lemma ProcStaysClosed(c: Core, accepted: bool)
    requires c.proc != Select && !ProcBlocked(c) && c.err
    ensures ProcEffect(c, accepted).err
  {
    match c.proc
    case SendTest(_) =>
    case SendCount(_) =>
    case SendCall(_) =>
    case DoneTest =>
    case DoneCheck =>
    case DonePut =>
    case EndLookup(_) =>
    case EndLock(_) =>
    case EndTest(_) =>
    case EndErr(_) =>
    case EndChan(_) =>
    case EndUnlock(_) =>
    case EndFree(_) =>
  }

  // ---------------------------------------------------------------- Writes that come too late

  /** Among the Writes with numbers from n on, all begun after the close, none gets beyond its test. */
  predicate Late(g: Goroutine, n: nat) {
    Writing(g) && g.w.id >= n ==> g.WriteTest? || g.WriteReturn?
  }

  predicate LateCore(c: Core, n: nat) {
    && c.err && c.next >= n && (forall w :: w in c.locked ==> w.id < n)
    && (forall i :: 0 <= i < |c.queue| && c.queue[i].Mine? ==> c.queue[i].w.id < n)
    && (forall w :: w in c.nilReturned ==> w.id < n)
  }

  ghost predicate Refused(s: State, n: nat) {
    LateCore(s.core, n) && forall t: Tid :: Late(At(s, t), n)
  }

  lemma GoKeepsRefused(c: Core, t: Tid, g: Goroutine, n: nat)
    requires LateCore(c, n) && Late(g, n) && g != Idle && !GoBlocked(c, g)
    ensures var (c', g') := GoEffect(c, t, g); LateCore(c', n) && Late(g', n)
  {
    match g
    case WriteTest(_) =>
    case WriteLock(_) =>
    case WritePut(_) =>
    case WriteWait(_) =>
    case WriteUnlock(_) =>
    case WriteReturn(_) =>
    case CloseLock =>
    case CloseTest =>
    case CloseErr =>
    case CloseChan =>
    case CloseUnlock =>
  }

  lemma ShellKeepsRefused(c: Core, e: Event, accepted: bool, n: nat)
    requires LateCore(c, n) && LoopEvent(c, e)
    ensures LateCore(Shell(c, e, accepted), n)
  {
    ShellSpares(c, e, accepted);
    if e.ProcRun? {
      ProcSparesEntries(c, accepted);
    }
  }

  lemma StepKeepsRefused(cfg: Config, s: State, e: Event, n: nat)
    requires Refused(s, n) && Enabled(cfg, s, e)
    ensures Refused(Next(cfg, s, e), n)
  {
    var s' := Next(cfg, s, e);
    if e.CallWrite? || e.CallClose? || e.Run? {
      assert Late(At(s, e.t), n);
      if e.Run? {
        GoKeepsRefused(s.core, e.t, At(s, e.t), n);
      }
      forall t: Tid ensures Late(At(s', t), n) {
        assert Late(At(s, t), n);
      }
    } else {
      ShellKeepsRefused(s.core, e, Accepted(cfg, s.core, e), n);
      forall t: Tid ensures Late(At(s', t), n) {
        assert Late(At(s, t), n);
      }
    }
  }

  /** Every Write has a number of its own, below the next one. */
  ghost predicate Numbered(s: State) {
    && (forall t: Tid :: Writing(At(s, t)) ==> At(s, t).w.id < s.core.next)
    && (forall w :: w in s.core.locked ==> w.id < s.core.next)
    && (forall i :: 0 <= i < |s.core.queue| && s.core.queue[i].Mine? ==> s.core.queue[i].w.id < s.core.next)
    && (forall w :: w in s.core.nilReturned ==> w.id < s.core.next)
  }

  lemma StepKeepsNumbered(cfg: Config, s: State, e: Event)
    requires Numbered(s) && Enabled(cfg, s, e)
    ensures Numbered(Next(cfg, s, e))
  {
    var s' := Next(cfg, s, e);
    if e.CallWrite? || e.CallClose? || e.Run? {
      assert forall u: Tid :: u != e.t ==> At(s', u) == At(s, u);
      if e.Run? {
        GoKeepsNumbers(s.core, e.t, At(s, e.t));
      }
    } else {
      ShellSpares(s.core, e, Accepted(cfg, s.core, e));
      if e.ProcRun? {
        ProcSparesEntries(s.core, Accepted(cfg, s.core, e));
      }
      assert forall u: Tid :: At(s', u) == At(s, u);
    }
  }

  lemma GoKeepsNumbers(c: Core, t: Tid, g: Goroutine)
    requires g != Idle && !GoBlocked(c, g)
    ensures var (c', g') := GoEffect(c, t, g);
            && c'.next == c.next && (Writing(g') ==> Writing(g) && g'.w == g.w)
            && (c'.locked == c.locked || (Writing(g) && c'.locked == c.locked + [g.w]))
            && (c'.queue == c.queue || (Writing(g) && c'.queue == c.queue + [Mine(g.w)]))
            && (c'.nilReturned == c.nilReturned || (Writing(g) && c'.nilReturned == c.nilReturned + {g.w}))
  {
    match g
    case WriteTest(_) =>
    case WriteLock(_) =>
    case WritePut(_) =>
    case WriteWait(_) =>
    case WriteUnlock(_) =>
    case WriteReturn(_) =>
    case CloseLock =>
    case CloseTest =>
    case CloseErr =>
    case CloseChan =>
    case CloseUnlock =>
  }

  /**
   A Write that begins when the PCB is closed takes no lock, queues nothing and never returns nil, whatever happens: it
   goes from its test straight to the error.
   */
  lemma LateWritesAreRefused(cfg: Config, s: State, s': State)
    requires Reachable(cfg, s) && s.core.err && Reaches(StepOf(cfg), s, s')
    ensures forall w :: w in s'.core.locked || w in s'.core.nilReturned || Mine(w) in s'.core.queue ==>
              w.id < s.core.next
    ensures forall t: Tid :: Writing(At(s', t)) && At(s', t).w.id >= s.core.next ==>
              At(s', t).WriteTest? || At(s', t).WriteReturn?
  {
    forall a, e, b | StepOf(cfg)(a, e, b) && Numbered(a) ensures Numbered(b) {
      StepKeepsNumbered(cfg, a, e);
    }
    Invariant(StepOf(cfg), (a: State) => Numbered(a), Init(cfg), s);
    var n := s.core.next;
    forall t: Tid ensures Late(At(s, t), n) {
      assert Writing(At(s, t)) ==> At(s, t).w.id < n;
    }
    forall a, e, b | StepOf(cfg)(a, e, b) && Refused(a, n) ensures Refused(b, n) {
      StepKeepsRefused(cfg, a, e, n);
    }
    Invariant(StepOf(cfg), (a: State) => Refused(a, n), s, s');
    forall t: Tid ensures Late(At(s', t), n) {
    }
  }

  // ---------------------------------------------------------------- what the returned errors say of the stream

  /** Those of the Writes that returned nil. */
  function OnlyNil(ws: seq<Write>, nil: set<Write>): seq<Write> {
    if ws == [] then []
    else OnlyNil(ws[..|ws| - 1], nil) + if ws[|ws| - 1] in nil then [ws[|ws| - 1]] else []
  }

  /** The stream is the Writes that returned nil, in lock order, then a prefix of at most one other Write. */
  ghost predicate NilThenOne(s: State) {
    exists r: Bytes ::
      && s.core.conn.sent == Bodies(OnlyNil(s.core.served, s.core.nilReturned)) + r
      && (r == [] || exists w :: w in s.core.locked && w !in s.core.nilReturned && r <= T.Truncated(w.b))
  }

  predicate ReturningWith(g: Goroutine, w: Write) {
    (g.WriteUnlock? || g.WriteReturn?) && g.w == w
  }

  /** g: what the only writer is doing.  All served Writes returned nil, but for the last while it is returning. */
  predicate Settled(c: Core, g: Goroutine) {
    && (Writing(g) ==> g.w.id < c.next && g.w !in c.nilReturned)
    && (forall i :: 0 <= i < |c.served| ==>
          c.served[i] in c.nilReturned || (i == |c.served| - 1 && (c.err || ReturningWith(g, c.served[i]))))
  }

  ghost predicate OneWriterFacts(x: Tid, s: State) {
    && (forall t: Tid :: Writing(At(s, t)) ==> t == x)
    && (forall w :: w in s.core.nilReturned ==> w.id < s.core.next)
    && Settled(s.core, At(s, x))
  }

  lemma WriterStep(c: Core, x: Tid, g: Goroutine)
    requires Settled(c, g) && Writing(g) && !GoBlocked(c, g) && (c.err ==> c.wait == 0)
    ensures var (c', g') := GoEffect(c, x, g);
            && Settled(c', g') && c'.next == c.next
            && (forall w :: w in c'.nilReturned ==> w in c.nilReturned || w == g.w)
  {
    var (c', g') := GoEffect(c, x, g);
    if g.WriteWait? && c.wait > 0 {
      forall i | 0 <= i < |c'.served|
        ensures c'.served[i] in c'.nilReturned || (i == |c'.served| - 1 && ReturningWith(g', c'.served[i]))
      {
        assert i < |c.served| ==> c'.served[i] == c.served[i];
      }
    } else {
      assert c'.served == c.served && c'.nilReturned >= c.nilReturned;
    }
  }

  lemma CloserStep(c: Core, t: Tid, g: Goroutine)
    requires g != Idle && !Writing(g) && !GoBlocked(c, g)
    ensures var (c', g') := GoEffect(c, t, g);
            && !Writing(g') && c'.served == c.served && c'.nilReturned == c.nilReturned && c'.next == c.next
            && (c.err ==> c'.err)
  {
  }

  lemma OneWriterKept(cfg: Config, x: Tid, s: State, e: Event)
    requires Inv(cfg, s) && Enabled(cfg, s, e) && OneWriterFacts(x, s)
    requires forall t :: t in cfg.writers ==> t == x
    ensures OneWriterFacts(x, Next(cfg, s, e))
  {
    var s' := Next(cfg, s, e);
    if e.CallWrite? || e.CallClose? || e.Run? {
      assert forall u: Tid :: u != e.t ==> At(s', u) == At(s, u);
      if e.Run? {
        if Writing(At(s, e.t)) {
          WriterStep(s.core, x, At(s, x));
        } else {
          CloserStep(s.core, e.t, At(s, e.t));
        }
      }
    } else {
      ShellSpares(s.core, e, Accepted(cfg, s.core, e));
      assert forall u: Tid :: At(s', u) == At(s, u);
    }
  }

  lemma OneWriterRun(cfg: Config, x: Tid, s: State)
    requires Reachable(cfg, s) && forall t :: t in cfg.writers ==> t == x
    ensures OneWriterFacts(x, s)
  {
    InitInv(cfg);
    forall s, e, s' | StepOf(cfg)(s, e, s') && Inv(cfg, s) && OneWriterFacts(x, s)
      ensures Inv(cfg, s') && OneWriterFacts(x, s')
    {
      StepKeepsInv(cfg, s, e);
      OneWriterKept(cfg, x, s, e);
    }
    Invariant(StepOf(cfg), (s: State) => Inv(cfg, s) && OneWriterFacts(x, s), Init(cfg), s);
  }

  lemma {:induction false} OnlyNilOfAll(ws: seq<Write>, nil: set<Write>)
    requires forall i :: 0 <= i < |ws| ==> ws[i] in nil
    ensures OnlyNil(ws, nil) == ws
  {
    if ws != [] {
      assert forall i :: 0 <= i < |ws| - 1 ==> ws[..|ws| - 1][i] == ws[i];
      OnlyNilOfAll(ws[..|ws| - 1], nil);
    }
  }

  /** The stream when every served Write returned nil: what follows is a prefix of the Write under the lock. */
  lemma AllNilSees(s: State, k: nat)
    requires k <= |Current(s)| && s.core.conn.sent == Bodies(s.core.served) + Current(s)[..k]
    requires forall i :: 0 <= i < |s.core.served| ==> s.core.served[i] in s.core.nilReturned
    requires Current(s) != [] ==> HolderPc(s).w in s.core.locked && HolderPc(s).w !in s.core.nilReturned
    ensures NilThenOne(s)
  {
    OnlyNilOfAll(s.core.served, s.core.nilReturned);
    var r := Current(s)[..k];
    if r != [] {
      assert r <= T.Truncated(HolderPc(s).w.b);
    }
  }

  /** The stream when the last served Write has not returned nil: it is that one other Write. */
  lemma LastOtherSees(s: State)
    requires s.core.conn.sent == Bodies(s.core.served) && s.core.served <= s.core.locked && s.core.served != []
    requires forall i :: 0 <= i < |s.core.served| - 1 ==> s.core.served[i] in s.core.nilReturned
    requires s.core.served[|s.core.served| - 1] !in s.core.nilReturned
    ensures NilThenOne(s)
  {
    var ws, n := s.core.served, |s.core.served| - 1;
    assert forall i :: 0 <= i < n ==> ws[..n][i] == ws[i];
    OnlyNilOfAll(ws[..n], s.core.nilReturned);
    var r := T.Truncated(ws[n].b);
    assert ws[n] == s.core.locked[n] && r <= r;
    assert OnlyNil(ws, s.core.nilReturned) == ws[..n] + [] == ws[..n];
    assert s.core.conn.sent == Bodies(OnlyNil(ws, s.core.nilReturned)) + r;
  }

  /** Who waits under the lock. */
  lemma HolderWaits(cfg: Config, s: State)
    requires Inv(cfg, s)
    ensures HolderPc(s).WriteWait? && !s.core.err ==> HolderPc(s).w in s.core.locked
    ensures HolderPc(s).WriteWait? ==> exists t: Tid :: At(s, t) == HolderPc(s)
  {
  }

  /** A PCB with one writer keeps the promise of NilThenOne. */
  lemma OneWriterSees(cfg: Config, s: State)
    requires Reachable(cfg, s) && AtMostOne(cfg.writers) && !s.core.lost
    ensures NilThenOne(s)
  {
    var x: Tid := if t :| t in cfg.writers then t else 0;
    OneWriterSettled(cfg, x, s);
    var k := StreamIsWritesInLockOrder(cfg, s);
    var n := |s.core.served|;
    if n == 0 || s.core.served[n - 1] in s.core.nilReturned {
      AllNilSees(s, k);
    } else {
      assert Current(s)[..k] == [];
      LastOtherSees(s);
    }
  }

  lemma OneWriterSettled(cfg: Config, x: Tid, s: State)
    requires Reachable(cfg, s) && forall t :: t in cfg.writers ==> t == x
    ensures Settled(s.core, At(s, x))
    ensures Current(s) != [] ==> HolderPc(s) == At(s, x) && HolderPc(s).w in s.core.locked
  {
    OneWriterRun(cfg, x, s);
    ReachableInv(cfg, s);
    HolderWaits(cfg, s);
  }
}
