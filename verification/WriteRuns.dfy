/**
 Runs in which the stream is not what the callers of Write may expect: a Write that is too long, and two writers whose
 errors do not tell what was sent.  Each shows when exactly the expectation is met.  In all of them tcp_sndbuf reports
 TCP_SND_BUF bytes at most, and lwIP acknowledges only what it was given.
 */
module WriteRuns {
  import opened Common
  import T = TcpModel
  import opened Paths
  import opened WriteProtocol
  import opened WriteProperties

  /** Goroutine t at statement g, over the goroutines go. */
  function With(c: Core, go: map<Tid, Goroutine>, t: Tid, g: Goroutine): State {
    State(c, go[t := g])
  }

  lemma Reach(cfg: Config, s: State, e: Event)
    requires Reachable(cfg, s) && Enabled(cfg, s, e)
    ensures Reachable(cfg, Next(cfg, s, e))
  {
    ReachesOn(StepOf(cfg), Init(cfg), s, e, Next(cfg, s, e));
  }

  lemma GoThen(cfg: Config, c: Core, go: map<Tid, Goroutine>, t: Tid, g: Goroutine, c': Core, g': Goroutine)
    requires Reachable(cfg, With(c, go, t, g)) && g != Idle && !GoBlocked(c, g) && GoEffect(c, t, g) == (c', g')
    ensures Reachable(cfg, With(c', go, t, g'))
  {
    Reach(cfg, With(c, go, t, g), Run(t));
    assert go[t := g][t := g'] == go[t := g'];
  }

  lemma LoopThen(cfg: Config, c: Core, go: map<Tid, Goroutine>, e: Event, c': Core)
    requires Reachable(cfg, State(c, go)) && LoopEvent(c, e) && LoopEffect(cfg, c, e) == c'
    ensures Reachable(cfg, State(c', go))
  {
    Reach(cfg, State(c, go), e);
  }

  /** Nothing of the PCB is under way, and it is open. */
  predicate Quiet(c: Core) {
    && !c.err && c.sendCount == 0 && c.wait == 0 && !c.waitClosed && c.lock == None && c.registered
    && c.queue == [] && c.proc == Select && !c.lost
    && c.conn.live && c.conn.pending == [] && c.conn.phase == T.Accepted
  }

  ghost predicate AllOk(answers: T.Answers) {
    forall n: nat :: answers(n) == T.Ok
  }

  function AlwaysOk(): T.Answers {
    (n: nat) => T.Ok
  }

  /** A willing tcp_write and room enough: the send loop hands the whole chain over. */
  lemma {:induction false} AllGoes(conn: T.Conn, answers: T.Answers)
    requires AllOk(answers) && |Flatten(conn.pending)| <= conn.room
    ensures T.Drain(conn, answers) ==
            conn.(pending := [], sent := conn.sent + Flatten(conn.pending), writes := conn.writes + |conn.pending|,
                  room := conn.room - |Flatten(conn.pending)|)
    decreases |conn.pending|
  {
    if conn.pending == [] {
      assert conn.sent + [] == conn.sent;
    } else {
      AllGoes(T.HeadGone(conn), answers);
      assert conn.sent + conn.pending[0] + Flatten(conn.pending[1..]) ==
             conn.sent + (conn.pending[0] + Flatten(conn.pending[1..]));
    }
  }

  /** The connection after the buffer b was sent. */
  function Sent(conn: T.Conn, b: Bytes): T.Conn {
    var d := T.Truncated(b);
    conn.(sent := conn.sent + d, taken := conn.taken + d, writes := conn.writes + |T.Chunks(d)|,
          room := if |d| <= conn.room then conn.room - |d| else 0)
  }

  lemma SendAll(cfg: Config, conn: T.Conn, b: Bytes)
    requires conn.live && conn.pending == [] && |T.Truncated(b)| <= conn.room && AllOk(cfg.answers)
    ensures T.Step(conn, cfg.answers, T.AppSend(b, true)) == Sent(conn, b)
    ensures T.CharSend(conn, cfg.answers, b, true).1 == 0
  {
    T.ChunksAreTheBuffer(T.Truncated(b));
    AllGoes(conn.(pending := T.Chunks(T.Truncated(b)), taken := conn.taken + T.Truncated(b)), cfg.answers);
  }

  function Acked(conn: T.Conn, room: nat): T.Conn {
    conn.(room := room, upcalls := conn.upcalls + [T.SendDoneUp])
  }

  /** Up to the wait: the goroutine has the lock and its entry is queued. */
  lemma Enqueues(cfg: Config, c: Core, go: map<Tid, Goroutine>, t: Tid, w: Write)
    requires Reachable(cfg, State(c, go)) && At(State(c, go), t) == Idle
    requires Quiet(c) && t in cfg.writers && 1 <= |w.b| <= cfg.longest && w.id == c.next
    ensures Reachable(cfg, With(c.(next := c.next + 1, lock := Some(ByGo(t)), locked := c.locked + [w],
                                   queue := [Mine(w)]), go, t, WriteWait(w)))
  {
    Reach(cfg, State(c, go), CallWrite(t, w.b));
    var c1 := c.(next := c.next + 1);
    GoThen(cfg, c1, go, t, WriteTest(w), c1, WriteLock(w));
    var c2 := c.(next := c.next + 1, lock := Some(ByGo(t)), locked := c.locked + [w]);
    GoThen(cfg, c1, go, t, WriteLock(w), c2, WritePut(w));
    var c3 := c.(next := c.next + 1, lock := Some(ByGo(t)), locked := c.locked + [w], queue := [Mine(w)]);
    assert c2.queue + [Mine(w)] == [Mine(w)];
    GoThen(cfg, c2, go, t, WritePut(w), c3, WriteWait(w));
  }

  /** The loop sends the entry. */
  lemma LoopSends(cfg: Config, c: Core, go: map<Tid, Goroutine>, w: Write)
    requires Reachable(cfg, State(c.(queue := [Mine(w)]), go))
    requires !c.err && c.sendCount == 0 && c.proc == Select && c.queue == []
    requires c.conn.live && c.conn.pending == []
    ensures Reachable(cfg, State(c.(sendCount := 1, conn := T.Step(c.conn, cfg.answers, T.AppSend(w.b, true)),
                                    events := c.events + [T.AppSend(w.b, true)]), go))
  {
    var c1 := c.(proc := SendTest(w));
    assert [Mine(w)][1..] == [];
    LoopThen(cfg, c.(queue := [Mine(w)]), go, ProcTake, c1);
    var c2 := c.(proc := SendCount(w));
    LoopThen(cfg, c1, go, ProcRun(true), c2);
    var c3 := c.(sendCount := 1, proc := SendCall(w));
    LoopThen(cfg, c2, go, ProcRun(true), c3);
    LoopThen(cfg, c3, go, ProcRun(true),
             c.(sendCount := 1, conn := T.Step(c.conn, cfg.answers, T.AppSend(w.b, true)),
                events := c.events + [T.AppSend(w.b, true)]));
  }

  /** The loop is told of the acknowledgement and returns the token. */
  lemma LoopAcks(cfg: Config, c: Core, go: map<Tid, Goroutine>, room: nat)
    requires Reachable(cfg, State(c.(sendCount := 1), go))
    requires !c.err && c.sendCount == 0 && c.wait == 0 && !c.waitClosed && c.proc == Select && c.registered
    requires c.conn.live && c.conn.pending == [] && c.conn.phase == T.Accepted && T.Acks(c.events) < |c.conn.sent|
    ensures Reachable(cfg, State(c.(wait := 1, conn := Acked(c.conn, room),
                                    events := c.events + [T.SentCallback(room)]), go))
  {
    var d := c.(conn := Acked(c.conn, room), events := c.events + [T.SentCallback(room)]);
    assert T.Step(c.conn, cfg.answers, T.SentCallback(room)) == Acked(c.conn, room);
    LoopThen(cfg, c.(sendCount := 1), go, OnSent(room), d.(sendCount := 1, proc := DoneTest));
    LoopThen(cfg, d.(sendCount := 1, proc := DoneTest), go, ProcRun(true), d.(sendCount := 1, proc := DoneCheck));
    LoopThen(cfg, d.(sendCount := 1, proc := DoneCheck), go, ProcRun(true), d.(proc := DonePut));
    LoopThen(cfg, d.(proc := DonePut), go, ProcRun(true), d.(wait := 1));
  }

  /** The goroutine takes the token and gives the lock back. */
  lemma Collects(cfg: Config, c: Core, go: map<Tid, Goroutine>, t: Tid, w: Write)
    requires Reachable(cfg, With(c.(wait := 1, lock := Some(ByGo(t))), go, t, WriteWait(w)))
    requires c.wait == 0 && c.lock == None
    ensures Reachable(cfg, With(c.(served := c.served + [w]), go, t, WriteReturn(w)))
  {
    var c1 := c.(lock := Some(ByGo(t)), served := c.served + [w]);
    GoThen(cfg, c.(wait := 1, lock := Some(ByGo(t))), go, t, WriteWait(w), c1, WriteUnlock(w));
    GoThen(cfg, c1, go, t, WriteUnlock(w), c.(served := c.served + [w]), WriteReturn(w));
  }

  /** The core after a Write of b has been served, room being what lwIP reports then. */
  function AfterWrite(c: Core, b: Bytes, room: nat): Core {
    var w := Write(c.next, b);
    c.(next := c.next + 1, locked := c.locked + [w], served := c.served + [w],
       conn := Acked(Sent(c.conn, b), room), events := c.events + [T.AppSend(b, true)] + [T.SentCallback(room)])
  }

  lemma AcksAfterWrite(c: Core, b: Bytes, room: nat)
    ensures T.Acks(AfterWrite(c, b, room).events) == T.Acks(c.events) + 1
  {
    AcksGrow(c.events, T.AppSend(b, true));
    AcksGrow(c.events + [T.AppSend(b, true)], T.SentCallback(room));
  }

  /** A Write, up to but without reading the error it will return. */
  lemma Writes(cfg: Config, c: Core, go: map<Tid, Goroutine>, t: Tid, b: Bytes)
    requires Reachable(cfg, State(c, go)) && At(State(c, go), t) == Idle && Quiet(c) && t in cfg.writers
    requires AllOk(cfg.answers) && 1 <= |b| <= cfg.longest && |T.Truncated(b)| <= c.conn.room
    requires T.Acks(c.events) < |c.conn.sent| + |T.Truncated(b)|
    ensures Reachable(cfg, With(AfterWrite(c, b, cfg.room), go, t, WriteReturn(Write(c.next, b))))
    ensures Quiet(AfterWrite(c, b, cfg.room))
  {
    var w := Write(c.next, b);
    var held := c.(next := c.next + 1, lock := Some(ByGo(t)), locked := c.locked + [w]);
    var waiting := go[t := WriteWait(w)];
    assert Reachable(cfg, State(held.(queue := [Mine(w)]), waiting)) by {
      Enqueues(cfg, c, go, t, w);
    }
    var sent := held.(conn := Sent(c.conn, b), events := c.events + [T.AppSend(b, true)]);
    assert Reachable(cfg, State(sent.(sendCount := 1), waiting)) by {
      LoopSends(cfg, held, waiting, w);
      SendAll(cfg, c.conn, b);
    }
    AcksGrow(c.events, T.AppSend(b, true));
    var acked := c.(next := c.next + 1, locked := c.locked + [w], conn := Acked(Sent(c.conn, b), cfg.room),
                    events := c.events + [T.AppSend(b, true)] + [T.SentCallback(cfg.room)]);
    assert Reachable(cfg, With(acked.(wait := 1, lock := Some(ByGo(t))), go, t, WriteWait(w))) by {
      LoopAcks(cfg, sent, waiting, cfg.room);
    }
    Collects(cfg, acked, go, t, w);
    assert acked.(served := acked.served + [w]) == AfterWrite(c, b, cfg.room);
  }

  // ---------------------------------------------------------------- a Write that is too long

  /** tcp_sndbuf never reported more than the size of the send buffer. */
  predicate RoomsFit(events: seq<T.Event>) {
    forall i :: 0 <= i < |events| ==> match events[i]
                                      case SentCallback(room) => room <= T.TCP_SND_BUF
                                      case PollCallback(room) => room <= T.TCP_SND_BUF
                                      case _ => true
  }

  predicate SmallPbufs(ss: seq<Bytes>) {
    forall i :: 0 <= i < |ss| ==> 1 <= |ss[i]| <= T.PBUF_POOL_BUFSIZE
  }

  lemma FirstOfChain(ss: seq<Bytes>, n: nat)
    requires SmallPbufs(ss) && 1 <= n <= |ss|
    ensures |Flatten(ss[..n])| >= 1 && SmallPbufs(ss[n..]) && Flatten(ss) == Flatten(ss[..n]) + Flatten(ss[n..])
  {
    FlattenSplit(ss, n);
    assert Flatten(ss[..n]) == ss[0] + Flatten(ss[..n][1..]);
  }

  /** With the whole send buffer free, and a willing tcp_write, the head of a chain goes, and in order. */
  lemma HeadGoes(conn: T.Conn, answers: T.Answers)
    requires AllOk(answers) && conn.room == T.TCP_SND_BUF && conn.pending != [] && SmallPbufs(conn.pending)
    ensures var conn' := T.Drain(conn, answers);
            && conn' == conn.(pending := conn'.pending, sent := conn'.sent, room := conn'.room, writes := conn'.writes)
            && |conn'.pending| < |conn.pending| && SmallPbufs(conn'.pending) && |conn'.sent| > |conn.sent|
            && conn'.sent + Flatten(conn'.pending) == conn.sent + Flatten(conn.pending)
  {
    var n := T.Handed(conn, answers);
    T.DrainHandsOver(conn, answers);
    assert n >= 1 by {
      T.HandedIsMaximal(conn, answers, 0);
      assert Flatten(conn.pending[..1]) == conn.pending[0];
    }
    FirstOfChain(conn.pending, n);
  }

  /** One send is under way, the queue is empty, and lwIP has something left to acknowledge. */
  predicate Sending(c: Core) {
    && !c.err && c.sendCount == 1 && c.proc == Select
    && c.conn.live && c.conn.phase == T.Accepted && SmallPbufs(c.conn.pending)
    && T.Acks(c.events) < |c.conn.sent|
  }

  /** Acknowledgement after acknowledgement the chain goes. */
  lemma {:induction false} Drains(cfg: Config, c: Core, go: map<Tid, Goroutine>) returns (c': Core)
    requires Reachable(cfg, State(c, go)) && Sending(c) && AllOk(cfg.answers)
    ensures Reachable(cfg, State(c', go)) && Sending(c') && c'.conn.pending == []
    ensures c' == c.(conn := c'.conn, events := c'.events)
    ensures c'.conn.sent == c.conn.sent + Flatten(c.conn.pending)
    ensures RoomsFit(c.events) ==> RoomsFit(c'.events)
    decreases |c.conn.pending|
  {
    if c.conn.pending == [] {
      c' := c;
    } else {
      var fed := T.SentCallback(T.TCP_SND_BUF);
      var conn := T.Drain(c.conn.(room := T.TCP_SND_BUF), cfg.answers);
      HeadGoes(c.conn.(room := T.TCP_SND_BUF), cfg.answers);
      AcksGrow(c.events, fed);
      LoopThen(cfg, c, go, OnSent(T.TCP_SND_BUF), c.(conn := conn, events := c.events + [fed]));
      c' := Drains(cfg, c.(conn := conn, events := c.events + [fed]), go);
    }
  }

  /** The C side takes a buffer of which something is left modulo 65536, and sends the first of it. */
  lemma SendStarts(conn: T.Conn, answers: T.Answers, b: Bytes)
    requires conn.live && conn.pending == [] && conn.room == T.TCP_SND_BUF && AllOk(answers) && |b| % T.U16 != 0
    ensures var conn' := T.Step(conn, answers, T.AppSend(b, true));
            && conn'.live && conn'.phase == conn.phase && SmallPbufs(conn'.pending) && |conn'.sent| > |conn.sent|
            && conn'.sent + Flatten(conn'.pending) == conn.sent + T.Truncated(b)
  {
    T.ChunksAreTheBuffer(T.Truncated(b));
    T.ChunksAreNotEmpty(T.Truncated(b));
    HeadGoes(conn.(pending := T.Chunks(T.Truncated(b)), taken := conn.taken + T.Truncated(b)), answers);
  }

  /** The core of a new PCB whose only Write w waits for the token while its bytes are on their way. */
  predicate LoneSending(cfg: Config, t: Tid, w: Write, c: Core) {
    && Sending(c) && RoomsFit(c.events)
    && c == Init(cfg).core.(next := 1, lock := Some(ByGo(t)), locked := [w], sendCount := 1,
                            conn := c.conn, events := c.events)
  }

  lemma LoneStarts(cfg: Config, t: Tid, w: Write) returns (c: Core)
    requires t in cfg.writers && 1 <= |w.b| <= cfg.longest && w.id == 0 && |w.b| % T.U16 != 0
    requires cfg.room == T.TCP_SND_BUF && AllOk(cfg.answers)
    ensures Reachable(cfg, With(c, map[], t, WriteWait(w))) && LoneSending(cfg, t, w, c)
    ensures c.conn.sent + Flatten(c.conn.pending) == T.Truncated(w.b)
  {
    var c0 := Init(cfg).core;
    var held := c0.(next := 1, lock := Some(ByGo(t)), locked := [w]);
    ReachesItself(StepOf(cfg), Init(cfg));
    assert Reachable(cfg, State(held.(queue := [Mine(w)]), map[t := WriteWait(w)])) by {
      Enqueues(cfg, c0, map[], t, w);
      assert c0.locked + [w] == [w] && map[][t := WriteWait(w)] == map[t := WriteWait(w)];
    }
    SendStarts(c0.conn, cfg.answers, w.b);
    AcksGrow([], T.AppSend(w.b, true));
    c := held.(sendCount := 1, conn := T.Step(c0.conn, cfg.answers, T.AppSend(w.b, true)),
               events := [] + [T.AppSend(w.b, true)]);
    LoopSends(cfg, held, map[t := WriteWait(w)], w);
    assert map[][t := WriteWait(w)] == map[t := WriteWait(w)];
  }

  /**
   For every length but the multiples of 65536: a Write alone on its PCB, with memory, returns nil when lwIP was given
   its first |b| modulo 65536 bytes, as many turns of the send buffer as that takes.
   */
  lemma LoneWrite(writers: set<Tid>, longest: nat, t: Tid, b: Bytes) returns (cfg: Config, s: State)
    requires t in writers && 1 <= |b| <= longest && |b| % T.U16 != 0
    ensures cfg.writers == writers && cfg.longest == longest && Reachable(cfg, s) && !s.core.lost
    ensures cfg.room == T.TCP_SND_BUF && RoomsFit(s.core.events)
    ensures s.core.locked == s.core.served == [Write(0, b)] && s.core.nilReturned == {Write(0, b)}
    ensures s.core.conn.sent == b[..|b| % T.U16] && s.core.conn.pending == [] && s.core.lock == None
  {
    cfg := Config(writers, AlwaysOk(), T.TCP_SND_BUF, longest);
    var w := Write(0, b);
    var c1 := LoneStarts(cfg, t, w);
    var c2 := Drains(cfg, c1, map[][t := WriteWait(w)]);
    s := LoneReturns(cfg, t, w, c2);
  }

  lemma LoneReturns(cfg: Config, t: Tid, w: Write, c: Core) returns (s: State)
    requires Reachable(cfg, With(c, map[], t, WriteWait(w)))
    requires LoneSending(cfg, t, w, c) && c.conn.pending == []
    ensures Reachable(cfg, s) && s.core.locked == s.core.served == [w] && s.core.nilReturned == {w}
    ensures s.core.conn.sent == c.conn.sent && s.core.conn.pending == [] && s.core.lock == None && !s.core.lost
    ensures RoomsFit(s.core.events)
  {
    var waiting: map<Tid, Goroutine> := map[][t := WriteWait(w)];
    var acked := c.(sendCount := 0, lock := None, conn := Acked(c.conn, T.TCP_SND_BUF),
                    events := c.events + [T.SentCallback(T.TCP_SND_BUF)]);
    assert Reachable(cfg, With(acked.(wait := 1, lock := Some(ByGo(t))), map[], t, WriteWait(w))) by {
      assert c.(sendCount := 0).(sendCount := 1) == c;
      LoopAcks(cfg, c.(sendCount := 0), waiting, T.TCP_SND_BUF);
    }
    Collects(cfg, acked, map[], t, w);
    var served := acked.(served := acked.served + [w]);
    assert [] + [w] == [w] && served.nilReturned + {w} == {w};
    GoThen(cfg, served, map[], t, WriteReturn(w), served.(nilReturned := {w}), Idle);
    s := With(served.(nilReturned := {w}), map[], t, Idle);
  }

  /** The only Write there has been, of b, has returned nil. */
  ghost predicate ReturnedAlone(cfg: Config, s: State, b: Bytes) {
    && Reachable(cfg, s) && !s.core.lost
    && |s.core.locked| == 1 && s.core.locked[0].b == b && s.core.locked[0] in s.core.nilReturned
  }

  lemma ReturnedAloneSends(cfg: Config, s: State, b: Bytes)
    requires ReturnedAlone(cfg, s, b)
    ensures |b| % T.U16 != 0
  {
    ReachableInv(cfg, s);
    TokensArePaid(cfg, s);
    var k := StreamIsWritesInLockOrder(cfg, s);
    assert s.core.served == s.core.locked;
    assert s.core.served[..0] == [] && Bodies(s.core.served) == [] + T.Truncated(b);
  }

  /**
   A Write alone on its PCB, with memory, can return nil if and only if something of its length is left modulo 65536:
   of the others C sends nothing, nothing is acknowledged, and they wait on.
   */
  lemma LoneWriteReturnsIff(b: Bytes)
    requires b != []
    ensures (exists cfg, s :: ReturnedAlone(cfg, s, b)) <==> |b| % T.U16 != 0
  {
    if |b| % T.U16 != 0 {
      var cfg, s := LoneWrite({0}, |b|, 0, b);
      assert ReturnedAlone(cfg, s, b);
    }
    forall cfg, s | ReturnedAlone(cfg, s, b) ensures |b| % T.U16 != 0 {
      ReturnedAloneSends(cfg, s, b);
    }
  }

  /** A Write on a quiet PCB, with what it returns. */
  lemma WritesAndReturns(cfg: Config, c: Core, go: map<Tid, Goroutine>, t: Tid, b: Bytes) returns (c': Core)
    requires Reachable(cfg, State(c, go)) && At(State(c, go), t) == Idle && Quiet(c) && t in cfg.writers
    requires AllOk(cfg.answers) && 1 <= |b| <= cfg.longest && |T.Truncated(b)| <= c.conn.room
    requires T.Acks(c.events) < |c.conn.sent| + |T.Truncated(b)|
    ensures Reachable(cfg, With(c', go, t, Idle)) && Quiet(c')
    ensures c' == AfterWrite(c, b, cfg.room).(nilReturned := c.nilReturned + {Write(c.next, b)})
    ensures T.Acks(c'.events) == T.Acks(c.events) + 1
  {
    var after := AfterWrite(c, b, cfg.room);
    c' := after.(nilReturned := c.nilReturned + {Write(c.next, b)});
    Writes(cfg, c, go, t, b);
    AcksAfterWrite(c, b, cfg.room);
    GoThen(cfg, after, go, t, WriteReturn(Write(c.next, b)), c', Idle);
  }

  /** Two bytes were sent, acknowledged once, and their Write has returned nil. */
  predicate HalfAcked(c: Core) {
    && Quiet(c) && c.served == [Write(0, [1, 2])] && c.conn.sent == [1, 2] && c.nilReturned == {Write(0, [1, 2])}
    && c.next == 1 && T.Acks(c.events) == 1 && RoomsFit(c.events)
  }

  lemma SendsTwoBytes(cfg: Config, t: Tid) returns (c: Core)
    requires cfg.answers == AlwaysOk() && cfg.room == T.TCP_SND_BUF && cfg.longest >= 2 && t in cfg.writers
    ensures Reachable(cfg, State(c, map[t := Idle])) && HalfAcked(c) && c.conn.room == cfg.room
  {
    var c0 := Init(cfg).core;
    ReachesItself(StepOf(cfg), Init(cfg));
    assert T.Truncated([1, 2]) == [1, 2];
    c := WritesAndReturns(cfg, c0, map[], t, [1, 2]);
    assert map[][t := Idle] == map[t := Idle];
  }

  /**
   In company such a Write can return nil too: two bytes sent before it are acknowledged one at a time, and the second
   acknowledgement gives it the token.
   */
  lemma EmptyWriteReturns(writers: set<Tid>, longest: nat, t: Tid, b: Bytes) returns (cfg: Config, s: State)
    requires t in writers && 2 <= |b| <= longest && |b| % T.U16 == 0
    ensures cfg.writers == writers && cfg.longest == longest && Reachable(cfg, s) && !s.core.lost
    ensures cfg.room == T.TCP_SND_BUF && RoomsFit(s.core.events)
    ensures s.core.served == [Write(0, [1, 2]), Write(1, b)] && s.core.conn.sent == [1, 2]
    ensures s.core.nilReturned == {Write(0, [1, 2]), Write(1, b)} && s.core.lock == None
  {
    cfg := Config(writers, AlwaysOk(), T.TCP_SND_BUF, longest);
    var c1 := SendsTwoBytes(cfg, t);
    assert T.Truncated(b) == [];
    var c2 := WritesAndReturns(cfg, c1, map[t := Idle], t, b);
    s := With(c2, map[t := Idle], t, Idle);
  }

  /** The buffer of the Write under the lock. */
  function InHand(s: State): Bytes {
    if !s.core.err && HolderPc(s).WriteWait? then HolderPc(s).w.b else []
  }

  /** The stream is the buffers of the served Writes, whole, then a prefix of the one under the lock. */
  ghost predicate Whole(s: State) {
    exists k: nat :: k <= |InHand(s)| && s.core.conn.sent == Plain(s.core.served) + InHand(s)[..k]
  }

  predicate Short(cfg: Config, w: Write) {
    |w.b| <= cfg.longest && cfg.writers != {}
  }

  /** Every Write that is under way or was served is as short as the callers promised. */
  ghost predicate AllShort(cfg: Config, s: State) {
    && (forall t: Tid :: Writing(At(s, t)) ==> Short(cfg, At(s, t).w))
    && (forall w :: w in s.core.served ==> Short(cfg, w))
  }

  lemma GoKeepsShort(cfg: Config, c: Core, t: Tid, g: Goroutine)
    requires g != Idle && !GoBlocked(c, g) && (Writing(g) ==> Short(cfg, g.w))
    requires forall w :: w in c.served ==> Short(cfg, w)
    ensures var (c', g') := GoEffect(c, t, g);
            (Writing(g') ==> Short(cfg, g'.w)) && forall w :: w in c'.served ==> Short(cfg, w)
  {
  }

  lemma ShortKept(cfg: Config, s: State, e: Event)
    requires AllShort(cfg, s) && Enabled(cfg, s, e)
    ensures AllShort(cfg, Next(cfg, s, e))
  {
    var s' := Next(cfg, s, e);
    if e.CallWrite? || e.CallClose? || e.Run? {
      assert forall u: Tid :: u != e.t ==> At(s', u) == At(s, u);
      if e.Run? {
        GoKeepsShort(cfg, s.core, e.t, At(s, e.t));
      }
    } else {
      ShellSpares(s.core, e, Accepted(cfg, s.core, e));
      assert forall u: Tid :: At(s', u) == At(s, u);
    }
  }

  /** With buffers below 65536 bytes, and memory, everything goes out whole. */
  lemma ShortWritesAreWhole(cfg: Config, s: State)
    requires Reachable(cfg, s) && !s.core.lost && (cfg.longest < T.U16 || cfg.writers == {})
    ensures Whole(s)
  {
    ReachableIsShort(cfg, s);
    var k := StreamIsWritesInLockOrder(cfg, s);
    assert s.core.conn.sent == Plain(s.core.served) + InHand(s)[..k];
  }

  /** Truncation makes no difference then. */
  lemma ReachableIsShort(cfg: Config, s: State)
    requires Reachable(cfg, s) && (cfg.longest < T.U16 || cfg.writers == {})
    ensures Bodies(s.core.served) == Plain(s.core.served) && InHand(s) == Current(s)
  {
    ReachableAllShort(cfg, s);
    ServedAreShort(cfg, s.core.served);
    HolderIsShort(cfg, s);
  }

  lemma ReachableAllShort(cfg: Config, s: State)
    requires Reachable(cfg, s)
    ensures AllShort(cfg, s)
  {
    forall s, e, s' | StepOf(cfg)(s, e, s') && AllShort(cfg, s) ensures AllShort(cfg, s') {
      ShortKept(cfg, s, e);
    }
    Invariant(StepOf(cfg), (s: State) => AllShort(cfg, s), Init(cfg), s);
  }

  lemma ServedAreShort(cfg: Config, ws: seq<Write>)
    requires (cfg.longest < T.U16 || cfg.writers == {}) && forall w :: w in ws ==> Short(cfg, w)
    ensures Bodies(ws) == Plain(ws)
  {
    forall i | 0 <= i < |ws| ensures |ws[i].b| < T.U16 {
      assert Short(cfg, ws[i]);
    }
    BodiesArePlainIff(ws);
  }

  lemma HolderIsShort(cfg: Config, s: State)
    requires AllShort(cfg, s) && (cfg.longest < T.U16 || cfg.writers == {})
    ensures InHand(s) == Current(s)
  {
    var h := HolderPc(s);
    if h.WriteWait? {
      assert h == At(s, s.core.lock.value.t);
      T.TakenWholeIff(h.w.b);
    }
  }

  /**
   In every run without memory shortage the buffers go out whole, in lock order, if and only if the callers keep them
   below 65536 bytes (or nobody writes).
   */
  lemma WholeIffShort(writers: set<Tid>, longest: nat)
    ensures longest < T.U16 || writers == {} <==>
            forall cfg: Config, s: State ::
              cfg.writers == writers && cfg.longest == longest && Reachable(cfg, s) && !s.core.lost ==> Whole(s)
  {
    if longest < T.U16 || writers == {} {
      forall cfg: Config, s: State |
        cfg.writers == writers && cfg.longest == longest && Reachable(cfg, s) && !s.core.lost
        ensures Whole(s)
      {
        ShortWritesAreWhole(cfg, s);
      }
    } else {
      var t :| t in writers;
      var cfg, s := EmptyWriteReturns(writers, longest, t, seq(T.U16, _ => 0));
      NotWhole(s, seq(T.U16, _ => 0));
    }
  }

  lemma NotWhole(s: State, b: Bytes)
    requires s.core.served == [Write(0, [1, 2]), Write(1, b)] && s.core.conn.sent == [1, 2] && s.core.lock == None
    requires |b| == T.U16
    ensures !Whole(s)
  {
    var first := [Write(0, [1, 2])];
    assert s.core.served[..1] == first && first[..0] == [];
    assert Plain(first) == [] + [1, 2];
    assert |Plain(s.core.served)| == 2 + |b|;
  }

  // ---------------------------------------------------------------- a Write that is sent and returns an error

  /** Goroutine t calls Close and wins the lock. */
  lemma ClosesEnter(cfg: Config, c: Core, go: map<Tid, Goroutine>, t: Tid)
    requires Reachable(cfg, State(c, go)) && At(State(c, go), t) == Idle && Quiet(c)
    ensures Reachable(cfg, With(c.(lock := Some(ByGo(t))), go, t, CloseErr))
  {
    var held := c.(lock := Some(ByGo(t)));
    Reach(cfg, State(c, go), CallClose(t));
    GoThen(cfg, c, go, t, CloseLock, held, CloseTest);
    GoThen(cfg, held, go, t, CloseTest, held, CloseErr);
  }

  /** Goroutine t closes the PCB. */
  lemma Closes(cfg: Config, c: Core, go: map<Tid, Goroutine>, t: Tid)
    requires Reachable(cfg, State(c, go)) && At(State(c, go), t) == Idle && Quiet(c)
    ensures Reachable(cfg, With(c.(err := true, waitClosed := true), go, t, Idle))
  {
    var held := c.(lock := Some(ByGo(t)));
    ClosesEnter(cfg, c, go, t);
    GoThen(cfg, held, go, t, CloseErr, held.(err := true), CloseChan);
    GoThen(cfg, held.(err := true), go, t, CloseChan, held.(err := true, waitClosed := true), CloseUnlock);
    GoThen(cfg, held.(err := true, waitClosed := true), go, t, CloseUnlock, c.(err := true, waitClosed := true), Idle);
  }

  /** What the two Writes leave: both served, the second one's writer has returned nil, the first one's not yet. */
  predicate BothServed(c: Core) {
    && Quiet(c) && c.conn.sent == [1, 2] && c.served == [Write(0, [1]), Write(1, [2])]
    && c.nilReturned == {Write(1, [2])} && c.failed == {}
  }

  lemma TwoWritersServed(cfg: Config, t: Tid, u: Tid) returns (c: Core, go: map<Tid, Goroutine>)
    requires t in cfg.writers && u in cfg.writers && t != u
    requires cfg.answers == AlwaysOk() && cfg.room == T.TCP_SND_BUF && cfg.longest == 1
    ensures Reachable(cfg, State(c, go)) && BothServed(c)
    ensures go == map[t := WriteReturn(Write(0, [1])), u := Idle]
  {
    var c0, w2 := Init(cfg).core, Write(1, [2]);
    ReachesItself(StepOf(cfg), Init(cfg));
    var c1, go1 := AfterWrite(c0, [1], cfg.room), map[t := WriteReturn(Write(0, [1]))];
    assert Reachable(cfg, State(c1, go1)) && Quiet(c1) by {
      Writes(cfg, c0, map[], t, [1]);
      assert map[][t := WriteReturn(Write(0, [1]))] == go1;
    }
    assert T.Acks(c1.events) < |c1.conn.sent| + |T.Truncated([2])| by {
      AcksAfterWrite(c0, [1], cfg.room);
    }
    var c2 := AfterWrite(c1, [2], cfg.room);
    assert Reachable(cfg, With(c2, go1, u, WriteReturn(w2))) && Quiet(c2) by {
      Writes(cfg, c1, go1, u, [2]);
    }
    c, go := c2.(nilReturned := {w2}), go1[u := Idle];
    assert c2.nilReturned + {w2} == {w2};
    GoThen(cfg, c2, go1, u, WriteReturn(w2), c, Idle);
  }

  /**
   t's Write is served but t has not read p.err yet; u's Write is served and returns nil; the PCB is closed; t reads
   p.err and returns an error.  Both bytes are in the stream, t's before u's.
   */
  lemma TwoWritersConfuse(writers: set<Tid>, t: Tid, u: Tid) returns (cfg: Config, s: State)
    requires t in writers && u in writers && t != u
    ensures cfg.writers == writers && Reachable(cfg, s) && !s.core.lost
    ensures s.core.conn.sent == [1, 2] && s.core.served == [Write(0, [1]), Write(1, [2])]
    ensures s.core.nilReturned == {Write(1, [2])} && s.core.failed == {Write(0, [1])}
  {
    cfg := Config(writers, AlwaysOk(), T.TCP_SND_BUF, 1);
    var c, go := TwoWritersServed(cfg, t, u);
    var w1, closed := Write(0, [1]), c.(err := true, waitClosed := true);
    Closes(cfg, c, go, u);
    assert go[u := Idle] == go && go[t := WriteReturn(w1)] == go && closed.failed + {w1} == {w1};
    GoThen(cfg, closed, go, t, WriteReturn(w1), closed.(failed := {w1}), Idle);
    s := With(closed.(failed := {w1}), go, t, Idle);
  }

  lemma SecondOnly(w1: Write, w2: Write)
    requires w1 != w2 && w2.b == [2]
    ensures Bodies(OnlyNil([w1, w2], {w2})) == [2]
  {
    assert [w1, w2][..1] == [w1] && [w1][..0] == [] && OnlyNil([w1], {w2}) == [];
    assert OnlyNil([w1, w2], {w2}) == [w2];
    assert [w2][..0] == [] && T.Truncated(w2.b) == [2];
  }

  /**
   The returned errors tell the stream, in the sense of NilThenOne, in every run without memory shortage if and only
   if at most one goroutine writes to the PCB.
   */
  lemma ErrorsTellTheStreamIffOneWriter(writers: set<Tid>)
    ensures AtMostOne(writers) <==>
            forall cfg: Config, s: State ::
              cfg.writers == writers && Reachable(cfg, s) && !s.core.lost ==> NilThenOne(s)
  {
    if AtMostOne(writers) {
      forall cfg: Config, s: State | cfg.writers == writers && Reachable(cfg, s) && !s.core.lost ensures NilThenOne(s) {
        OneWriterSees(cfg, s);
      }
    } else {
      var t, u :| t in writers && u in writers && t != u;
      var cfg, s := TwoWritersConfuse(writers, t, u);
      SecondOnly(Write(0, [1]), Write(1, [2]));
      assert forall r: Bytes :: ([2] + r)[0] == 2;
      assert !NilThenOne(s);
    }
  }

  // ---------------------------------------------------------------- a close that waits for good

  /** Only the loop can set h, which holds the lock, going again: with a token, or by making room in the queue. */
  predicate NeedsLoop(c: Core, h: Goroutine) {
    (h.WriteWait? && c.wait == 0 && !c.waitClosed) ||
    (h.WritePut? && (!c.waitClosed || |c.queue| >= QUEUE_CAPACITY))
  }

  /** The loop waits in close for a lock whose holder waits for the loop. */
  predicate Doomed(s: State) {
    s.core.proc.EndLock? && NeedsLoop(s.core, HolderPc(s))
  }

  lemma DoomedGoroutine(c: Core, h: Goroutine, t: Tid, g: Goroutine)
    requires g != Idle && !GoBlocked(c, g) && Agree(c, h, t, g) && c.proc.EndLock?
    requires NeedsLoop(c, h) && (h.WritePut? ==> c.wait == 0)
    ensures var (c', g') := GoEffect(c, t, g);
            && c'.proc == c.proc && c'.lock == c.lock && c'.conn == c.conn && c'.served == c.served
            && NeedsLoop(c', HolderAfter(h, g, g'))
  {
    match g
    case WriteTest(_) =>
    case WriteLock(_) =>
    case WritePut(_) =>
    case WriteWait(_) =>
    case WriteUnlock(_) =>
    case WriteReturn(_) =>
    case CloseLock =>
    case CloseTest =>
    case CloseErr =>
    case CloseChan =>
    case CloseUnlock =>
  }

  /** Nothing moves any more between the Writes, the loop and the connection. */
  predicate SameCore(c: Core, c': Core) {
    c'.proc == c.proc && c'.lock == c.lock && c'.conn == c.conn && c'.served == c.served
  }

  lemma DoomedStays(cfg: Config, s: State, e: Event)
    requires Inv(cfg, s) && Doomed(s) && Enabled(cfg, s, e)
    ensures Doomed(Next(cfg, s, e)) && SameCore(s.core, Next(cfg, s, e).core)
  {
    if e.CallWrite? || e.CallClose? || e.Run? {
      HolderMoves(cfg, s, e);
      if e.Run? {
        DoomedGoroutine(s.core, HolderPc(s), e.t, At(s, e.t));
      }
    } else {
      assert s.core.lock.Some?;
    }
  }

  /** Then it waits for good: whatever happens, the loop, the lock, the connection and the stream stay as they are. */
  lemma DoomedForGood(cfg: Config, s: State, s': State)
    requires Reachable(cfg, s) && Doomed(s) && Reaches(StepOf(cfg), s, s')
    ensures Doomed(s') && SameCore(s.core, s'.core)
  {
    ReachableInv(cfg, s);
    forall a, e, b | StepOf(cfg)(a, e, b) && Inv(cfg, a) && Doomed(a) && SameCore(s.core, a.core)
      ensures Inv(cfg, b) && Doomed(b) && SameCore(s.core, b.core)
    {
      StepKeepsInv(cfg, a, e);
      DoomedStays(cfg, a, e);
    }
    Invariant(StepOf(cfg), (a: State) => Inv(cfg, a) && Doomed(a) && SameCore(s.core, a.core), s, s');
  }

  /** How many statements the holder of the lock has before it gives it back. */
  function Left(h: Goroutine): nat {
    match h
    case WritePut(_) => 3
    case WriteWait(_) => 2
    case WriteUnlock(_) => 1
    case CloseTest => 4
    case CloseErr => 3
    case CloseChan => 2
    case CloseUnlock => 1
    case _ => 0
  }

  lemma HolderGoesOn(c: Core, t: Tid, g: Goroutine)
    requires GoHolds(g) && !NeedsLoop(c, g) && (g.WriteWait? && c.wait == 0 ==> c.waitClosed)
    requires g.WritePut? ==> |c.queue| < QUEUE_CAPACITY && c.waitClosed
    ensures !GoBlocked(c, g)
    ensures var (c', g') := GoEffect(c, t, g);
            && c'.proc == c.proc && Left(if GoHolds(g') then g' else Idle) < Left(g)
            && !NeedsLoop(c', if GoHolds(g') then g' else Idle)
  {
  }

  /** Otherwise it need not: the holder can finish, and then the loop has the lock. */
  lemma {:induction false} OthersCanLeave(cfg: Config, s: State) returns (s': State)
    requires Inv(cfg, s) && s.core.proc.EndLock? && !Doomed(s)
    ensures Reaches(StepOf(cfg), s, s') && !s'.core.proc.EndLock?
    decreases Left(HolderPc(s))
  {
    var e: Event;
    if s.core.lock == None {
      e := ProcRun(true);
      s' := Next(cfg, s, e);
      ReachesItself(StepOf(cfg), s);
      ReachesOn(StepOf(cfg), s, s, e, s');
    } else {
      var t := s.core.lock.value.t;
      e := Run(t);
      assert GoHolds(At(s, t));
      HolderGoesOn(s.core, t, At(s, t));
      HolderMoves(cfg, s, e);
      StepKeepsInv(cfg, s, e);
      s' := OthersCanLeave(cfg, Next(cfg, s, e));
      ReachesItself(StepOf(cfg), s);
      ReachesOn(StepOf(cfg), s, s, e, Next(cfg, s, e));
      ReachesJoin(StepOf(cfg), s, Next(cfg, s, e), s');
    }
  }

  /** A loop that waits for the lock of close waits for good if and only if the holder waits for the loop. */
  lemma WaitsForGoodIff(cfg: Config, s: State)
    requires Reachable(cfg, s) && s.core.proc.EndLock?
    ensures Doomed(s) <==> forall s' :: Reaches(StepOf(cfg), s, s') ==> s'.core.proc.EndLock?
  {
    if Doomed(s) {
      forall s' | Reaches(StepOf(cfg), s, s') ensures s'.core.proc.EndLock? {
        DoomedForGood(cfg, s, s');
      }
    } else {
      ReachableInv(cfg, s);
      var s' := OthersCanLeave(cfg, s);
    }
  }

  /** It happens: the peer closes, or the connection fails, before the byte of a Write is acknowledged. */
  lemma PeerCloses(writers: set<Tid>, t: Tid, peer: bool) returns (cfg: Config, s: State)
    requires t in writers
    ensures cfg.writers == writers && Reachable(cfg, s) && Doomed(s) && !s.core.lost
    ensures s.core.conn.sent == [1] && s.core.lock == Some(ByGo(t)) && s.core.proc == EndLock(peer)
  {
    cfg := Config(writers, AlwaysOk(), T.TCP_SND_BUF, 1);
    var w := Write(0, [1]);
    var c1 := LoneStarts(cfg, t, w);
    assert T.Truncated([1]) == [1];
    var c2 := Drains(cfg, c1, map[][t := WriteWait(w)]);
    var go: map<Tid, Goroutine> := map[][t := WriteWait(w)];
    LoopThen(cfg, c2, go, OnClose(peer), c2.(proc := EndLookup(peer)));
    LoopThen(cfg, c2.(proc := EndLookup(peer)), go, ProcRun(true), c2.(proc := EndLock(peer), registered := false));
    s := State(c2.(proc := EndLock(peer), registered := false), go);
  }
}
