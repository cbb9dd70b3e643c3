/**
 One TCP connection as src/tcp.c drives it, on values.  lwIP is the environment: tcp_write answers as it likes but
 takes all of the data or none, the send buffer's room is whatever lwIP reports, and only registered callbacks run.
 */
module TcpModel {
  import opened Common

  /** What tcp_write answers: ERR_OK, ERR_MEM, or another error. */
  datatype Err = Ok | Mem | Bad

  /** The answer to the n-th call of tcp_write, for every n. */
  type Answers = nat -> Err

  const PBUF_POOL_BUFSIZE: nat := 256
  const TCP_SND_BUF: nat := 2048
  const U16: nat := 0x1_0000

  datatype Phase = Accepted | Received | Closing

  datatype Upcall = AcceptUp | RecvUp | SendDoneUp | CloseUp

  /**
   pending: the payloads of the pbuf chain es->p, head first.  room: tcp_sndbuf.  sent: every byte tcp_write took.
   writes: how often tcp_write was called.  taken: every byte cs_tcp_char_send took.  dropped: the bytes freed unsent
   when the connection closed.  live: es is allocated and registered with lwIP.
   */
  datatype Conn = Conn(
    pending: seq<Bytes>,
    room: nat,
    sent: Bytes,
    writes: nat,
    phase: Phase,
    live: bool,
    taken: Bytes,
    dropped: Bytes,
    upcalls: seq<Upcall>)

  /** cs_tcp_raw_accept. */
  function Accept(room: nat): Conn {
    Conn([], room, [], 0, Accepted, true, [], [], [AcceptUp])
  }

  // ---------------------------------------------------------------- pbuf_alloc and pbuf_take

  /** A buffer cut into pool pbufs; an empty one still gets a pbuf. */
  function Chunks(b: Bytes): (r: seq<Bytes>)
    ensures r != []
    decreases |b|
  {
    if |b| <= PBUF_POOL_BUFSIZE then [b] else [b[..PBUF_POOL_BUFSIZE]] + Chunks(b[PBUF_POOL_BUFSIZE..])
  }

  predicate SmallChunks(ss: seq<Bytes>) {
    forall i :: 0 <= i < |ss| ==> |ss[i]| <= PBUF_POOL_BUFSIZE
  }

  lemma {:induction false} ChunksAreTheBuffer(b: Bytes)
    ensures Flatten(Chunks(b)) == b && SmallChunks(Chunks(b))
    ensures |Chunks(b)| == if b == [] then 1 else (|b| + PBUF_POOL_BUFSIZE - 1) / PBUF_POOL_BUFSIZE
    decreases |b|
  {
    if |b| <= PBUF_POOL_BUFSIZE {
      FlattenOne(b);
    } else {
      ChunksAreTheBuffer(b[PBUF_POOL_BUFSIZE..]);
      assert Chunks(b)[1..] == Chunks(b[PBUF_POOL_BUFSIZE..]);
      assert b == b[..PBUF_POOL_BUFSIZE] + b[PBUF_POOL_BUFSIZE..];
    }
  }

  /** The length parameters of pbuf_alloc and pbuf_take are 16 bits wide, the caller's is an int. */
  function Truncated(b: Bytes): Bytes {
    b[..|b| % U16]
  }

  /** A buffer is taken whole exactly when its length fits 16 bits. */
  lemma TakenWholeIff(b: Bytes)
    ensures Truncated(b) == b <==> |b| < U16
  {
  }

  /** Only an empty buffer makes an empty pbuf. */
  lemma {:induction false} ChunksAreNotEmpty(b: Bytes)
    requires b != []
    ensures forall i :: 0 <= i < |Chunks(b)| ==> 1 <= |Chunks(b)[i]| <= PBUF_POOL_BUFSIZE
    decreases |b|
  {
    if |b| > PBUF_POOL_BUFSIZE {
      ChunksAreNotEmpty(b[PBUF_POOL_BUFSIZE..]);
    }
  }

  // ---------------------------------------------------------------- cs_tcp_raw_send

  /** tcp_write has taken the head, and it is chopped off the chain. */
  function HeadGone(c: Conn): Conn
    requires c.pending != [] && |c.pending[0]| <= c.room
  {
    c.(pending := c.pending[1..], sent := c.sent + c.pending[0],
       room := c.room - |c.pending[0]|, writes := c.writes + 1)
  }

  /** The send loop: go on while the head fits and is taken. */
  function Drain(c: Conn, answers: Answers): (r: Conn)
    ensures r == c.(pending := r.pending, sent := r.sent, room := r.room, writes := r.writes)
    ensures |r.pending| <= |c.pending|
    decreases |c.pending|
  {
    if c.pending == [] || |c.pending[0]| > c.room then c
    else if answers(c.writes) != Ok then c.(writes := c.writes + 1)
    else Drain(HeadGone(c), answers)
  }

  /** How many pbufs it hands over. */
  function Handed(c: Conn, answers: Answers): (n: nat)
    ensures n <= |c.pending|
    decreases |c.pending|
  {
    if c.pending == [] || |c.pending[0]| > c.room || answers(c.writes) != Ok then 0
    else 1 + Handed(HeadGone(c), answers)
  }

  /** The loop hands over the first pbufs of the chain, whole and in order, and does nothing else. */
  lemma {:induction false} DrainHandsOver(c: Conn, answers: Answers)
    ensures var n := Handed(c, answers);
            && |Flatten(c.pending[..n])| <= c.room
            && Drain(c, answers) == c.(pending := c.pending[n..], sent := c.sent + Flatten(c.pending[..n]),
                                       room := c.room - |Flatten(c.pending[..n])|, writes := Drain(c, answers).writes)
    decreases |c.pending|
  {
    var n := Handed(c, answers);
    if n == 0 {
      assert c.pending[0..] == c.pending && c.sent + [] == c.sent;
    } else {
      DrainHandsOver(HeadGone(c), answers);
      assert c.pending[..n][1..] == c.pending[1..][..n - 1] && c.pending[n..] == c.pending[1..][n - 1..];
      assert c.sent + (c.pending[0] + Flatten(c.pending[1..][..n - 1])) ==
             c.sent + c.pending[0] + Flatten(c.pending[1..][..n - 1]);
    }
  }

  /**
   The loop hands over as many as it can: every pbuf handed over fitted what was left of the room and was taken, and
   the next one, if any, did not fit or was refused.
   */
  lemma {:induction false} HandedIsMaximal(c: Conn, answers: Answers, k: nat)
    requires k < |c.pending|
    ensures k < Handed(c, answers) ==> |Flatten(c.pending[..k + 1])| <= c.room && answers(c.writes + k) == Ok
    ensures k == Handed(c, answers) ==> |Flatten(c.pending[..k + 1])| > c.room || answers(c.writes + k) != Ok
    decreases |c.pending|
  {
    assert c.pending[..k + 1][1..] == c.pending[1..][..k];
    if k == 0 {
      assert Flatten(c.pending[..1]) == c.pending[0];
    } else if |c.pending[0]| <= c.room && answers(c.writes) == Ok {
      HandedIsMaximal(HeadGone(c), answers, k - 1);
      assert c.pending[1..][..k - 1 + 1] == c.pending[1..][..k];
    }
  }

  // ---------------------------------------------------------------- the operations and callbacks

  /** cs_tcp_char_send; alloc: pbuf_alloc succeeds. */
  function CharSend(c: Conn, answers: Answers, buf: Bytes, alloc: bool): (Conn, int) {
    if c.pending != [] then (c, 100)
    else if !alloc then (c, 1)
    else (Drain(c.(pending := Chunks(Truncated(buf)), taken := c.taken + Truncated(buf)), answers), 0)
  }

  /** cs_tcp_raw_close and cs_tcp_raw_free. */
  function Close(c: Conn): Conn {
    c.(live := false, upcalls := c.upcalls + [CloseUp], pending := [], dropped := c.dropped + Flatten(c.pending))
  }

  /** cs_tcp_raw_poll. */
  function OnPoll(c: Conn, answers: Answers): Conn {
    if c.pending != [] then Drain(c, answers)
    else if c.phase == Closing then Close(c)
    else c
  }

  /** cs_tcp_send, the sent callback. */
  function OnSent(c: Conn, answers: Answers): Conn {
    if c.pending != [] then Drain(c, answers)
    else
      var c' := c.(upcalls := c.upcalls + [SendDoneUp]);
      if c.phase == Closing then Close(c') else c'
  }

  /** cs_tcp_raw_recv with data. */
  function OnData(c: Conn): Conn {
    match c.phase
    case Accepted => c.(phase := Received, upcalls := c.upcalls + [RecvUp])
    case Received => c.(upcalls := c.upcalls + [RecvUp])
    case Closing => c
  }

  /** cs_tcp_raw_recv with p == NULL: the peer closed. */
  function OnEnd(c: Conn): Conn {
    Close(c.(phase := Closing))
  }

  /** room: what tcp_sndbuf reports when the callback runs. */
  datatype Event =
    | AppSend(buf: Bytes, alloc: bool)
    | SentCallback(room: nat)
    | PollCallback(room: nat)
    | DataCallback
    | EndCallback
    | ErrorCallback

  /** How often the sent callback ran. */
  function Acks(events: seq<Event>): nat {
    if events == [] then 0
    else Acks(events[..|events| - 1]) + if events[|events| - 1].SentCallback? then 1 else 0
  }

  /** Nothing reaches a connection that has unregistered itself, and its user is told not to send any more. */
  function Step(c: Conn, answers: Answers, e: Event): Conn {
    if !c.live then c
    else
      match e
      case AppSend(buf, alloc) => CharSend(c, answers, buf, alloc).0
      case SentCallback(room) => OnSent(c.(room := room), answers)
      case PollCallback(room) => OnPoll(c.(room := room), answers)
      case DataCallback => OnData(c)
      case EndCallback => OnEnd(c)
      case ErrorCallback => Close(c)
  }

  function Run(c: Conn, answers: Answers, events: seq<Event>): Conn
    decreases |events|
  {
    if events == [] then c else Step(Run(c, answers, events[..|events| - 1]), answers, events[|events| - 1])
  }

  // ---------------------------------------------------------------- every callback sequence

  /** Where in the life of a connection the upcalls are. */
  predicate Lifecycle(c: Conn) {
    && c.upcalls != [] && c.upcalls[0] == AcceptUp
    && (forall i :: 0 < i < |c.upcalls| ==> c.upcalls[i] != AcceptUp)
    && (forall i :: 0 <= i < |c.upcalls| - 1 ==> c.upcalls[i] != CloseUp)
    && (c.live <==> c.upcalls[|c.upcalls| - 1] != CloseUp)
    && (c.live ==> c.phase != Closing)
    && (c.phase == Accepted <==> RecvUp !in c.upcalls && (c.live || c.phase != Closing))
  }

  predicate Conserved(c: Conn) {
    && c.sent + Flatten(c.pending) + c.dropped == c.taken
    && (c.live ==> c.dropped == [])
    && (!c.live ==> c.pending == [])
    && SmallChunks(c.pending)
  }

  lemma DrainConserves(c: Conn, answers: Answers)
    requires Conserved(c)
    ensures Conserved(Drain(c, answers))
  {
    var n := Handed(c, answers);
    DrainHandsOver(c, answers);
    FlattenSplit(c.pending, n);
    Reassociate(c.sent, Flatten(c.pending[..n]), Flatten(c.pending[n..]), c.dropped);
  }

  lemma Reassociate(a: Bytes, b: Bytes, c: Bytes, d: Bytes)
    ensures a + (b + c) + d == (a + b) + c + d
  {
  }

  lemma CharSendConserves(c: Conn, answers: Answers, buf: Bytes, alloc: bool)
    requires Conserved(c) && c.live
    ensures Conserved(CharSend(c, answers, buf, alloc).0)
  {
    if c.pending == [] && alloc {
      var filled := c.(pending := Chunks(Truncated(buf)), taken := c.taken + Truncated(buf));
      ChunksAreTheBuffer(Truncated(buf));
      assert Conserved(filled);
      DrainConserves(filled, answers);
    }
  }

  lemma StepConserves(c: Conn, answers: Answers, e: Event)
    requires Conserved(c)
    ensures Conserved(Step(c, answers, e))
  {
    match e {
      case AppSend(buf, alloc) =>
        if c.live {
          CharSendConserves(c, answers, buf, alloc);
        }
      case SentCallback(room) =>
        DrainConserves(c.(room := room), answers);
      case PollCallback(room) =>
        DrainConserves(c.(room := room), answers);
      case _ =>
    }
  }

  lemma StepKeepsLifecycle(c: Conn, answers: Answers, e: Event)
    requires Lifecycle(c)
    ensures Lifecycle(Step(c, answers, e))
  {
  }

  /**
   Whatever the callbacks and whatever tcp_write answers: the bytes written, then the pending chain, then what the
   close dropped, are the bytes taken, in order, and nothing is dropped before the close.
   */
  lemma {:induction false} BytesAreConserved(answers: Answers, room: nat, events: seq<Event>)
    ensures Conserved(Run(Accept(room), answers, events))
    decreases |events|
  {
    if events != [] {
      BytesAreConserved(answers, room, events[..|events| - 1]);
      StepConserves(Run(Accept(room), answers, events[..|events| - 1]), answers, events[|events| - 1]);
    }
  }

  /**
   One accept upcall, first; at most one close upcall, last, and exactly when the state is freed; between callbacks
   a live state is ES_ACCEPTED, until data arrives, or ES_RECEIVED.
   */
  lemma {:induction false} LifecycleHolds(answers: Answers, room: nat, events: seq<Event>)
    ensures Lifecycle(Run(Accept(room), answers, events))
    decreases |events|
  {
    if events != [] {
      LifecycleHolds(answers, room, events[..|events| - 1]);
      StepKeepsLifecycle(Run(Accept(room), answers, events[..|events| - 1]), answers, events[|events| - 1]);
    }
  }

  /** A connection is closed by the peer's end or by an error and by nothing else: poll and sent never close one. */
  lemma OnlyEndOrErrorCloses(answers: Answers, room: nat, events: seq<Event>, e: Event)
    ensures var c := Run(Accept(room), answers, events);
            c.live && !Step(c, answers, e).live <==> c.live && (e.EndCallback? || e.ErrorCallback?)
  {
    LifecycleHolds(answers, room, events);
  }

  // ---------------------------------------------------------------- what goes up, and what is taken

  function Ups(c: Conn, up: Upcall): nat {
    multiset(c.upcalls)[up]
  }

  predicate Ends(e: Event) {
    e.EndCallback? || e.ErrorCallback?
  }

  predicate HasEnded(events: seq<Event>) {
    exists i :: 0 <= i < |events| && Ends(events[i])
  }

  /** Deliveries of data before the end. */
  function Deliveries(events: seq<Event>): nat {
    if events == [] then 0
    else
      var k := |events| - 1;
      Deliveries(events[..k]) + if events[k].DataCallback? && !HasEnded(events[..k]) then 1 else 0
  }

  /** Sent callbacks that find the connection there and nothing left to send. */
  function AllAcked(answers: Answers, room: nat, events: seq<Event>): nat {
    if events == [] then 0
    else
      var k := |events| - 1;
      var c := Run(Accept(room), answers, events[..k]);
      AllAcked(answers, room, events[..k]) + if events[k].SentCallback? && c.live && c.pending == [] then 1 else 0
  }

  /** The buffers of the sends that find it so, and memory. */
  function Admitted(answers: Answers, room: nat, events: seq<Event>): Bytes {
    if events == [] then []
    else
      var k := |events| - 1;
      var c := Run(Accept(room), answers, events[..k]);
      Admitted(answers, room, events[..k]) +
      match events[k]
      case AppSend(buf, alloc) => if c.live && c.pending == [] && alloc then Truncated(buf) else []
      case _ => []
  }

  lemma StepAnswers(c: Conn, answers: Answers, e: Event)
    requires Lifecycle(c)
    ensures var c' := Step(c, answers, e);
            && Ups(c', RecvUp) == Ups(c, RecvUp) + (if e.DataCallback? && c.live then 1 else 0)
            && Ups(c', SendDoneUp) ==
               Ups(c, SendDoneUp) + (if e.SentCallback? && c.live && c.pending == [] then 1 else 0)
            && Ups(c', CloseUp) == Ups(c, CloseUp) + (if Ends(e) && c.live then 1 else 0)
            && (c'.live <==> c.live && !Ends(e))
  {
    match e
    case AppSend(_, _) =>
    case SentCallback(_) =>
    case PollCallback(_) =>
    case DataCallback =>
    case EndCallback =>
    case ErrorCallback =>
  }

  lemma StepTakes(c: Conn, answers: Answers, e: Event)
    ensures Step(c, answers, e).taken ==
            c.taken + match e
                      case AppSend(buf, alloc) => if c.live && c.pending == [] && alloc then Truncated(buf) else []
                      case _ => []
  {
    match e
    case AppSend(_, _) =>
    case SentCallback(_) =>
    case PollCallback(_) =>
    case DataCallback =>
    case EndCallback =>
    case ErrorCallback =>
  }

  lemma EndedGrows(events: seq<Event>, k: nat)
    requires k + 1 == |events|
    ensures HasEnded(events) <==> HasEnded(events[..k]) || Ends(events[k])
  {
    if HasEnded(events) {
      var i :| 0 <= i < |events| && Ends(events[i]);
      assert i < k ==> events[..k][i] == events[i];
    }
    if HasEnded(events[..k]) {
      var i :| 0 <= i < k && Ends(events[..k][i]);
      assert events[i] == events[..k][i];
    }
  }

  /**
   Every delivery before the end goes up once, as does every acknowledgement that leaves nothing to send, and the end
   itself; nothing else does.  The bytes taken are those of the sends that were admitted, in order.
   */
  lemma {:induction false} EventsAreAnswered(answers: Answers, room: nat, events: seq<Event>)
    ensures var c := Run(Accept(room), answers, events);
            && (c.live <==> !HasEnded(events))
            && Ups(c, RecvUp) == Deliveries(events)
            && Ups(c, SendDoneUp) == AllAcked(answers, room, events)
            && Ups(c, CloseUp) == (if HasEnded(events) then 1 else 0)
            && Ups(c, AcceptUp) == 1
            && c.taken == Admitted(answers, room, events)
    decreases |events|
  {
    LifecycleHolds(answers, room, events);
    if events == [] {
      assert multiset(Accept(room).upcalls) == multiset{AcceptUp};
    } else {
      var k := |events| - 1;
      EventsAreAnswered(answers, room, events[..k]);
      LifecycleHolds(answers, room, events[..k]);
      StepAnswers(Run(Accept(room), answers, events[..k]), answers, events[k]);
      StepTakes(Run(Accept(room), answers, events[..k]), answers, events[k]);
      StepAcceptsOnce(Run(Accept(room), answers, events[..k]), answers, events[k]);
      EndedGrows(events, k);
    }
  }

  lemma StepAcceptsOnce(c: Conn, answers: Answers, e: Event)
    ensures Ups(Step(c, answers, e), AcceptUp) == Ups(c, AcceptUp)
  {
  }

  /** The send loop stops only at the end of the chain, at a head that does not fit, or when tcp_write refuses it. */
  lemma {:induction false} DrainStops(c: Conn, answers: Answers)
    ensures var c' := Drain(c, answers);
            && (c'.pending == [] || |c'.pending[0]| > c'.room || (c'.writes > c.writes && answers(c'.writes - 1) != Ok))
            && c.writes + Handed(c, answers) <= c'.writes <= c.writes + Handed(c, answers) + 1
            && (c'.pending != [] && |c'.pending[0]| <= c'.room ==> c'.writes == c.writes + Handed(c, answers) + 1)
    decreases |c.pending|
  {
    if c.pending != [] && |c.pending[0]| <= c.room && answers(c.writes) == Ok {
      DrainStops(HeadGone(c), answers);
    }
  }

  /**
   After a sent or poll callback with a pending chain, or a send that was admitted, everything that could go has gone:
   the chain is empty, its head exceeds the room left, or the last answer was a refusal.
   */
  lemma CallbackExhausts(c: Conn, answers: Answers, e: Event)
    requires c.live
    requires match e
             case SentCallback(_) => c.pending != []
             case PollCallback(_) => c.pending != []
             case AppSend(_, alloc) => c.pending == [] && alloc
             case _ => false
    ensures var c' := Step(c, answers, e);
            c'.pending == [] || |c'.pending[0]| > c'.room || (c'.writes > c.writes && answers(c'.writes - 1) != Ok)
  {
    match e {
      case SentCallback(room) => DrainStops(c.(room := room), answers);
      case PollCallback(room) => DrainStops(c.(room := room), answers);
      case AppSend(buf, _) =>
        DrainStops(c.(pending := Chunks(Truncated(buf)), taken := c.taken + Truncated(buf)), answers);
    }
  }

  // ---------------------------------------------------------------- progress

  /** A callback that can hand over at least the head. */
  predicate Helpful(c: Conn, answers: Answers, e: Event) {
    && (e.SentCallback? || e.PollCallback?)
    && (c.pending != [] ==> |c.pending[0]| <= e.room && answers(c.writes) == Ok)
  }

  function HelpfulCount(c: Conn, answers: Answers, events: seq<Event>): nat
    decreases |events|
  {
    if events == [] then 0
    else
      var k := |events| - 1;
      HelpfulCount(c, answers, events[..k]) +
      if Helpful(Run(c, answers, events[..k]), answers, events[k]) then 1 else 0
  }

  lemma StepProgress(c: Conn, answers: Answers, e: Event)
    requires c.live && c.phase != Closing && (e.SentCallback? || e.PollCallback? || e.DataCallback?)
    ensures var c' := Step(c, answers, e);
            && c'.live && c'.phase != Closing && |c'.pending| <= |c.pending|
            && (Helpful(c, answers, e) && c.pending != [] ==> |c'.pending| < |c.pending|)
  {
  }

  /**
   A chain of n pbufs is gone after n sent or poll callbacks that find room for its head and a willing tcp_write,
   however many other callbacks come between them.
   */
  lemma {:induction false} ChainIsHandedOver(c: Conn, answers: Answers, events: seq<Event>)
    requires c.live && c.phase != Closing
    requires forall i :: 0 <= i < |events| ==>
               events[i].SentCallback? || events[i].PollCallback? || events[i].DataCallback?
    ensures var c' := Run(c, answers, events);
            && c'.live && c'.phase != Closing
            && (c'.pending == [] || |c'.pending| + HelpfulCount(c, answers, events) <= |c.pending|)
    ensures HelpfulCount(c, answers, events) >= |c.pending| ==> Run(c, answers, events).pending == []
    decreases |events|
  {
    if events != [] {
      var k := |events| - 1;
      ChainIsHandedOver(c, answers, events[..k]);
      StepProgress(Run(c, answers, events[..k]), answers, events[k]);
    }
  }

  /** The head of a pending chain always fits a send buffer with the room of one pool pbuf, so an empty one. */
  lemma HeadFitsEmptyBuffer(answers: Answers, room: nat, events: seq<Event>)
    ensures var c := Run(Accept(room), answers, events);
            c.pending != [] ==> |c.pending[0]| <= PBUF_POOL_BUFSIZE <= TCP_SND_BUF
  {
    BytesAreConserved(answers, room, events);
  }
}
