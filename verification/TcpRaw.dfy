/**
 src/tcp.c on the heap: reference-counted pbufs linked into chains, and the per-connection state that the callbacks
 update.  Each method is proved to compute what TcpModel says and to keep account of every pbuf.
 */
module TcpRaw {
  import opened Common
  import opened TcpModel

  /** frees counts how often the pbuf was given back to its pool; behind is the length of the chain after it. */
  class Pbuf {
    const payload: Bytes
    var next: Pbuf?
    var ref: nat
    ghost var frees: nat
    ghost const behind: nat

    constructor (payload: Bytes, next: Pbuf?, ghost behind: nat)
      ensures this.payload == payload && this.next == next && this.behind == behind && ref == 1 && frees == 0
    {
      this.payload, this.next, this.behind, ref, frees := payload, next, behind, 1, 0;
    }
  }

  /** c lists, in order, the pbufs that are reached from p, so no pbuf twice. */
  ghost predicate Linked(p: Pbuf?, c: seq<Pbuf>)
    reads c`next
  {
    && p == (if c == [] then null else c[0])
    && (forall i :: 0 <= i < |c| ==> c[i].behind == |c| - 1 - i)
    && (forall i {:trigger c[i].next} :: 0 <= i < |c| ==> c[i].next == if i + 1 < |c| then c[i + 1] else null)
  }

  lemma LinkedTail(p: Pbuf?, c: seq<Pbuf>)
    requires Linked(p, c) && c != []
    ensures Linked(c[0].next, c[1..])
  {
    assert forall i :: 0 <= i < |c| - 1 ==> c[1..][i] == c[i + 1];
  }

  lemma LinkedCons(p: Pbuf, rest: seq<Pbuf>)
    requires Linked(p.next, rest) && p.behind == |rest|
    ensures Linked(p, [p] + rest)
  {
    assert forall i :: 0 < i <= |rest| ==> ([p] + rest)[i] == rest[i - 1];
  }

  ghost function Payloads(c: seq<Pbuf>): (r: seq<Bytes>)
    ensures |r| == |c|
  {
    seq(|c|, i requires 0 <= i < |c| => c[i].payload)
  }

  lemma PayloadsTail(c: seq<Pbuf>)
    requires c != []
    ensures Payloads(c)[0] == c[0].payload && Payloads(c[1..]) == Payloads(c)[1..]
  {
  }

  /** pbuf_free: give one reference up, and while that was the last one free the pbuf and go on to the next. */
  method PbufFree(p: Pbuf, ghost c: seq<Pbuf>) returns (count: nat)
    requires Linked(p, c) && forall i :: 0 <= i < |c| ==> c[i].ref >= 1
    modifies c`ref, c`frees
    ensures count <= |c|
    ensures forall i :: 0 <= i < count ==> old(c[i].ref) == 1 && c[i].ref == 0 && c[i].frees == old(c[i].frees) + 1
    ensures count < |c| ==> old(c[count].ref) > 1 && c[count].ref == old(c[count].ref) - 1
    ensures forall i :: count < i < |c| ==> c[i].ref == old(c[i].ref)
    ensures forall i :: count <= i < |c| ==> c[i].frees == old(c[i].frees)
  {
    count := 0;
    var q: Pbuf? := p;
    while q != null
      invariant count <= |c|
      invariant q != null ==> count < |c| && q == c[count]
      invariant q == null && count < |c| ==> old(c[count].ref) > 1 && c[count].ref == old(c[count].ref) - 1
      invariant forall i :: 0 <= i < count ==> old(c[i].ref) == 1 && c[i].ref == 0 && c[i].frees == old(c[i].frees) + 1
      invariant forall i :: (if q == null then count else count - 1) < i < |c| ==> c[i].ref == old(c[i].ref)
      invariant forall i :: count <= i < |c| ==> c[i].frees == old(c[i].frees)
      decreases |c| - count, q != null
    {
      assert c[count].next == if count + 1 < |c| then c[count + 1] else null;
      assert forall i :: 0 <= i < |c| && i != count ==> c[i] != q;
      q.ref := q.ref - 1;
      if q.ref == 0 {
        var following := q.next;
        q.frees := q.frees + 1;
        count := count + 1;
        q := following;
      } else {
        q := null;
      }
    }
  }

  /** pbuf_ref the second and pbuf_free the first: only the first goes. */
  method FreeHead(p: Pbuf, ghost c: seq<Pbuf>) returns (following: Pbuf?)
    requires Linked(p, c) && forall i :: 0 <= i < |c| ==> c[i].ref == 1 && c[i].frees == 0
    modifies c`ref, c`frees
    ensures c != [] && following == p.next && c[0].ref == 0 && c[0].frees == 1
    ensures forall i :: 0 < i < |c| ==> c[i].ref == 1 && c[i].frees == 0
  {
    following := p.next;
    if following != null {
      assert following == c[1];
      following.ref := following.ref + 1;
    }
    var count := PbufFree(p, c);
    assert count == 1;
  }

  /** What is left of the chain is freed. */
  method FreeAll(p: Pbuf?, ghost c: seq<Pbuf>)
    requires Linked(p, c) && forall i :: 0 <= i < |c| ==> c[i].ref == 1 && c[i].frees == 0
    modifies c`ref, c`frees
    ensures forall i :: 0 <= i < |c| ==> c[i].ref == 0 && c[i].frees == 1
  {
    if p != null {
      var count := PbufFree(p, c);
      assert count == |c|;
    }
  }

  /** pbuf_alloc from the pool, and pbuf_take. */
  method PbufAlloc(b: Bytes) returns (p: Pbuf, ghost c: seq<Pbuf>)
    ensures fresh(c) && Linked(p, c) && Payloads(c) == Chunks(b)
    ensures forall i :: 0 <= i < |c| ==> c[i].ref == 1 && c[i].frees == 0
    decreases |b|
  {
    if |b| <= PBUF_POOL_BUFSIZE {
      p := new Pbuf(b, null, 0);
      c := [p];
      assert c[0].next == null;
      assert Linked(p, c);
    } else {
      ghost var rest: seq<Pbuf>;
      var following;
      following, rest := PbufAlloc(b[PBUF_POOL_BUFSIZE..]);
      p := new Pbuf(b[..PBUF_POOL_BUFSIZE], following, |rest|);
      c := [p] + rest;
      LinkedCons(p, rest);
      assert Payloads(c) == [p.payload] + Payloads(rest);
    }
  }

  /** The pbufs of the chain have one reference each; all the others there ever were have been freed, once. */
  ghost predicate Accounted(all: set<Pbuf>, chain: seq<Pbuf>)
    reads all`ref, all`frees
  {
    && (forall b :: b in chain ==> b in all)
    && (forall b :: b in all ==> if b in chain then b.ref == 1 && b.frees == 0 else b.ref == 0 && b.frees == 1)
  }

  /** The head of c has been freed and nothing else. */
  lemma HeadIsGone(c: seq<Pbuf>, all: set<Pbuf>)
    requires c != [] && forall b :: b in c ==> b in all
    requires forall i :: 0 <= i < |c| ==> c[i].behind == |c| - 1 - i
    requires c[0].ref == 0 && c[0].frees == 1 && forall i :: 0 < i < |c| ==> c[i].ref == 1 && c[i].frees == 0
    requires forall b :: b in all && b !in c ==> b.ref == 0 && b.frees == 1
    ensures Accounted(all, c[1..])
  {
    assert c == [c[0]] + c[1..];
    forall b | b in c[1..] ensures b != c[0] && b.ref == 1 && b.frees == 0 {
      var i :| 0 <= i < |c[1..]| && c[1..][i] == b;
      assert b == c[i + 1];
    }
  }

  /** All of c has been freed. */
  lemma ChainIsGone(c: seq<Pbuf>, all: set<Pbuf>)
    requires forall i :: 0 <= i < |c| ==> c[i].ref == 0 && c[i].frees == 1
    requires forall b :: b in all && b !in c ==> b.ref == 0 && b.frees == 1
    ensures Accounted(all, [])
  {
  }

  /** lwIP's side of the connection, as far as it is used. */
  class TcpPcb {
    const answers: Answers
    var room: nat
    var sent: Bytes
    var writes: nat

    constructor (answers: Answers, room: nat)
      ensures this.answers == answers && this.room == room && sent == [] && writes == 0
    {
      this.answers, this.room, sent, writes := answers, room, [], 0;
    }

    /** tcp_write: all of the data or none of it. */
    method Write(data: Bytes) returns (err: Err)
      requires |data| <= room
      modifies this
      ensures err == answers(old(writes)) && writes == old(writes) + 1
      ensures if err == Ok then sent == old(sent) + data && room == old(room) - |data|
              else sent == old(sent) && room == old(room)
    {
      err := answers(writes);
      writes := writes + 1;
      if err == Ok {
        sent, room := sent + data, room - |data|;
      }
    }
  }

  /** struct cs_tcp_raw_state. */
  class RawState {
    const pcb: TcpPcb
    var p: Pbuf?
    var phase: Phase
    var live: bool
    var upcalls: seq<Upcall>
    ghost var taken: Bytes
    ghost var dropped: Bytes
    ghost var chain: seq<Pbuf>
    ghost var all: set<Pbuf>

    /** The chain is what hangs off p, and every other pbuf there ever was has been freed, once. */
    ghost predicate Valid()
      reads this, pcb, all, chain
    {
      Linked(p, chain) && Accounted(all, chain)
    }

    ghost function Abs(): Conn
      reads this, pcb
    {
      Conn(Payloads(chain), pcb.room, pcb.sent, pcb.writes, phase, live, taken, dropped, upcalls)
    }

    /** cs_tcp_raw_accept, given the memory. */
    constructor (pcb: TcpPcb)
      requires pcb.sent == [] && pcb.writes == 0
      ensures Valid() && this.pcb == pcb && all == {} && Abs() == TcpModel.Accept(pcb.room)
    {
      this.pcb, p, phase, live, upcalls := pcb, null, Accepted, true, [AcceptUp];
      taken, dropped, chain, all := [], [], [], {};
    }

    /** Chop the head: keep the rest alive by a reference of its own, then let the head go. */
    method Chop()
      requires Valid() && p != null
      modifies this`p, this`chain, chain`ref, chain`frees
      ensures Valid() && old(chain) != [] && chain == old(chain)[1..]
    {
      LinkedTail(p, chain);
      ghost var c := chain;
      assert forall i :: 0 <= i < |c| ==> c[i] in c && c[i].ref == 1 && c[i].frees == 0;
      p := FreeHead(p, c);
      chain := c[1..];
      HeadIsGone(c, all);
    }

    /** One turn of the send loop: write the head, and chop it if lwIP took it. */
    method SendHead() returns (err: Err)
      requires Valid() && p != null && |p.payload| <= pcb.room
      modifies this`p, this`chain, pcb, all
      ensures Valid() && old(chain) != []
      ensures if err == Ok
              then chain == old(chain)[1..] && Drain(Abs(), pcb.answers) == Drain(old(Abs()), pcb.answers)
              else chain == old(chain) && Abs() == Drain(old(Abs()), pcb.answers)
    {
      PayloadsTail(chain);
      err := pcb.Write(p.payload);
      if err == Ok {
        Chop();
        assert Abs() == HeadGone(old(Abs()));
      }
    }

    /** cs_tcp_raw_send. */
    method Send()
      requires Valid()
      modifies this`p, this`chain, pcb, all
      ensures Valid() && Abs() == Drain(old(Abs()), pcb.answers)
    {
      var err := Ok;
      while err == Ok && p != null && |p.payload| <= pcb.room
        invariant Valid()
        invariant if err == Ok then Drain(Abs(), pcb.answers) == Drain(old(Abs()), pcb.answers)
                  else Abs() == Drain(old(Abs()), pcb.answers)
        decreases |chain|, err == Ok
      {
        err := SendHead();
      }
    }

    /** cs_tcp_char_send; alloc: pbuf_alloc finds the memory. */
    method CharSend(buf: Bytes, alloc: bool) returns (r: int)
      requires Valid()
      modifies this`p, this`chain, this`all, this`taken, pcb, all
      ensures Valid() && all >= old(all) && fresh(all - old(all))
      ensures (Abs(), r) == TcpModel.CharSend(old(Abs()), pcb.answers, buf, alloc)
    {
      if p != null {
        return 100;
      }
      if !alloc {
        return 1;
      }
      ghost var c;
      p, c := PbufAlloc(Truncated(buf));
      chain, all, taken := c, all + (set b | b in c), taken + Truncated(buf);
      Send();
      r := 0;
    }

    /** cs_tcp_raw_free, as far as the chain goes. */
    method Free()
      requires Valid()
      modifies this`p, this`chain, chain`ref, chain`frees
      ensures Valid() && chain == []
    {
      assert forall i :: 0 <= i < |chain| ==> chain[i] in chain && chain[i].ref == 1 && chain[i].frees == 0;
      FreeAll(p, chain);
      ChainIsGone(chain, all);
      p, chain := null, [];
    }

    /** cs_tcp_raw_close: unregister, tell the user, free the chain and the state. */
    method Close()
      requires Valid() && live
      modifies this, chain`ref, chain`frees
      ensures Valid() && Abs() == TcpModel.Close(old(Abs())) && all == old(all)
    {
      live := false;
      upcalls := upcalls + [CloseUp];
      dropped := dropped + Flatten(Payloads(chain));
      Free();
    }

    /** lwIP has found room in the send buffer. */
    method Acked(room: nat)
      requires Valid()
      modifies pcb
      ensures Valid() && Abs() == old(Abs()).(room := room)
    {
      pcb.room := room;
    }

    /** The end of both callbacks below once nothing is pending. */
    method CloseIfClosing()
      requires Valid() && live
      modifies this, chain`ref, chain`frees
      ensures Valid() && Abs() == (if old(phase) == Closing then TcpModel.Close(old(Abs())) else old(Abs()))
      ensures all == old(all)
    {
      if phase == Closing {
        Close();
      }
    }

    /** cs_tcp_raw_poll. */
    method Poll(room: nat)
      requires Valid() && live
      modifies this, pcb, all
      ensures Valid() && Abs() == OnPoll(old(Abs()).(room := room), pcb.answers) && all == old(all)
    {
      Acked(room);
      if p != null {
        Send();
      } else {
        CloseIfClosing();
      }
    }

    /** cs_tcp_send, the sent callback. */
    method Sent(room: nat)
      requires Valid() && live
      modifies this, pcb, all
      ensures Valid() && Abs() == OnSent(old(Abs()).(room := room), pcb.answers) && all == old(all)
    {
      Acked(room);
      if p != null {
        Send();
      } else {
        upcalls := upcalls + [SendDoneUp];
        CloseIfClosing();
      }
    }

    /** cs_tcp_raw_recv; data: p != NULL. */
    method Recv(data: bool)
      requires Valid() && live
      modifies this, all
      ensures Valid() && Abs() == (if data then OnData(old(Abs())) else OnEnd(old(Abs()))) && all == old(all)
    {
      if !data {
        phase := Closing;
        Close();
      } else if phase == Accepted {
        phase := Received;
        upcalls := upcalls + [RecvUp];
      } else if phase == Received {
        upcalls := upcalls + [RecvUp];
      }
    }

    /** lwIP or the application reaches a connection only while it is registered. */
    method Deliver(e: Event)
      requires Valid()
      modifies this, pcb, all
      ensures Valid() && all >= old(all) && fresh(all - old(all))
      ensures Abs() == Step(old(Abs()), pcb.answers, e)
    {
      if live {
        match e {
          case AppSend(buf, alloc) =>
            var _ := CharSend(buf, alloc);
          case SentCallback(room) =>
            Sent(room);
          case PollCallback(room) =>
            Poll(room);
          case DataCallback =>
            Recv(true);
          case EndCallback =>
            Recv(false);
          case ErrorCallback =>
            Close();
        }
      }
    }
  }

  datatype AcceptErr = ErrOk | ErrMem | ErrVal

  /** cs_tcp_raw_accept; ok: err == ERR_OK, callback: arg != NULL, memory: mem_malloc finds some. */
  method RawAccept(ok: bool, newpcb: TcpPcb?, callback: bool, memory: bool) returns (r: AcceptErr, es: RawState?)
    requires newpcb != null ==> newpcb.sent == [] && newpcb.writes == 0
    ensures r == ErrVal <==> !ok || newpcb == null || !callback
    ensures r == ErrMem <==> ok && newpcb != null && callback && !memory
    ensures es != null <==> r == ErrOk
    ensures es != null ==> fresh(es) && es.Valid() && es.pcb == newpcb && es.Abs() == TcpModel.Accept(es.pcb.room)
  {
    if !ok || newpcb == null || !callback {
      return ErrVal, null;
    }
    if !memory {
      return ErrMem, null;
    }
    es := new RawState(newpcb);
    r := ErrOk;
  }

  /**
   Any sequence of callbacks, any answers of tcp_write: the heap does what the model does, every pbuf is freed at
   most once, those not freed are the pending chain with one reference each, and a closed connection leaves none.
   */
  method Serve(answers: Answers, room: nat, events: seq<Event>) returns (es: RawState)
    ensures es.Abs() == Run(TcpModel.Accept(room), answers, events) && es.Valid()
    ensures forall b :: b in es.all ==>
              b.frees <= 1 && (b.frees == 0 <==> b in es.chain) && (b in es.chain ==> b.ref == 1)
    ensures es.Abs().live || forall b :: b in es.all ==> b.frees == 1
    ensures es.pcb.sent + Flatten(Payloads(es.chain)) + es.dropped == es.taken
  {
    var pcb := new TcpPcb(answers, room);
    es := new RawState(pcb);
    var k := 0;
    while k < |events|
      invariant 0 <= k <= |events| && es.Valid() && es.pcb == pcb && fresh(es) && fresh(pcb) && fresh(es.all)
      invariant es.Abs() == Run(TcpModel.Accept(room), answers, events[..k])
    {
      es.Deliver(events[k]);
      assert events[..k + 1][..k] == events[..k];
      k := k + 1;
    }
    assert events[..k] == events;
    BytesAreConserved(answers, room, events);
  }
}
