/**
 The mailbox's storage: 128 slots addressed by two counters that only grow.  The pending messages are
 the slots first .. last-1, taken modulo 128.
 */
module MailboxRing {
  import opened Common

  /** A message is a pointer value. */
  type Msg = int

  const SYS_MBOX_SIZE: int := 128

  /** The largest value of a C int. */
  const INT_MAX: int := 0x7fff_ffff

  predicate RingOk(slots: seq<Msg>, first: int, last: int) {
    |slots| == SYS_MBOX_SIZE && 0 <= first <= last <= first + SYS_MBOX_SIZE - 1
  }

  /** The test both posting operations make before they store. */
  predicate Full(first: int, last: int) {
    last + 1 >= first + SYS_MBOX_SIZE
  }

  /** The messages that are pending, oldest first. */
  function Window(slots: seq<Msg>, first: int, last: int): seq<Msg>
    requires RingOk(slots, first, last)
  {
    seq(last - first, i requires 0 <= i < last - first => slots[(first + i) % SYS_MBOX_SIZE])
  }

  lemma SlotsDiffer(first: int, i: int, j: int)
    requires 0 <= first && 0 <= i < j < SYS_MBOX_SIZE
    ensures (first + i) % SYS_MBOX_SIZE != (first + j) % SYS_MBOX_SIZE
  {
    assert (first + j) - (first + i) < SYS_MBOX_SIZE;
  }

  /** Storing at last and advancing appends to the pending messages and disturbs none of them. */
  lemma WindowPush(slots: seq<Msg>, first: int, last: int, msg: Msg)
    requires RingOk(slots, first, last) && !Full(first, last)
    ensures RingOk(slots[last % SYS_MBOX_SIZE := msg], first, last + 1)
    ensures Window(slots[last % SYS_MBOX_SIZE := msg], first, last) == Window(slots, first, last)
    ensures Window(slots[last % SYS_MBOX_SIZE := msg], first, last + 1) == Window(slots, first, last) + [msg]
  {
    var stored, before := slots[last % SYS_MBOX_SIZE := msg], Window(slots, first, last);
    forall i | 0 <= i < |before|
      ensures Window(stored, first, last)[i] == before[i] == Window(stored, first, last + 1)[i]
    {
      SlotsDiffer(first, i, last - first);
    }
  }

  /** Advancing first removes exactly the oldest pending message. */
  lemma WindowPop(slots: seq<Msg>, first: int, last: int)
    requires RingOk(slots, first, last) && first < last
    ensures Window(slots, first, last) == [slots[first % SYS_MBOX_SIZE]] + Window(slots, first + 1, last)
  {
    var w, r := Window(slots, first, last), Window(slots, first + 1, last);
    assert forall i :: 0 < i < |w| ==> w[i] == r[i - 1];
  }

  /**
   The C expressions last + 1, first + SYS_MBOX_SIZE and the increments stay inside int exactly as long as
   at most 2^31 - 1 - 128 messages have been taken out.
   */
  lemma RingArithmeticFits(slots: seq<Msg>, first: int, last: int)
    requires RingOk(slots, first, last)
    ensures first <= INT_MAX - SYS_MBOX_SIZE <==>
            last + 1 <= INT_MAX && first + 1 <= INT_MAX && first + SYS_MBOX_SIZE <= INT_MAX
    ensures 0 <= first % SYS_MBOX_SIZE < |slots| && 0 <= last % SYS_MBOX_SIZE < |slots|
  {
  }
}
