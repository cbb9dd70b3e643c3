/** The time arithmetic of the timed waits and of sys_now, on the monotonic clock's seconds and nanoseconds. */
module SysTime {

  const NANOS_PER_SEC: int := 1_000_000_000
  const NANOS_PER_MILLI: int := 1_000_000
  const U32: int := 0x1_0000_0000

  datatype Timespec = Timespec(sec: int, nsec: int) {
    /** A reading of the clock. */
    predicate Normal() {
      sec >= 0 && 0 <= nsec < NANOS_PER_SEC
    }

    function Nanos(): int {
      sec * NANOS_PER_SEC + nsec
    }
  }

  /** C's division, which truncates toward zero. */
  function DivC(a: int, b: int): int
    requires b > 0
  {
    if a >= 0 then a / b else -((-a) / b)
  }

  /** The conversion to u32_t. */
  function ToU32(x: int): (r: int)
    ensures 0 <= r < U32
  {
    x % U32
  }

  /** sys_now: milliseconds, modulo 2^32. */
  function SysNow(ts: Timespec): int {
    ToU32(ts.sec * 1000 + DivC(ts.nsec, NANOS_PER_MILLI))
  }

  /** An instant has one proper reading. */
  lemma NormalIsUnique(a: Timespec, b: Timespec)
    requires a.Normal() && b.Normal() && a.Nanos() == b.Nanos()
    ensures a == b
  {
  }

  /** The deadline of a timed wait is the one proper time exactly timeout milliseconds after now. */
  method Deadline(now: Timespec, timeout: int) returns (ts: Timespec)
    requires now.Normal() && 0 < timeout < U32
    ensures ts.Normal() && ts.Nanos() == now.Nanos() + timeout * NANOS_PER_MILLI
    ensures forall d: Timespec ::
              d.Normal() && d.Nanos() == now.Nanos() + timeout * NANOS_PER_MILLI ==> d == ts
  {
    ts := Timespec(now.sec + timeout / 1000, now.nsec + timeout % 1000 * NANOS_PER_MILLI);
    if ts.nsec >= NANOS_PER_SEC {
      ts := ts.(sec := ts.sec + 1);
      ts := ts.(nsec := ts.nsec - NANOS_PER_SEC);
    }
    forall d: Timespec | d.Normal() && d.Nanos() == ts.Nanos() ensures d == ts {
      NormalIsUnique(d, ts);
    }
  }

  /** The time a wait took, in whole milliseconds, modulo 2^32. */
  method Elapsed(begin: Timespec, end: Timespec) returns (ms: int)
    requires begin.Normal() && end.Normal() && begin.Nanos() <= end.Nanos()
    ensures ms == ToU32((end.Nanos() - begin.Nanos()) / NANOS_PER_MILLI)
  {
    var ts := Timespec(end.sec - begin.sec, end.nsec - begin.nsec);
    if ts.nsec < 0 {
      ts := ts.(sec := ts.sec - 1);
      ts := ts.(nsec := ts.nsec + NANOS_PER_SEC);
    }
    assert ts.Nanos() == end.Nanos() - begin.Nanos() && ts.Normal();
    MillisOf(ts);
    ms := ToU32(ts.sec * 1000 + DivC(ts.nsec, NANOS_PER_MILLI));
  }

  lemma MillisOf(ts: Timespec)
    requires ts.Normal()
    ensures ts.sec * 1000 + DivC(ts.nsec, NANOS_PER_MILLI) == ts.Nanos() / NANOS_PER_MILLI
  {
    var ms := ts.sec * 1000 + ts.nsec / NANOS_PER_MILLI;
    assert ts.Nanos() == ms * NANOS_PER_MILLI + ts.nsec % NANOS_PER_MILLI;
  }

  /** The whole milliseconds between two instants, against the difference of their millisecond readings. */
  lemma FloorOfDifference(a: int, b: int, m: int)
    requires m > 0
    ensures (b - a) / m == b / m - a / m - (if b % m < a % m then 1 else 0)
  {
    var q := b / m - a / m - (if b % m < a % m then 1 else 0);
    var r := b % m - a % m + (if b % m < a % m then m else 0);
    assert b - a == q * m + r by {
      assert a == a / m * m + a % m && b == b / m * m + b % m;
    }
    QuotientIs(b - a, m, q, r);
  }

  lemma QuotientIs(x: int, m: int, q: int, r: int)
    requires m > 0 && x == q * m + r && 0 <= r < m
    ensures x / m == q
  {
    var d := x / m - q;
    assert d * m == r - x % m;
    assert (d >= 1 ==> d * m >= m) && (d <= -1 ==> d * m <= -m);
  }

  lemma WrapOfDifference(x: int, y: int, d: int)
    ensures ToU32(ToU32(x) - ToU32(y) - d) == ToU32(x - y - d)
  {
    var k := x / U32 - y / U32;
    assert ToU32(x) - ToU32(y) - d == x - y - d - k * U32;
  }

  /**
   What a timed wait reports is the sys_now difference modulo 2^32, or one less, and it is one less exactly when
   the wait began later within its millisecond than it ended.
   */
  lemma ElapsedAgainstSysNow(begin: Timespec, end: Timespec)
    requires begin.Normal() && end.Normal() && begin.Nanos() <= end.Nanos()
    ensures ToU32((end.Nanos() - begin.Nanos()) / NANOS_PER_MILLI) ==
            ToU32(SysNow(end) - SysNow(begin) -
                  (if end.nsec % NANOS_PER_MILLI < begin.nsec % NANOS_PER_MILLI then 1 else 0))
  {
    MillisOf(begin);
    MillisOf(end);
    FloorOfDifference(begin.Nanos(), end.Nanos(), NANOS_PER_MILLI);
    var d := if end.nsec % NANOS_PER_MILLI < begin.nsec % NANOS_PER_MILLI then 1 else 0;
    WrapOfDifference(end.Nanos() / NANOS_PER_MILLI, begin.Nanos() / NANOS_PER_MILLI, d);
  }
}
