/** Points in time and spans of time, in seconds and microseconds. */
module TimeVals {
  const HIGH_SEC := 0x7fff_ffff
  const MILLION := 1000000

  datatype TimeVal = TimeVal(sec: int, usec: int)

  const ZERO := TimeVal(0, 0)
  const NEVER := TimeVal(HIGH_SEC, 0)

  /** The microseconds are in range. */
  predicate Normal(tv: TimeVal) {
    0 <= tv.usec < MILLION
  }

  function Micros(tv: TimeVal): int {
    tv.sec * MILLION + tv.usec
  }

  /** Addition and MINIEVENT_FIX_TV_AFTER_ADD. */
  function Plus(a: TimeVal, b: TimeVal): (r: TimeVal)
    requires Normal(a) && Normal(b)
    ensures Normal(r) && Micros(r) == Micros(a) + Micros(b)
  {
    var sum := TimeVal(a.sec + b.sec, a.usec + b.usec);
    if sum.usec >= MILLION then TimeVal(sum.sec + 1, sum.usec - MILLION) else sum
  }

  /** Subtraction and MINIEVENT_FIX_TV_AFTER_SUBTRACT. */
  function Since(a: TimeVal, b: TimeVal): (r: TimeVal)
    requires Normal(a) && Normal(b)
    ensures Normal(r) && Micros(r) == Micros(a) - Micros(b)
  {
    var diff := TimeVal(a.sec - b.sec, a.usec - b.usec);
    if diff.usec < 0 then TimeVal(diff.sec - 1, diff.usec + MILLION) else diff
  }

  /** MINIEVENT_TV_LT */
  predicate Less(a: TimeVal, b: TimeVal) {
    a.sec < b.sec || (a.sec == b.sec && a.usec < b.usec)
  }

  lemma LessIsMicros(a: TimeVal, b: TimeVal)
    requires Normal(a) && Normal(b)
    ensures Less(a, b) <==> Micros(a) < Micros(b)
  {
  }

  /** A deadline after `k` firings of a persistent timer: one without a timeout never moves. */
  function Later(expire: TimeVal, timeout: TimeVal, k: nat): (r: TimeVal)
    requires Normal(expire) && Normal(timeout)
    ensures Normal(r)
  {
    if k == 0 then expire
    else
      var before := Later(expire, timeout, k - 1);
      if before.sec != HIGH_SEC then Plus(before, timeout) else before
  }

  /** Main result on timers: deadlines do not drift, up to the second that stands for never. */
  lemma {:induction false} DeadlinesDoNotDrift(expire: TimeVal, timeout: TimeVal, k: nat)
    requires Normal(expire) && Normal(timeout) && 0 <= timeout.sec
    requires Micros(expire) + k * Micros(timeout) < HIGH_SEC * MILLION
    ensures Micros(Later(expire, timeout, k)) == Micros(expire) + k * Micros(timeout)
  {
    if k > 0 {
      Products(k, Micros(timeout));
      DeadlinesDoNotDrift(expire, timeout, k - 1);
    }
  }

  lemma Products(k: nat, m: nat)
    requires k > 0
    ensures k * m == (k - 1) * m + m && (k - 1) * m <= k * m
  {
  }
}
