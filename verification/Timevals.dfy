/** struct timeval arithmetic of the event loop. */
module Timevals {

  const TWO63: int := 0x8000_0000_0000_0000
  const TWO64: int := 0x1_0000_0000_0000_0000
  const MILLION: int := 1_000_000

  type Int64 = x: int | -TWO63 <= x < TWO63 witness 0

  datatype Timeval = Timeval(sec: Int64, usec: Int64)

  /** The conversion of a signed 64-bit value to uint64_t. */
  function U64(x: Int64): int {
    if x < 0 then x + TWO64 else x
  }

  function Sign(x: int): int {
    if x > 0 then 1 else if x < 0 then -1 else 0
  }

  /** timeval_cmp: both sides are compared after conversion to uint64_t. */
  function Cmp(a: Timeval, b: Timeval): (r: int)
    ensures -1 <= r <= 1
    ensures r == 0 <==> a == b
  {
    var l := if a.sec != b.sec then U64(a.sec) else U64(a.usec);
    var r := if a.sec != b.sec then U64(b.sec) else U64(b.usec);
    (if l > r then 1 else 0) - (if l < r then 1 else 0)
  }

  predicate Before(a: Timeval, b: Timeval) { Cmp(a, b) < 0 }

  predicate NotAfter(a: Timeval, b: Timeval) { Cmp(a, b) <= 0 }

  lemma CmpAntisymmetric(a: Timeval, b: Timeval)
    ensures Cmp(a, b) == -Cmp(b, a)
  {
  }

  lemma NotAfterTransitive(a: Timeval, b: Timeval, c: Timeval)
    requires NotAfter(a, b) && NotAfter(b, c)
    ensures NotAfter(a, c)
    ensures Before(a, b) || Before(b, c) ==> Before(a, c)
  {
  }

  function Micros(t: Timeval): int { t.sec * MILLION + t.usec }

  predicate UsecInRange(t: Timeval) { 0 <= t.usec < MILLION }

  predicate Normalised(t: Timeval) { t.sec >= 0 && UsecInRange(t) }

  /**
   * The comparison is the order on total microseconds exactly when both
   * second counts have the same sign: the unsigned conversion puts every
   * negative time after every other one.
   */
  lemma CmpIsTimeOrderIff(a: Timeval, b: Timeval)
    requires UsecInRange(a) && UsecInRange(b)
    ensures Cmp(a, b) == Sign(Micros(a) - Micros(b)) <==> (a.sec < 0 <==> b.sec < 0)
  {
    if a.sec < b.sec {
      assert Micros(a) < Micros(b);
    } else if a.sec > b.sec {
      assert Micros(a) > Micros(b);
    }
  }

  /** Two's complement wrap-around to 64 bits. */
  function Wrap(x: int): (r: Int64)
    ensures -TWO63 <= x < TWO63 ==> r == x
    ensures (r - x) % TWO64 == 0
  {
    (x + TWO63) % TWO64 - TWO63
  }

  /** The subtraction with borrow in fde_t_get_timeout (lib/libiapp/fde.c). */
  function Delta(now: Timeval, at: Timeval): Timeval {
    if now.usec > at.usec then
      Timeval(Wrap(at.sec - now.sec - 1), Wrap(at.usec + MILLION - now.usec))
    else
      Timeval(Wrap(at.sec - now.sec), Wrap(at.usec - now.usec))
  }

  /** For proper times the delta is a proper duration that ends exactly at the target. */
  lemma DeltaReachesTarget(now: Timeval, at: Timeval)
    requires Normalised(now) && Normalised(at) && Before(now, at)
    ensures Micros(now) + Micros(Delta(now, at)) == Micros(at)
    ensures Normalised(Delta(now, at)) && Micros(Delta(now, at)) > 0
  {
  }
}
