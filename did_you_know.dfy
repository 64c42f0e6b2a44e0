/**
 * The "Did you know?" panel of the web frontend: ten facts shown one at a
 * time, the index advancing cyclically on a timer, with one indicator dot per
 * fact. The timer is left out; each tick is one application of `NextFactIndex`.
 */
module DidYouKnow {

  /** The number of facts; their wording is display text and is left out. */
  const FactCount: nat := 10

  /** The index shown first. */
  const InitialFactIndex: int := 0

  /** The `setCurrentFactIndex` updater: back to 0 after the last fact, else the next one. */
  function NextFactIndex(prev: int, count: nat): (next: int)
    ensures prev == count - 1 ==> next == 0
    ensures prev != count - 1 ==> next == prev + 1
    ensures 0 <= prev < count ==> 0 <= next < count && next == (prev + 1) % count
  {
    if prev == count - 1 then 0 else prev + 1
  }

  /** The index after `ticks` updates. */
  function Rotate(start: int, ticks: nat, count: nat): int
  {
    if ticks == 0 then start else NextFactIndex(Rotate(start, ticks - 1, count), count)
  }

  lemma MulMonotone(a: int, b: int, n: int)
    requires a <= b && n > 0
    ensures a * n <= b * n
  {
  }

  /** A remainder is determined by any quotient-remainder decomposition. */
  lemma ModUnique(a: int, n: int, q: int, r: int)
    requires n > 0 && 0 <= r < n && a == q * n + r
    ensures a % n == r
  {
    var q', r' := a / n, a % n;
    assert a == q' * n + r';
    assert q' <= q by { if q' > q { MulMonotone(q + 1, q', n); } }
    assert q <= q' by { if q > q' { MulMonotone(q' + 1, q, n); } }
  }

  /** One step round the cycle of remainders. */
  lemma ModSucc(a: int, n: int)
    requires n > 0
    ensures (a % n + 1) % n == (a + 1) % n
  {
    var q, r := a / n, a % n;
    if r + 1 < n {
      ModUnique(a + 1, n, q, r + 1);
      ModUnique(r + 1, n, 0, r + 1);
    } else {
      ModUnique(a + 1, n, q + 1, 0);
      ModUnique(r + 1, n, 1, 0);
    }
  }

  /** From a valid index, `ticks` updates move it `ticks` places round the cycle. */
  lemma {:induction false} RotateIsModular(start: int, ticks: nat, count: nat)
    requires 0 <= start < count
    ensures Rotate(start, ticks, count) == (start + ticks) % count
  {
    if ticks == 0 {
      ModUnique(start, count, 0, start);
    } else {
      RotateIsModular(start, ticks - 1, count);
      ModSucc(start + ticks - 1, count);
    }
  }

  /** Starting from the first fact, the index always names one of the ten facts. */
  lemma IndexStaysInRange(ticks: nat)
    ensures 0 <= Rotate(InitialFactIndex, ticks, FactCount) < FactCount
  {
    RotateIsModular(InitialFactIndex, ticks, FactCount);
  }

  /** As many updates as there are facts bring the index back to where it started. */
  lemma FullCycleReturns(start: int, count: nat)
    requires 0 <= start < count
    ensures Rotate(start, count, count) == start
    ensures forall k :: 0 < k < count ==> Rotate(start, k, count) != start
  {
    RotateIsModular(start, count, count);
    ModUnique(start + count, count, 1, start);
    forall k | 0 < k < count
      ensures Rotate(start, k, count) != start
    {
      RotateIsModular(start, k, count);
      if start + k < count {
        ModUnique(start + k, count, 0, start + k);
      } else {
        ModUnique(start + k, count, 1, start + k - count);
      }
    }
  }

  /** The indicator dots: dot `i` is highlighted when `i` is the current index. */
  function Dots(current: int, count: nat): (dots: seq<bool>)
    ensures |dots| == count
    ensures forall i :: 0 <= i < count ==> (dots[i] <==> i == current)
  {
    seq(count, i => i == current)
  }

  /** Exactly one dot is highlighted, the current one, when the index is valid. */
  lemma ExactlyOneDot(current: int, count: nat)
    requires 0 <= current < count
    ensures (set i | 0 <= i < count && Dots(current, count)[i]) == {current}
  {
  }
}
