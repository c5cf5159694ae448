/** The refund for the unused part of a billing period. Instants and durations are
    nanoseconds; amounts are eurocents. */
module Proration {

  const SECOND := 1_000_000_000
  const INT64_MAX := 0x7FFF_FFFF_FFFF_FFFF
  const INT64_MIN := -0x8000_0000_0000_0000
  const TWO_TO_31 := 0x8000_0000
  const TWO_TO_64 := 0x1_0000_0000_0000_0000

  /** Go's time.Time.Sub: the difference saturates at the ends of a 64-bit duration. */
  function Sub(a: int, b: int): int {
    if a - b > INT64_MAX then INT64_MAX else if a - b < INT64_MIN then INT64_MIN else a - b
  }

  /** 64-bit wrap-around. */
  function Wrap(x: int): int {
    var m := x % TWO_TO_64;
    if m > INT64_MAX then m - TWO_TO_64 else m
  }

  /** Go's integer division truncates toward zero. */
  function Quotient(a: int, b: int): int
    requires b > 0
  {
    if a >= 0 then a / b else -(-a / b)
  }

  function ProratedRefundCents(amountCents: int, periodStart: int, periodEnd: int, cancelAt: int): int {
    if amountCents <= 0 then 0
    else if cancelAt <= periodStart then amountCents
    else if cancelAt >= periodEnd then 0
    else
      var total, unused := Sub(periodEnd, periodStart), Sub(periodEnd, cancelAt);
      if total <= 0 then 0
      else
        var unusedSec, totalSec := Quotient(unused, SECOND), Quotient(total, SECOND);
        if totalSec <= 0 then 0
        else
          var refunded := Quotient(Wrap(amountCents * unusedSec), totalSec);
          if refunded < 0 then 0 else if refunded > amountCents then amountCents else refunded
  }

  /** The inputs the proration is meant for: a 31-bit amount and a period of a 31-bit
      number of seconds. */
  predicate InRange(amountCents: int, periodStart: int, periodEnd: int) {
    amountCents < TWO_TO_31 && periodEnd - periodStart < TWO_TO_31 * SECOND
  }

  /** For every input at all, even one that overflows, the refund is between 0 and the amount. */
  lemma RefundWithinAmount(amountCents: int, periodStart: int, periodEnd: int, cancelAt: int)
    ensures var r := ProratedRefundCents(amountCents, periodStart, periodEnd, cancelAt);
            if amountCents <= 0 then r == 0 else 0 <= r <= amountCents
  {
  }

  /** floor(a * x / n) is monotone in x, at most a for x <= n, and short of the exact
      quotient by less than one. */
  lemma FloorShare(a: int, x: int, y: int, n: int)
    requires 0 <= a && 0 <= x <= y <= n && 0 < n
    ensures 0 <= a * x <= a * y <= a * n
    ensures 0 <= a * x / n <= a * y / n <= a
    ensures (a * x / n) * n <= a * x < (a * x / n + 1) * n
  {
    Scale(a, x, y);
    Scale(a, y, n);
    Scale(a, 0, x);
    Bracket(a * x, n);
    Bracket(a * y, n);
    if a * x / n > a * y / n {
      Scale(n, a * y / n + 1, a * x / n);
      assert false;
    }
    if a * y / n > a {
      Scale(n, a + 1, a * y / n);
      assert false;
    }
  }

  lemma Scale(a: int, x: int, y: int)
    requires 0 <= a && x <= y
    ensures a * x <= a * y
  {
  }

  lemma Bracket(p: int, n: int)
    requires 0 <= p && 0 < n
    ensures 0 <= p / n
    ensures (p / n) * n <= p < (p / n + 1) * n
  {
  }

  lemma ProductFits(a: int, x: int)
    requires 0 <= a < TWO_TO_31 && 0 <= x < TWO_TO_31
    ensures 0 <= a * x <= INT64_MAX && Wrap(a * x) == a * x
  {
    Scale(a, x, TWO_TO_31);
    Scale(TWO_TO_31, a, TWO_TO_31);
  }

  /** In range and inside the period nothing saturates or wraps, the guard against an empty
      period never fires, the guard against a period of no whole second fires exactly for a
      period shorter than one second, and the final clamps never fire. */
  lemma FallbacksReachedOnlyBelowOneSecond(amountCents: int, periodStart: int, periodEnd: int, cancelAt: int)
    requires InRange(amountCents, periodStart, periodEnd)
    requires 0 < amountCents && periodStart < cancelAt < periodEnd
    ensures Sub(periodEnd, periodStart) == periodEnd - periodStart > 0
    ensures Sub(periodEnd, cancelAt) == periodEnd - cancelAt > 0
    ensures var unusedSec, totalSec := (periodEnd - cancelAt) / SECOND, (periodEnd - periodStart) / SECOND;
            && (totalSec <= 0 <==> periodEnd - periodStart < SECOND)
            && Wrap(amountCents * unusedSec) == amountCents * unusedSec
            && (totalSec > 0 ==> 0 <= amountCents * unusedSec / totalSec <= amountCents)
            && ProratedRefundCents(amountCents, periodStart, periodEnd, cancelAt)
               == if totalSec <= 0 then 0 else amountCents * unusedSec / totalSec
  {
    var unusedSec, totalSec := (periodEnd - cancelAt) / SECOND, (periodEnd - periodStart) / SECOND;
    assert 0 <= unusedSec <= totalSec < TWO_TO_31;
    ProductFits(amountCents, unusedSec);
    if totalSec > 0 {
      FloorShare(amountCents, unusedSec, unusedSec, totalSec);
    }
  }

  /** Cancelling later never refunds more. */
  lemma LaterCancelNeverRefundsMore(amountCents: int, periodStart: int, periodEnd: int, first: int, second: int)
    requires InRange(amountCents, periodStart, periodEnd)
    requires first <= second
    ensures ProratedRefundCents(amountCents, periodStart, periodEnd, second)
         <= ProratedRefundCents(amountCents, periodStart, periodEnd, first)
  {
    RefundWithinAmount(amountCents, periodStart, periodEnd, first);
    RefundWithinAmount(amountCents, periodStart, periodEnd, second);
    if 0 < amountCents && periodStart < first && second < periodEnd {
      FallbacksReachedOnlyBelowOneSecond(amountCents, periodStart, periodEnd, first);
      FallbacksReachedOnlyBelowOneSecond(amountCents, periodStart, periodEnd, second);
      var totalSec := (periodEnd - periodStart) / SECOND;
      if totalSec > 0 {
        FloorShare(amountCents, (periodEnd - second) / SECOND, (periodEnd - first) / SECOND, totalSec);
      }
    }
  }

  /** For a period of whole seconds the refund is at most the exact share
      amount * unused / total, and less than 1 + amount / total-seconds cents below it
      (both sides multiplied out by the period). */
  lemma RefundJustBelowExactShare(amountCents: int, periodStart: int, periodEnd: int, cancelAt: int)
    requires InRange(amountCents, periodStart, periodEnd)
    requires 0 < amountCents && periodStart < cancelAt < periodEnd
    requires (periodEnd - periodStart) % SECOND == 0
    ensures var r := ProratedRefundCents(amountCents, periodStart, periodEnd, cancelAt);
            var total, unused := periodEnd - periodStart, periodEnd - cancelAt;
            r * total <= amountCents * unused < r * total + total + amountCents * SECOND
  {
    FallbacksReachedOnlyBelowOneSecond(amountCents, periodStart, periodEnd, cancelAt);
    var r := ProratedRefundCents(amountCents, periodStart, periodEnd, cancelAt);
    var total, unused := periodEnd - periodStart, periodEnd - cancelAt;
    var unusedSec, totalSec := unused / SECOND, total / SECOND;
    FloorShare(amountCents, unusedSec, unusedSec, totalSec);
    ShareBounds(amountCents, r, unusedSec, totalSec, unused);
  }

  lemma ShareBounds(amountCents: int, r: int, unusedSec: int, totalSec: int, unused: int)
    requires 0 < amountCents && r * totalSec <= amountCents * unusedSec < (r + 1) * totalSec
    requires unusedSec * SECOND <= unused < unusedSec * SECOND + SECOND
    ensures var total := totalSec * SECOND;
            r * total <= amountCents * unused < r * total + total + amountCents * SECOND
  {
    Associate(r, totalSec, SECOND);
    Associate(r + 1, totalSec, SECOND);
    Associate(amountCents, unusedSec, SECOND);
    Scale(amountCents, unusedSec * SECOND, unused);
    ScaleStrictly(amountCents, unused, unusedSec * SECOND + SECOND);
    Distribute(amountCents, unusedSec * SECOND, SECOND);
    Distribute(totalSec * SECOND, r, 1);
  }

  lemma Associate(a: int, b: int, c: int)
    ensures a * (b * c) == (a * b) * c
  {
  }

  lemma Distribute(a: int, b: int, c: int)
    ensures a * (b + c) == a * b + a * c
  {
  }

  lemma ScaleStrictly(a: int, x: int, y: int)
    requires 0 < a && x < y
    ensures a * x < a * y
  {
  }

  /** No refund for the period exceeds the exact share. */
  ghost predicate NeverOverRefunds(periodStart: int, periodEnd: int) {
    forall amountCents: int, cancelAt: int | 0 < amountCents < TWO_TO_31 && periodStart < cancelAt < periodEnd ::
      ProratedRefundCents(amountCents, periodStart, periodEnd, cancelAt) * (periodEnd - periodStart)
        <= amountCents * (periodEnd - cancelAt)
  }

  /** The refund rounds down, as its comment says, exactly for periods of a whole number
      of seconds (or of less than one): otherwise dropping the fraction of the total makes
      some refund exceed the exact share. */
  lemma RoundsDownExactlyForWholeSeconds(periodStart: int, periodEnd: int)
    requires periodStart < periodEnd && InRange(0, periodStart, periodEnd)
    ensures NeverOverRefunds(periodStart, periodEnd)
       <==> (periodEnd - periodStart) % SECOND == 0 || periodEnd - periodStart < SECOND
  {
    var total := periodEnd - periodStart;
    if total % SECOND == 0 || total < SECOND {
      forall amountCents: int, cancelAt: int | 0 < amountCents < TWO_TO_31 && periodStart < cancelAt < periodEnd
        ensures ProratedRefundCents(amountCents, periodStart, periodEnd, cancelAt) * total
             <= amountCents * (periodEnd - cancelAt)
      {
        FallbacksReachedOnlyBelowOneSecond(amountCents, periodStart, periodEnd, cancelAt);
        if total < SECOND {
          Scale(amountCents, 0, periodEnd - cancelAt);
        } else {
          RefundJustBelowExactShare(amountCents, periodStart, periodEnd, cancelAt);
        }
      }
    } else {
      // One cent, cancelled once the odd fraction of a second has passed: all of it comes back.
      var cancelAt := periodStart + total % SECOND;
      FallbacksReachedOnlyBelowOneSecond(1, periodStart, periodEnd, cancelAt);
      assert ProratedRefundCents(1, periodStart, periodEnd, cancelAt) == 1;
      assert 1 * (periodEnd - cancelAt) < 1 * total;
    }
  }
}
