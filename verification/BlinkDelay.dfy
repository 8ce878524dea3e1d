/** The conversion of blink delays in milliseconds into counts of refresh intervals. */
module BlinkDelay {
  const INTERVAL_MS: nat := 250
  const MAX_COUNT: nat := 240

  /** The number of values of an unsigned long, on a 32-bit or a 64-bit kernel. */
  type UlongRange = m: nat | m == 0x1_0000_0000 || m == 0x1_0000_0000_0000_0000 witness 0x1_0000_0000

  /** The count for a requested delay, in arithmetic that wraps at `range`. */
  function IntervalCount(range: UlongRange, delay: nat): nat
    requires delay < range
  {
    var d := if delay == 0 then INTERVAL_MS else delay;
    var n := (d + (INTERVAL_MS - 1)) % range / INTERVAL_MS;
    if n > MAX_COUNT then MAX_COUNT else n
  }

  function ReportedDelay(range: UlongRange, delay: nat): nat
    requires delay < range
  {
    IntervalCount(range, delay) * INTERVAL_MS
  }

  /** `r` is the least positive multiple of 250 that is not below the request, or the cap of a minute. */
  predicate Normalises(delay: nat, r: nat) {
    && r % 250 == 0 && 250 <= r <= 60_000
    && (r < delay ==> r == 60_000)
    && (r > 250 ==> r - 250 < delay)
  }

  lemma NormalisedIsUnique(delay: nat, r: nat, q: nat)
    requires Normalises(delay, r) && Normalises(delay, q)
    ensures r == q
  {
    var i, j := r / INTERVAL_MS, q / INTERVAL_MS;
    assert r == INTERVAL_MS * i && q == INTERVAL_MS * j;
  }

  /** The reported delay is the normalised one exactly when rounding up does not wrap around. */
  lemma NormalisesIff(range: UlongRange, delay: nat)
    requires delay < range
    ensures Normalises(delay, ReportedDelay(range, delay)) <==> delay + 249 < range
  {
    var d := if delay == 0 then INTERVAL_MS else delay;
    if delay + (INTERVAL_MS - 1) >= range {
      assert (d + (INTERVAL_MS - 1)) % range == d + (INTERVAL_MS - 1) - range;
      assert IntervalCount(range, delay) == 0;
    }
  }

  /** A count is zero, and the LED does not blink, exactly when rounding up wraps around. */
  lemma CountIsZeroIff(range: UlongRange, delay: nat)
    requires delay < range
    ensures IntervalCount(range, delay) <= 240
    ensures IntervalCount(range, delay) == 0 <==> delay + 249 >= range
  {
    NormalisesIff(range, delay);
    var d := if delay == 0 then INTERVAL_MS else delay;
    if delay + (INTERVAL_MS - 1) >= range {
      assert (d + (INTERVAL_MS - 1)) % range == d + (INTERVAL_MS - 1) - range;
    }
  }

  lemma Monotone(range: UlongRange, a: nat, b: nat)
    requires a <= b && b + 249 < range
    ensures ReportedDelay(range, a) <= ReportedDelay(range, b)
  {
    NormalisesIff(range, a);
    NormalisesIff(range, b);
  }

  /** A delay reported by the driver is reported unchanged when it is asked for. */
  lemma Idempotent(range: UlongRange, delay: nat)
    requires delay + 249 < range
    ensures ReportedDelay(range, delay) < range
    ensures ReportedDelay(range, ReportedDelay(range, delay)) == ReportedDelay(range, delay)
  {
    var r := ReportedDelay(range, delay);
    NormalisesIff(range, delay);
    NormalisesIff(range, r);
    NormalisedIsUnique(r, r, ReportedDelay(range, r));
  }
}
