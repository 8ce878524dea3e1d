/** Sixty-four-bit patterns, and the replication of a short pattern over all bits. */
module BitPattern {
  /** A u64 as its bits, the least significant first. */
  type Bits = s: seq<bool> | |s| == 64 witness seq(64, _ => false)

  function NoBits(): Bits {
    seq(64, _ => false)
  }

  const WIDTH: nat := 64

  /** A shift to the left; as in C, it must be by less than the width. */
  function Shl(x: Bits, n: nat): Bits
    requires n < WIDTH
  {
    seq(64, j requires 0 <= j < 64 => j >= n && x[j - n])
  }

  function Or(x: Bits, y: Bits): Bits {
    seq(64, j requires 0 <= j < 64 => x[j] || y[j])
  }

  function And(x: Bits, y: Bits): Bits {
    seq(64, j requires 0 <= j < 64 => x[j] && y[j])
  }

  function LowestBit(): Bits {
    seq(64, j => j == 0)
  }

  /** Some bit is set. */
  predicate NonZero(x: Bits) {
    exists j :: 0 <= j < 64 && x[j]
  }

  /** The pattern of the given length, repeated over all bits. */
  function Replicated(pattern: Bits, length: nat): Bits
    requires length > 0
  {
    seq(64, j requires 0 <= j < 64 => (ModSmall(j, length); pattern[j % length]))
  }

  lemma ModSmall(j: nat, n: nat)
    requires n > 0
    ensures 0 <= j % n <= j
  {
    if j < n {
      ModUnique(j, n, 0, j);
    }
  }

  /** Where doubling a length ends. */
  function Doubled(n: nat): nat
    requires n > 0
    decreases if n < WIDTH then WIDTH - n else 0
  {
    if n < WIDTH then Doubled(2 * n) else n
  }

  predicate DividesWidth(n: nat) {
    n in {1, 2, 4, 8, 16, 32, 64}
  }

  lemma {:induction false} DoublingEnds(n: nat)
    requires n > 0
    ensures Doubled(n) == WIDTH <==> DividesWidth(n)
    decreases if n < WIDTH then WIDTH - n else 0
  {
    if n < WIDTH {
      DoublingEnds(2 * n);
    }
  }

  lemma DivisorsDivide(n: nat)
    requires DividesWidth(n)
    ensures n > 0 && WIDTH % n == 0
  {
  }

  lemma {:induction false} ModLess(j: nat, n: nat, times: nat)
    requires n > 0 && n * times <= j
    ensures (j - n * times) % n == j % n
  {
    if times > 0 {
      assert n * times == n * (times - 1) + n;
      ModLess(j, n, times - 1);
      ModOnce(j - n * times, n);
    }
  }

  lemma ModOnce(k: nat, n: nat)
    requires n > 0
    ensures (k + n) % n == k % n
  {
    assert k + n == n * (k / n + 1) + k % n;
    ModUnique(k + n, n, k / n + 1, k % n);
  }

  lemma MultipleGrows(n: int, d: int)
    requires n >= 0
    ensures d >= 1 ==> n * d >= n
    ensures d <= -1 ==> n * d <= -n
  {
  }

  lemma ModUnique(k: nat, n: nat, q: nat, r: nat)
    requires n > 0 && r < n && k == n * q + r
    ensures k % n == r
  {
    var d := q - k / n;
    assert n * d == k % n - r;
    MultipleGrows(n, d);
  }

  /** The first `filled` bits repeat the first `n` bits of `source`; the others are clear. */
  ghost predicate Repeats(x: Bits, source: Bits, n: nat, filled: nat)
    requires n > 0
  {
    forall j :: 0 <= j < 64 ==> x[j] == (j < filled && source[j % n])
  }

  lemma DoublingRepeats(x: Bits, source: Bits, n: nat, times: nat)
    requires n > 0 && n * times < WIDTH && times > 0 && Repeats(x, source, n, n * times)
    ensures Repeats(Or(x, Shl(x, n * times)), source, n, n * (2 * times))
  {
    var filled := n * times;
    assert n * (2 * times) == 2 * filled;
    forall j | 0 <= j < 64 ensures Or(x, Shl(x, filled))[j] == (j < 2 * filled && source[j % n]) {
      if j >= filled {
        ModLess(j, n, times);
      }
    }
  }

  /**
   The pattern as it is stored: accepted exactly for the lengths that divide the width, and then
   every bit is the bit of the input at its position modulo the length.
   */
  method Replicate(pattern: Bits, length: nat) returns (accepted: bool, stored: Bits)
    requires length > 0
    ensures accepted <==> DividesWidth(length)
    ensures accepted ==> stored == Replicated(pattern, length)
  {
    var mask := NoBits();
    for i := 0 to length
      invariant forall j :: 0 <= j < 64 ==> mask[j] == (j < i)
    {
      mask := Or(Shl(mask, 1), LowestBit());
    }
    stored := And(pattern, mask);
    assert Repeats(stored, pattern, length, length) by {
      forall j | 0 <= j < 64 && j < length ensures j % length == j {
        ModUnique(j, length, 0, j);
      }
    }
    var filled := length;
    ghost var times := 1;
    while filled < WIDTH
      invariant times > 0 && filled == length * times
      invariant Repeats(stored, pattern, length, filled)
      invariant Doubled(filled) == Doubled(length)
      decreases WIDTH - filled
    {
      DoublingRepeats(stored, pattern, length, times);
      stored := Or(stored, Shl(stored, filled));
      filled, times := filled * 2, times * 2;
    }
    DoublingEnds(length);
    accepted := filled == WIDTH;
    if accepted {
      assert stored == Replicated(pattern, length);
    }
  }
}
