/** Sixteen-bit register values: looking at, setting and clearing bits, and the laws the proofs use. */
module Words {
  predicate Has(value: bv16, mask: bv16) {
    value & mask != 0
  }

  /** A register with further bits set. */
  function Raised(value: bv16, bits: bv16): bv16 {
    value | bits
  }

  /** A register with some bits cleared. */
  function Cleared(value: bv16, bits: bv16): bv16 {
    value & !bits
  }

  /** The bits of a register under a mask. */
  function Kept(value: bv16, mask: bv16): bv16 {
    value & mask
  }

  lemma HasIsKept(v: bv16, m: bv16)
    ensures Has(v, m) <==> Kept(v, m) != 0
  {
  }

  lemma RaisedDistributes(v: bv16, n: bv16, m: bv16)
    ensures Kept(Raised(v, n), m) == Raised(Kept(v, m), Kept(n, m))
  {
  }

  lemma RaisedIsZero(a: bv16, b: bv16)
    ensures Raised(a, b) == 0 <==> a == 0 && b == 0
  {
  }

  lemma RaisedHas(v: bv16, n: bv16, m: bv16)
    ensures Has(Raised(v, n), m) <==> Has(v, m) || Has(n, m)
  {
    hide Has;
    hide Raised;
    hide Kept;
    HasIsKept(v, m);
    HasIsKept(n, m);
    HasIsKept(Raised(v, n), m);
    RaisedDistributes(v, n, m);
    RaisedIsZero(Kept(v, m), Kept(n, m));
  }

  lemma HasCommutes(x: bv16, y: bv16)
    ensures Has(x, y) == Has(y, x)
  {
  }

  lemma ZeroBits(x: bv16)
    ensures Raised(x, 0) == x && Raised(0, x) == x && Cleared(x, 0) == x && Cleared(0, x) == 0
    ensures !Has(0, x) && !Has(x, 0)
  {
  }

  lemma RaisedAssociates(x: bv16, a: bv16, b: bv16)
    ensures Raised(Raised(x, a), b) == Raised(x, Raised(a, b))
  {
  }

  lemma RaisedCommutes(x: bv16, y: bv16)
    ensures Raised(x, y) == Raised(y, x)
  {
  }

  lemma RaisedTwice(x: bv16, b: bv16)
    ensures Raised(Raised(x, b), b) == Raised(x, b)
  {
  }

  lemma ClearedBoth(x: bv16, a: bv16, b: bv16)
    ensures Cleared(x, Raised(a, b)) == Cleared(Cleared(x, a), b)
  {
  }

  /** Setting and clearing different bits can be done in either order. */
  lemma RaisedClearedSwap(x: bv16, e: bv16, m: bv16)
    requires !Has(e, m)
    ensures Raised(Cleared(x, m), e) == Cleared(Raised(x, e), m)
  {
  }

  lemma ClearedAbsent(x: bv16, b: bv16)
    requires !Has(x, b)
    ensures Cleared(x, b) == x && Cleared(Raised(x, b), b) == x
  {
  }

  lemma ClearedHas(x: bv16, m: bv16, b: bv16)
    requires Has(Cleared(x, m), b)
    ensures Has(x, b)
  {
  }
}
