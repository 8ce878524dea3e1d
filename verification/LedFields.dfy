/** The two LED registers: eight fields of two bits each. */
module LedFields {
  import opened Words

  datatype Lamp = Off | FullyOn | Dimmed | DimmedBlinking

  type Field = k: nat | k < 8

  /** The lower and the upper bit of field `k`, at the even offset 2k. */
  function LowBit(k: Field): bv16 {
    match k
    case 0 => 0x0001
    case 1 => 0x0004
    case 2 => 0x0010
    case 3 => 0x0040
    case 4 => 0x0100
    case 5 => 0x0400
    case 6 => 0x1000
    case _ => 0x4000
  }

  function HighBit(k: Field): bv16 {
    match k
    case 0 => 0x0002
    case 1 => 0x0008
    case 2 => 0x0020
    case 3 => 0x0080
    case 4 => 0x0200
    case 5 => 0x0800
    case 6 => 0x2000
    case _ => 0x8000
  }

  /** The mask of a field, and the value Dimmed or Off shifted into it. */
  function FieldMask(k: Field): bv16 {
    Raised(LowBit(k), HighBit(k))
  }

  function FieldValue(k: Field, on: bool): bv16 {
    if on then HighBit(k) else 0
  }

  function LampOf(reg: bv16, k: Field): Lamp {
    if Has(reg, HighBit(k)) then
      if Has(reg, LowBit(k)) then DimmedBlinking else Dimmed
    else
      if Has(reg, LowBit(k)) then FullyOn else Off
  }

  /** What the two bits of a field say. */
  function Decoded(value: bv16): Lamp {
    if value == 0 then Off else if value == 1 then FullyOn else if value == 2 then Dimmed else DimmedBlinking
  }

  /** The two bits at an offset. */
  function BitsAt(reg: bv16, offset: nat): bv16
    requires offset <= 14
  {
    (reg >> offset) & 3
  }

  /** The two bits of a register under these masks are those at the offset. */
  predicate BitsMatch(reg: bv16, low: bv16, high: bv16, offset: nat)
    requires offset <= 14
  {
    && (Has(BitsAt(reg, offset), 1) <==> Has(reg, low))
    && (Has(BitsAt(reg, offset), 2) <==> Has(reg, high))
  }

  lemma FirstBits(reg: bv16)
    ensures BitsMatch(reg, 0x0001, 0x0002, 0) && BitsMatch(reg, 0x0004, 0x0008, 2)
  {
  }

  lemma SecondBits(reg: bv16)
    ensures BitsMatch(reg, 0x0010, 0x0020, 4) && BitsMatch(reg, 0x0040, 0x0080, 6)
  {
  }

  lemma ThirdBits(reg: bv16)
    ensures BitsMatch(reg, 0x0100, 0x0200, 8) && BitsMatch(reg, 0x0400, 0x0800, 10)
  {
  }

  lemma FourthBits(reg: bv16)
    ensures BitsMatch(reg, 0x1000, 0x2000, 12) && BitsMatch(reg, 0x4000, 0x8000, 14)
  {
  }

  lemma AllBits(reg: bv16, k: nat)
    requires k < 8
    ensures BitsMatch(reg, LowBit(k), HighBit(k), 2 * k)
  {
    hide BitsMatch;
    FirstBits(reg);
    SecondBits(reg);
    ThirdBits(reg);
    FourthBits(reg);
  }

  lemma DecodedBits(value: bv16)
    requires value <= 3
    ensures Decoded(value) == if Has(value, 2) then (if Has(value, 1) then DimmedBlinking else Dimmed)
                              else if Has(value, 1) then FullyOn else Off
  {
  }

  lemma TwoBits(reg: bv16, offset: nat)
    requires offset <= 14
    ensures BitsAt(reg, offset) <= 3
  {
    AtMostThree(reg >> offset);
  }

  lemma AtMostThree(x: bv16)
    ensures x & 3 <= 3
  {
  }

  /** Field `k` is the two bits at offset 2k. */
  lemma LampAtOffset(reg: bv16, k: nat)
    requires k < 8
    ensures LampOf(reg, k) == Decoded(BitsAt(reg, 2 * k))
  {
    hide Has;
    hide LowBit;
    hide HighBit;
    hide BitsAt;
    hide Decoded;
    AllBits(reg, k);
    TwoBits(reg, 2 * k);
    DecodedBits(BitsAt(reg, 2 * k));
  }

  /** A two-bit value moved to an offset, and back. */
  function Up(value: bv16, offset: nat): bv16
    requires offset <= 14
  {
    value << offset
  }

  function Down(value: bv16, offset: nat): bv16
    requires offset <= 14
  {
    value >> offset
  }

  /** The two bits at `offset` have the value, and every other bit is as it was. */
  predicate OnlyAt(was: bv16, reg: bv16, offset: nat, value: bv16)
    requires offset <= 14
  {
    BitsAt(reg, offset) == value && Cleared(reg, Up(3, offset)) == Cleared(was, Up(3, offset))
  }

  lemma FieldShifted(k: nat, on: bool)
    requires k < 8
    ensures FieldMask(k) == Up(3, 2 * k) != 0 && FieldValue(k, on) == Up(if on then 2 else 0, 2 * k)
  {
    match k
    case 0 =>
    case 1 =>
    case 2 =>
    case 3 =>
    case 4 =>
    case 5 =>
    case 6 =>
    case _ =>
  }

  lemma OutsideMask(reg: bv16, value: bv16, mask: bv16)
    ensures Cleared(Rewritten(reg, value, mask), mask) == Cleared(reg, mask)
  {
  }

  lemma InsideMask(reg: bv16, value: bv16, mask: bv16)
    ensures Kept(Rewritten(reg, value, mask), mask) == Kept(value, mask)
  {
  }

  /** The bits at an offset are the masked register, moved back. */
  predicate MovesDown(reg: bv16, offset: nat)
    requires offset <= 14
  {
    BitsAt(reg, offset) == Down(Kept(reg, Up(3, offset)), offset)
  }

  lemma FirstMovesDown(reg: bv16)
    ensures MovesDown(reg, 0) && MovesDown(reg, 2)
  {
  }

  lemma SecondMovesDown(reg: bv16)
    ensures MovesDown(reg, 4) && MovesDown(reg, 6)
  {
  }

  lemma ThirdMovesDown(reg: bv16)
    ensures MovesDown(reg, 8) && MovesDown(reg, 10)
  {
  }

  lemma FourthMovesDown(reg: bv16)
    ensures MovesDown(reg, 12) && MovesDown(reg, 14)
  {
  }

  /** A value moved to an offset, masked and moved back. */
  predicate ComesBack(value: bv16, offset: nat)
    requires offset <= 14
  {
    Down(Kept(Up(value, offset), Up(3, offset)), offset) == value
  }

  lemma AllComeBack(on: bool)
    ensures var value: bv16 := if on then 2 else 0;
            && ComesBack(value, 0) && ComesBack(value, 2) && ComesBack(value, 4) && ComesBack(value, 6)
            && ComesBack(value, 8) && ComesBack(value, 10) && ComesBack(value, 12) && ComesBack(value, 14)
  {
  }

  lemma AtOffset(reg: bv16, on: bool, k: nat)
    requires k < 8
    ensures MovesDown(reg, 2 * k) && ComesBack(if on then 2 else 0, 2 * k)
  {
    hide MovesDown;
    hide ComesBack;
    FirstMovesDown(reg);
    SecondMovesDown(reg);
    ThirdMovesDown(reg);
    FourthMovesDown(reg);
    AllComeBack(on);
  }

  /** Writing one field changes the two bits at its offset, and no other. */
  lemma FieldAlone(reg: bv16, k: nat, on: bool)
    requires k < 8
    ensures OnlyAt(reg, Rewritten(reg, FieldValue(k, on), FieldMask(k)), 2 * k, if on then 2 else 0)
    ensures FieldMask(k) != 0
  {
    hide Rewritten;
    hide FieldValue;
    hide FieldMask;
    hide BitsAt;
    hide Cleared;
    hide Kept;
    hide Up;
    hide Down;
    var value, mask := FieldValue(k, on), FieldMask(k);
    FieldShifted(k, on);
    OutsideMask(reg, value, mask);
    InsideMask(reg, value, mask);
    AtOffset(Rewritten(reg, value, mask), on, k);
  }

  /** Clearing the masked bits and then setting those of the value. */
  function Rewritten(reg: bv16, value: bv16, mask: bv16): bv16 {
    Raised(Cleared(reg, mask), Kept(value, mask))
  }

  lemma LowBitAlone(k: Field, j: Field)
    ensures Has(LowBit(k), LowBit(j)) <==> k == j
    ensures !Has(LowBit(k), HighBit(j))
  {
  }

  lemma HighBitAlone(k: Field, j: Field)
    ensures Has(HighBit(k), HighBit(j)) <==> k == j
    ensures !Has(HighBit(k), LowBit(j))
  {
  }

  lemma ClearedLow(x: bv16, m: bv16, k: Field)
    ensures Has(Cleared(x, m), LowBit(k)) <==> Has(x, LowBit(k)) && !Has(m, LowBit(k))
  {
  }

  lemma ClearedHigh(x: bv16, m: bv16, k: Field)
    ensures Has(Cleared(x, m), HighBit(k)) <==> Has(x, HighBit(k)) && !Has(m, HighBit(k))
  {
  }

  lemma KeptBits(v: bv16, m: bv16, k: Field)
    ensures Has(Kept(v, m), LowBit(k)) <==> Has(v, LowBit(k)) && Has(m, LowBit(k))
    ensures Has(Kept(v, m), HighBit(k)) <==> Has(v, HighBit(k)) && Has(m, HighBit(k))
  {
  }

  /** The mask covers field `k` wholly or not at all. */
  predicate Aligned(mask: bv16, k: Field) {
    Has(mask, LowBit(k)) == Has(mask, HighBit(k))
  }

  predicate Covers(mask: bv16, k: Field) {
    Has(mask, LowBit(k)) && Has(mask, HighBit(k))
  }

  /** A masked write puts the new value into the fields of the mask and leaves every other field alone. */
  lemma RewrittenField(reg: bv16, value: bv16, mask: bv16, k: Field)
    requires Aligned(mask, k)
    ensures LampOf(Rewritten(reg, value, mask), k) == if Covers(mask, k) then LampOf(value, k) else LampOf(reg, k)
  {
    hide Has;
    hide Raised;
    hide Cleared;
    hide Kept;
    hide LowBit;
    hide HighBit;
    RaisedHas(Cleared(reg, mask), Kept(value, mask), LowBit(k));
    RaisedHas(Cleared(reg, mask), Kept(value, mask), HighBit(k));
    ClearedLow(reg, mask, k);
    ClearedHigh(reg, mask, k);
    KeptBits(value, mask, k);
  }

  /** Adding the mask of field `j` to a mask. */
  lemma MaskAdded(mask: bv16, j: Field, k: Field)
    ensures Aligned(mask, k) ==> Aligned(Raised(mask, FieldMask(j)), k)
    ensures Covers(Raised(mask, FieldMask(j)), k) <==> (Covers(mask, k) || k == j)
  {
    hide Has;
    hide Raised;
    hide LowBit;
    hide HighBit;
    RaisedHas(mask, FieldMask(j), LowBit(k));
    RaisedHas(mask, FieldMask(j), HighBit(k));
    RaisedHas(LowBit(j), HighBit(j), LowBit(k));
    RaisedHas(LowBit(j), HighBit(j), HighBit(k));
    LowBitAlone(j, k);
    HighBitAlone(j, k);
  }

  /** Adding the value of field `j` to a value in which that field is still Off. */
  lemma ValueAdded(value: bv16, j: Field, on: bool, k: Field)
    requires LampOf(value, j) == Off
    ensures LampOf(Raised(value, FieldValue(j, on)), k)
         == if k == j then (if on then Dimmed else Off) else LampOf(value, k)
  {
    hide Has;
    hide Raised;
    hide LowBit;
    hide HighBit;
    ZeroBits(LowBit(k));
    ZeroBits(HighBit(k));
    RaisedHas(value, FieldValue(j, on), LowBit(k));
    RaisedHas(value, FieldValue(j, on), HighBit(k));
    HighBitAlone(j, k);
  }

  lemma NothingAdded(k: Field)
    ensures LampOf(0, k) == Off && Aligned(0, k) && !Covers(0, k)
  {
    hide Has;
    hide LowBit;
    hide HighBit;
    ZeroBits(LowBit(k));
    ZeroBits(HighBit(k));
  }
}
