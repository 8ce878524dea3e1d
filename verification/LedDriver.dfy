/** The LED driver's code on its array of LEDs and on the two LED registers. */
module LedDriver {
  import opened Common
  import opened Words
  import opened LedFields
  import opened LedPanel
  import BitPattern
  import BlinkDelay

  /** LEDs 0 to 7 have the fields of the first register, LEDs 8 to 15 those of the second. */
  function FieldOf(i: Index): Field {
    if i < 8 then i else i - 8
  }

  function LampsOf(reg1: bv16, reg2: bv16): Lamps {
    seq(LED_COUNT, i requires 0 <= i < LED_COUNT => LampOf(if i < 8 then reg1 else reg2, FieldOf(i)))
  }

  /** The lamp of an LED is the two bits at offset 2i of the first register or 2(i - 8) of the second. */
  lemma LampsAtOffsets(reg1: bv16, reg2: bv16, i: Index)
    ensures LampsOf(reg1, reg2)[i] == Decoded(if i < 8 then BitsAt(reg1, 2 * i) else BitsAt(reg2, 2 * (i - 8)))
  {
    hide LampOf;
    hide Decoded;
    hide BitsAt;
    LampAtOffset(if i < 8 then reg1 else reg2, if i < 8 then i else i - 8);
  }

  // Collecting the changes of one refresh

  /** The values and masks for the two registers. */
  datatype Batch = Batch(value1: bv16, mask1: bv16, value2: bv16, mask2: bv16)

  const EMPTY: Batch := Batch(0, 0, 0, 0)

  function Added(b: Batch, i: Index, on: bool): Batch {
    var k := FieldOf(i);
    if i < 8 then b.(value1 := Raised(b.value1, FieldValue(k, on)), mask1 := Raised(b.mask1, FieldMask(k)))
    else b.(value2 := Raised(b.value2, FieldValue(k, on)), mask2 := Raised(b.mask2, FieldMask(k)))
  }

  /** For each LED, the state it is to be changed to, if any. */
  type Wishes = s: seq<Option<bool>> | |s| == LED_COUNT witness NO_WISHES

  const NO_WISHES: seq<Option<bool>> := [None, None, None, None, None, None, None, None,
                                         None, None, None, None, None, None, None, None]

  predicate CollectedAt(value: bv16, mask: bv16, k: Field, wish: Option<bool>) {
    && Aligned(mask, k) && Covers(mask, k) == wish.Some?
    && LampOf(value, k) == if wish.Some? then LampFor(wish.value) else Off
  }

  function WishBelow(wishes: Wishes, n: nat, i: Index): Option<bool> {
    if i < n then wishes[i] else None
  }

  predicate CollectedFor(b: Batch, i: Index, wish: Option<bool>) {
    if i < 8 then CollectedAt(b.value1, b.mask1, FieldOf(i), wish)
    else CollectedAt(b.value2, b.mask2, FieldOf(i), wish)
  }

  /** The batch holds the wishes of the LEDs below `n` and nothing else. */
  ghost predicate Collects(b: Batch, wishes: Wishes, n: nat) {
    forall i: Index :: CollectedFor(b, i, WishBelow(wishes, n, i))
  }

  lemma EmptyCollects(wishes: Wishes)
    ensures Collects(EMPTY, wishes, 0)
  {
    hide Aligned;
    hide Covers;
    hide LampOf;
    forall i: Index ensures CollectedFor(EMPTY, i, None) {
      NothingAdded(FieldOf(i));
    }
  }

  lemma AddedAt(value: bv16, mask: bv16, j: Field, on: bool, k: Field, wish: Option<bool>)
    requires CollectedAt(value, mask, j, None) && CollectedAt(value, mask, k, wish)
    ensures CollectedAt(Raised(value, FieldValue(j, on)), Raised(mask, FieldMask(j)), k,
                        if k == j then Some(on) else wish)
  {
    hide Raised;
    hide Aligned;
    hide Covers;
    hide LampOf;
    hide FieldMask;
    hide FieldValue;
    MaskAdded(mask, j, k);
    ValueAdded(value, j, on, k);
  }

  lemma AddedCollects(b: Batch, wishes: Wishes, i: Index)
    requires Collects(b, wishes, i)
    ensures Collects(if wishes[i].Some? then Added(b, i, wishes[i].value) else b, wishes, i + 1)
  {
    hide CollectedAt;
    hide Raised;
    hide FieldMask;
    hide FieldValue;
    assert WishBelow(wishes, i, i) == None;
    var c := if wishes[i].Some? then Added(b, i, wishes[i].value) else b;
    var m := i + 1;
    forall j: Index ensures CollectedFor(c, j, WishBelow(wishes, m, j)) {
      var wish := WishBelow(wishes, i, j);
      assert CollectedFor(b, j, wish) && CollectedFor(b, i, None);
      if wishes[i].Some? && (i < 8) == (j < 8) {
        if i < 8 {
          AddedAt(b.value1, b.mask1, FieldOf(i), wishes[i].value, FieldOf(j), wish);
        } else {
          AddedAt(b.value2, b.mask2, FieldOf(i), wishes[i].value, FieldOf(j), wish);
        }
      }
    }
  }

  function Flushed(reg: bv16, value: bv16, mask: bv16): bv16 {
    if mask == 0 then reg else Rewritten(reg, value, mask)
  }

  lemma FlushedAt(reg: bv16, value: bv16, mask: bv16, k: Field, wish: Option<bool>)
    requires CollectedAt(value, mask, k, wish)
    ensures LampOf(Flushed(reg, value, mask), k) == if wish.Some? then LampFor(wish.value) else LampOf(reg, k)
  {
    hide Aligned;
    hide LampOf;
    hide Rewritten;
    RewrittenField(reg, value, mask, k);
    NothingAdded(k);
    hide Covers;
  }

  /** The two batched writes change each LED as if it had been written alone. */
  lemma BatchIsPerLed(reg1: bv16, reg2: bv16, b: Batch, wishes: Wishes)
    requires Collects(b, wishes, LED_COUNT)
    ensures var lamps := LampsOf(Flushed(reg1, b.value1, b.mask1), Flushed(reg2, b.value2, b.mask2));
            forall i: Index :: lamps[i] == if wishes[i].Some? then LampFor(wishes[i].value) else LampsOf(reg1, reg2)[i]
  {
    hide CollectedAt;
    hide LampOf;
    hide Flushed;
    var lamps := LampsOf(Flushed(reg1, b.value1, b.mask1), Flushed(reg2, b.value2, b.mask2));
    forall i: Index
      ensures lamps[i] == if wishes[i].Some? then LampFor(wishes[i].value) else LampsOf(reg1, reg2)[i]
    {
      assert CollectedFor(b, i, WishBelow(wishes, LED_COUNT, i));
      if i < 8 {
        FlushedAt(reg1, b.value1, b.mask1, FieldOf(i), wishes[i]);
      } else {
        FlushedAt(reg2, b.value2, b.mask2, FieldOf(i), wishes[i]);
      }
    }
  }

  lemma WrittenAlone(reg1: bv16, reg2: bv16, i: Index, on: bool)
    ensures var value, mask := FieldValue(FieldOf(i), on), FieldMask(FieldOf(i));
            if i < 8 then OnlyAt(reg1, Flushed(reg1, value, mask), 2 * i, if on then 2 else 0)
            else OnlyAt(reg2, Flushed(reg2, value, mask), 2 * (i - 8), if on then 2 else 0)
  {
    hide OnlyAt;
    hide Rewritten;
    hide FieldValue;
    hide FieldMask;
    FieldAlone(if i < 8 then reg1 else reg2, if i < 8 then i else i - 8, on);
  }

  /** What a brightness call does to the registers, in their bits. */
  predicate WrittenAt(was1: bv16, was2: bv16, reg1: bv16, reg2: bv16, i: Index, working: bool, brightness: int) {
    var value: bv16 := if brightness > 0 then 2 else 0;
    if (i == 4 || i == 5) && !working then reg1 == was1 && reg2 == was2
    else if i < 8 then OnlyAt(was1, reg1, 2 * i, value) && reg2 == was2
    else OnlyAt(was2, reg2, 2 * (i - 8), value) && reg1 == was1
  }

  class LedDevice {
    const leds: array<Led>
    const range: BlinkDelay.UlongRange
    var patternStep: nat
    var ctrl1: bv16
    var ctrl2: bv16
    var working: bool

    ghost predicate Valid()
      reads this
    {
      leds.Length == LED_COUNT && patternStep < BitPattern.WIDTH
    }

    ghost function Abs(): Panel
      requires Valid()
      reads this, leds
    {
      Panel(leds[..], LampsOf(ctrl1, ctrl2), patternStep, working)
    }

    /** Clears and sets the masked bits of one register; nothing is written for an empty mask. */
    method SetRegister(first: bool, value: bv16, mask: bv16)
      modifies `ctrl1, `ctrl2
      ensures ctrl1 == if first then Flushed(old(ctrl1), value, mask) else old(ctrl1)
      ensures ctrl2 == if first then old(ctrl2) else Flushed(old(ctrl2), value, mask)
    {
      hide Raised;
      hide Cleared;
      hide Kept;
      if mask == 0 {
        return;
      }
      if first {
        ctrl1 := Cleared(ctrl1, mask);
        ctrl1 := Raised(ctrl1, Kept(value, mask));
      } else {
        ctrl2 := Cleared(ctrl2, mask);
        ctrl2 := Raised(ctrl2, Kept(value, mask));
      }
    }

    // One LED

    /** The driver's brightness write, with the lock held. */
    method SetBrightnessUnlocked(i: Index, brightness: int)
      requires Valid()
      modifies `ctrl1, `ctrl2
      ensures Valid() && Abs() == Lit(old(Abs()), i, brightness)
      ensures WrittenAt(old(ctrl1), old(ctrl2), ctrl1, ctrl2, i, working, brightness)
    {
      hide OnlyAt;
      hide Raised;
      hide FieldMask;
      hide FieldValue;
      hide Flushed;
      hide LampOf;
      if Battery(i) && !working {
        return;
      }
      var on := brightness > 0;
      var value, mask := FieldValue(FieldOf(i), on), FieldMask(FieldOf(i));
      ghost var reg1, reg2 := ctrl1, ctrl2;
      SetRegister(i < 8, value, mask);
      SingleWrite(reg1, reg2, i, on);
      WrittenAlone(reg1, reg2, i, on);
      assert LampsOf(ctrl1, ctrl2) == LampsOf(reg1, reg2)[i := LampFor(on)];
    }

    method SetBrightness(i: Index, brightness: int)
      requires Valid()
      modifies leds, `ctrl1, `ctrl2
      ensures Valid() && Abs() == Brightened(old(Abs()), i, brightness)
      ensures WrittenAt(old(ctrl1), old(ctrl2), ctrl1, ctrl2, i, working, brightness)
      ensures leds[i] == if brightness == 0 then old(leds[i]).(on := 0, off := 0, current := 0) else old(leds[i])
      ensures forall j: Index :: j != i ==> leds[j] == old(leds[j])
    {
      hide WrittenAt;
      if brightness == 0 {
        leds[i] := leds[i].(on := 0, off := 0, current := 0);
      }
      SetBrightnessUnlocked(i, brightness);
    }

    /** Starts blinking; returns the delays in use, in milliseconds. */
    method SetBlink(i: Index, delayOn: nat, delayOff: nat) returns (usedOn: nat, usedOff: nat)
      requires Valid() && delayOn < range && delayOff < range
      modifies leds, `ctrl1, `ctrl2
      ensures Valid()
      ensures Abs() == BlinkStarted(old(Abs()), i, BlinkDelay.IntervalCount(range, delayOn),
                                    BlinkDelay.IntervalCount(range, delayOff))
      ensures WrittenAt(old(ctrl1), old(ctrl2), ctrl1, ctrl2, i, working, 0)
      ensures usedOn == BlinkDelay.ReportedDelay(range, delayOn) && usedOff == BlinkDelay.ReportedDelay(range, delayOff)
    {
      hide WrittenAt;
      usedOn, usedOff := delayOn, delayOff;
      if usedOn == 0 {
        usedOn := BlinkDelay.INTERVAL_MS;
      }
      if usedOff == 0 {
        usedOff := BlinkDelay.INTERVAL_MS;
      }
      usedOn := (usedOn + (BlinkDelay.INTERVAL_MS - 1)) % range;
      usedOff := (usedOff + (BlinkDelay.INTERVAL_MS - 1)) % range;
      usedOn := usedOn / BlinkDelay.INTERVAL_MS;
      usedOff := usedOff / BlinkDelay.INTERVAL_MS;
      if usedOn > BlinkDelay.MAX_COUNT {
        usedOn := BlinkDelay.MAX_COUNT;
      }
      if usedOff > BlinkDelay.MAX_COUNT {
        usedOff := BlinkDelay.MAX_COUNT;
      }
      leds[i] := leds[i].(on := usedOn, off := usedOff, current := 0, prevOn := false);
      SetBrightnessUnlocked(i, 0);
      usedOn := usedOn * BlinkDelay.INTERVAL_MS;
      usedOff := usedOff * BlinkDelay.INTERVAL_MS;
    }

    /** Installs a pattern, unless its step delay or its length is not supported. */
    method SetPattern(i: Index, stepDelay: nat, pattern: BitPattern.Bits, length: int) returns (ok: bool)
      requires Valid()
      modifies leds, `ctrl1, `ctrl2
      ensures Valid()
      ensures ok <==> stepDelay == 250 && length > 0 && BitPattern.DividesWidth(length)
      ensures !ok ==> Abs() == old(Abs())
      ensures ok ==> Abs() == PatternStarted(old(Abs()), i, BitPattern.Replicated(pattern, length))
    {
      if stepDelay != BlinkDelay.INTERVAL_MS || length < 1 {
        return false;
      }
      var stored;
      ok, stored := BitPattern.Replicate(pattern, length);
      if !ok {
        return;
      }
      leds[i] := leds[i].(pattern := stored, prevOn := false);
      SetBrightnessUnlocked(i, 0);
    }

    method ClearPattern(i: Index)
      requires Valid()
      modifies leds, `ctrl1, `ctrl2
      ensures Valid() && Abs() == PatternStarted(old(Abs()), i, BitPattern.NoBits())
    {
      leds[i] := leds[i].(pattern := BitPattern.NoBits(), prevOn := false);
      SetBrightnessUnlocked(i, 0);
    }

    // All LEDs

    method Flush(b: Batch, ghost wishes: Wishes)
      requires Valid() && Collects(b, wishes, LED_COUNT)
      modifies `ctrl1, `ctrl2
      ensures forall i: Index :: LampsOf(ctrl1, ctrl2)[i] ==
                if wishes[i].Some? then LampFor(wishes[i].value) else LampsOf(old(ctrl1), old(ctrl2))[i]
    {
      hide Flushed;
      hide LampOf;
      BatchIsPerLed(ctrl1, ctrl2, b, wishes);
      SetRegister(true, b.value1, b.mask1);
      SetRegister(false, b.value2, b.mask2);
    }

    /** Whether a blinking LED is to be on; the two LEDs of a pair alternate if they blink alike. */
    method BlinkState(i: Index) returns (stateOn: bool)
      requires Valid()
      ensures stateOn == BlinkOn(leds[..], i)
    {
      var led := leds[i];
      stateOn := led.current < led.on;
      if i % 2 == 1 {
        var other := leds[i - 1];
        if led.off == led.on && led.off == other.off && led.on == other.on {
          stateOn := other.current >= other.on;
        }
      }
    }

    /** Decides for every blinking LED, collects the changes and writes them. */
    method ShowBlinking()
      requires Valid()
      modifies leds, `ctrl1, `ctrl2
      ensures Valid()
      ensures forall i: Index :: leds[i] == DecidedLed(old(leds[..]), i)
      ensures forall i: Index :: LampsOf(ctrl1, ctrl2)[i] == BlinkedLamp(old(Abs()), i)
    {
      hide Collects;
      hide Added;
      hide LampOf;
      ghost var p := Abs();
      ghost var wishes: Wishes := seq(LED_COUNT, i requires 0 <= i < LED_COUNT => BlinkWish(p.leds, i));
      var batch := EMPTY;
      EmptyCollects(wishes);
      for i := 0 to LED_COUNT
        invariant forall j: Index :: i <= j ==> leds[j] == p.leds[j]
        invariant forall j: Index :: j < i ==> leds[j] == DecidedLed(p.leds, j)
        invariant Collects(batch, wishes, i)
        invariant ctrl1 == old(ctrl1) && ctrl2 == old(ctrl2)
      {
        AddedCollects(batch, wishes, i);
        var led := leds[i];
        if led.off == 0 || led.on == 0 {
          continue;
        }
        var stateOn := BlinkState(i);
        SameTimes(leds[..], p.leds, i);
        hide BlinkOn;
        if stateOn != led.prevOn {
          batch := Added(batch, i, stateOn);
          leds[i] := led.(prevOn := stateOn);
        }
      }
      Flush(batch, wishes);
    }

    method AdvanceIntervals()
      requires Valid()
      modifies leds
      ensures forall i: Index :: leds[i] == AdvancedLed(old(leds[..])[i])
    {
      ghost var was := leds[..];
      for i := 0 to LED_COUNT
        invariant forall j: Index :: i <= j ==> leds[j] == was[j]
        invariant forall j: Index :: j < i ==> leds[j] == AdvancedLed(was[j])
      {
        var led := leds[i];
        if led.off == 0 || led.on == 0 {
          continue;
        }
        var current := led.current + 1;
        if current >= led.on + led.off {
          current := 0;
        }
        leds[i] := led.(current := current);
      }
    }

    method UpdateBlinking()
      requires Valid()
      modifies leds, `ctrl1, `ctrl2
      ensures Valid() && Abs() == BlinkTick(old(Abs()))
    {
      ghost var p := Abs();
      ShowBlinking();
      AdvanceIntervals();
      hide LampOf;
      assert forall i: Index :: leds[..][i] == BlinkedLed(p.leds, i);
      assert leds[..] == BlinkTick(p).leds;
      assert LampsOf(ctrl1, ctrl2) == BlinkTick(p).lamps;
    }

    method UpdatePatterns()
      requires Valid()
      modifies leds, `ctrl1, `ctrl2, `patternStep
      ensures Valid() && Abs() == PatternTick(old(Abs()))
    {
      hide Collects;
      hide Added;
      ghost var p := Abs();
      ghost var wishes: Wishes := seq(LED_COUNT, i requires 0 <= i < LED_COUNT => PatternWish(p.leds[i], p.step));
      var batch := EMPTY;
      EmptyCollects(wishes);
      for i := 0 to LED_COUNT
        invariant forall j: Index :: i <= j ==> leds[j] == p.leds[j]
        invariant forall j: Index :: j < i ==> leds[j] == PatternedLed(p.leds[j], p.step)
        invariant patternStep == p.step && ctrl1 == old(ctrl1) && ctrl2 == old(ctrl2)
        invariant Collects(batch, wishes, i)
      {
        AddedCollects(batch, wishes, i);
        var led := leds[i];
        if !BitPattern.NonZero(led.pattern) {
          continue;
        }
        var stateOn := led.pattern[patternStep];
        if stateOn != led.prevOn {
          batch := Added(batch, i, stateOn);
          leds[i] := led.(prevOn := stateOn);
        }
      }
      Flush(batch, wishes);
      patternStep := patternStep + 1;
      if patternStep == BitPattern.WIDTH {
        patternStep := 0;
      }
      hide LampOf;
      assert leds[..] == PatternTick(p).leds;
      assert LampsOf(ctrl1, ctrl2) == PatternTick(p).lamps;
    }

    /** One round of the refresh thread, with the lock held. */
    method Refresh()
      requires Valid()
      modifies leds, `ctrl1, `ctrl2, `patternStep
      ensures Valid() && Abs() == Tick(old(Abs()))
    {
      UpdateBlinking();
      UpdatePatterns();
    }

    // Start and end

    constructor (range: BlinkDelay.UlongRange, ctrl1: bv16, ctrl2: bv16)
      ensures Valid() && fresh(leds) && this.range == range
      ensures Abs() == Panel(AllResting(), LampsOf(ctrl1, ctrl2), 0, false)
    {
      this.range, this.ctrl1, this.ctrl2 := range, ctrl1, ctrl2;
      patternStep, working := 0, false;
      leds := new Led[LED_COUNT](_ => Resting());
      new;
      assert leds[..] == AllResting();
    }

    /** The initial brightness of every LED but those of the battery; then the refresh thread starts. */
    method Begin()
      requires Valid() && !working
      modifies `ctrl1, `ctrl2, `working
      ensures Valid() && Abs() == old(Abs()).(lamps := Abs().lamps, working := true)
      ensures forall i: Index ::
                Abs().lamps[i] == if i == 4 || i == 5 then old(Abs()).lamps[i] else if i == 7 then Dimmed else Off
    {
      hide LampOf;
      ghost var p := Abs();
      for i := 0 to LED_COUNT
        invariant Abs() == p.(lamps := Abs().lamps)
        invariant forall j: Index :: j < i && !Battery(j) ==> Abs().lamps[j] == LampFor(InitialBrightness(j) > 0)
        invariant forall j: Index :: j >= i || Battery(j) ==> Abs().lamps[j] == p.lamps[j]
      {
        if InitialBrightness(i) >= 0 {
          SetBrightnessUnlocked(i, InitialBrightness(i));
        }
      }
      working := true;
    }

    /** Stops the refresh thread, lets the LEDs be unregistered, and leaves the final state behind. */
    method Remove(unregistering: seq<(Index, int)>)
      requires Valid()
      modifies this, leds
      ensures Valid() && !working && Abs().lamps == Removed(old(Abs()).lamps)
    {
      hide LampOf;
      hide Raised;
      hide Cleared;
      ghost var lamps := Abs().lamps;
      working := false;
      for n := 0 to |unregistering|
        invariant Valid() && !working
        invariant forall i: Index :: Battery(i) ==> Abs().lamps[i] == lamps[i]
      {
        SetBrightness(unregistering[n].0, unregistering[n].1);
      }
      FinalRegisters(ctrl1, ctrl2);
      assert forall i: Index :: Battery(i) ==> LampsOf(ctrl1, ctrl2)[i] == lamps[i];
      ctrl1 := Cleared(ctrl1, 0xF0FF);
      ctrl2 := Cleared(ctrl2, 0xFFFF);
      ctrl1 := Raised(ctrl1, 0x4000);
    }
  }

  /** The battery LEDs have none. */
  function InitialBrightness(i: Index): int {
    if Battery(i) then -1 else if i == 7 then 1 else 0
  }

  lemma FinalFirst(reg: bv16, k: Field)
    ensures LampOf(Raised(Cleared(reg, 0xF0FF), 0x4000), k)
         == if k == 4 || k == 5 then LampOf(reg, k) else if k == 7 then FullyOn else Off
  {
  }

  lemma FinalSecond(reg: bv16, k: Field)
    ensures LampOf(Cleared(reg, 0xFFFF), k) == Off
  {
  }

  lemma FinalRegisters(reg1: bv16, reg2: bv16)
    ensures LampsOf(Raised(Cleared(reg1, 0xF0FF), 0x4000), Cleared(reg2, 0xFFFF)) == Removed(LampsOf(reg1, reg2))
  {
    hide LampOf;
    hide Raised;
    hide Cleared;
    forall k: Field
      ensures LampOf(Raised(Cleared(reg1, 0xF0FF), 0x4000), k)
           == if k == 4 || k == 5 then LampOf(reg1, k) else if k == 7 then FullyOn else Off
      ensures LampOf(Cleared(reg2, 0xFFFF), k) == Off
    {
      FinalFirst(reg1, k);
      FinalSecond(reg2, k);
    }
  }

  /** The state of an LED when its blink state has been decided, and when its interval has advanced. */
  function DecidedLed(leds: Leds, i: Index): Led {
    if Blinking(leds[i]) then leds[i].(prevOn := BlinkOn(leds, i)) else leds[i]
  }

  function AdvancedLed(led: Led): Led {
    if Blinking(led) then led.(current := NextInterval(led)) else led
  }

  /** The decision does not depend on the cached states. */
  lemma SameTimes(leds: Leds, was: Leds, i: Index)
    requires leds[i] == was[i]
    requires forall j: Index :: j < i ==> leds[j] == DecidedLed(was, j)
    ensures BlinkOn(leds, i) == BlinkOn(was, i)
  {
    if i > 0 {
      assert leds[i - 1] == DecidedLed(was, i - 1);
    }
  }

  function BlinkWish(leds: Leds, i: Index): Option<bool> {
    if Blinking(leds[i]) && BlinkOn(leds, i) != leds[i].prevOn then Some(BlinkOn(leds, i)) else None
  }

  function PatternWish(led: Led, step: Step): Option<bool> {
    if Patterned(led) && led.pattern[step] != led.prevOn then Some(led.pattern[step]) else None
  }

  function OnlyWish(field: Field, on: bool, k: Field): Option<bool> {
    if k == field then Some(on) else None
  }

  /** Writing one LED alone. */
  lemma SingleWrite(reg1: bv16, reg2: bv16, i: Index, on: bool)
    ensures var value, mask := FieldValue(FieldOf(i), on), FieldMask(FieldOf(i));
            (if i < 8 then LampsOf(Flushed(reg1, value, mask), reg2) else LampsOf(reg1, Flushed(reg2, value, mask)))
            == LampsOf(reg1, reg2)[i := LampFor(on)]
  {
    hide Raised;
    hide FieldMask;
    hide FieldValue;
    hide LampOf;
    hide CollectedAt;
    hide Flushed;
    var value, mask := FieldValue(FieldOf(i), on), FieldMask(FieldOf(i));
    forall k: Field ensures CollectedAt(value, mask, k, OnlyWish(FieldOf(i), on, k)) {
      assert CollectedAt(0, 0, k, None) && CollectedAt(0, 0, FieldOf(i), None) by {
        NothingCollected(k);
        NothingCollected(FieldOf(i));
      }
      AddedAt(0, 0, FieldOf(i), on, k, None);
      ZeroBits(value);
      ZeroBits(mask);
    }
    forall k: Field
      ensures LampOf(Flushed(reg1, value, mask), k) == if k == FieldOf(i) then LampFor(on) else LampOf(reg1, k)
      ensures LampOf(Flushed(reg2, value, mask), k) == if k == FieldOf(i) then LampFor(on) else LampOf(reg2, k)
    {
      FlushedAt(reg1, value, mask, k, OnlyWish(FieldOf(i), on, k));
      FlushedAt(reg2, value, mask, k, OnlyWish(FieldOf(i), on, k));
    }
  }

  lemma NothingCollected(k: Field)
    ensures CollectedAt(0, 0, k, None)
  {
    hide Aligned;
    hide Covers;
    hide LampOf;
    NothingAdded(k);
  }
}
