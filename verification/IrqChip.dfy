/**
 The interrupt chip: the enable requests of the child lines, batched into the IE register and
 the parent's wake count when the bus lock is released, and the thread that dispatches causes.
 */
module IrqChip {
  import opened IrqLines
  import opened Words

  /** What a child line asks for while the bus lock is held. */
  datatype Request = Enable(line: Line) | Disable(line: Line) | SetWake(on: bool)

  /** `parent` lists the wake calls forwarded to the parent interrupt. */
  datatype Chip = Chip(current: LineMask, requested: LineMask, wake: int, ie: bv16, parent: seq<bool>)

  // One bit set or cleared at a time

  function BitOf(line: Line): bv16 {
    if DESCRIPTORS[line].isError then 0 else DESCRIPTORS[line].mask
  }

  function Switched(ie: bv16, line: Line, on: bool): bv16 {
    if on then Raised(ie, BitOf(line)) else Cleared(ie, BitOf(line))
  }

  /** The IE register that stands for a mask: the ERR bit and the enabled lines that are no error lines. */
  function IeOf(mask: LineMask): bv16 {
    Raised(EnabledBits(mask, LINE_COUNT), ERR_BIT)
  }

  function EnabledBits(mask: LineMask, n: nat): bv16
    requires n <= LINE_COUNT
  {
    if n == 0 then 0 else Raised(EnabledBits(mask, n - 1), if mask[n - 1] then BitOf(n - 1) else 0)
  }

  // The batch

  /** The lines below `n` to be switched `on`, as the bits to be written. */
  function Changes(current: LineMask, requested: LineMask, on: bool, n: nat): bv16
    requires n <= LINE_COUNT
  {
    if n == 0 then 0
    else
      Raised(Changes(current, requested, on, n - 1),
             if current[n - 1] != requested[n - 1] && requested[n - 1] == on then BitOf(n - 1) else 0)
  }

  function Repeated(on: bool, n: nat): seq<bool> {
    seq(n, _ => on)
  }

  function Forwarded(wake: int): seq<bool> {
    if wake < 0 then Repeated(false, -wake) else Repeated(true, wake)
  }

  /** Releasing the bus lock; a write that fails changes nothing on the chip. */
  function Synced(c: Chip, disableOk: bool, enableOk: bool): Chip {
    var off := Changes(c.current, c.requested, false, LINE_COUNT);
    var on := Changes(c.current, c.requested, true, LINE_COUNT);
    var ie := if disableOk then Cleared(c.ie, off) else c.ie;
    var ie := if enableOk then Raised(ie, on) else ie;
    Chip(c.requested, c.requested, 0, ie, c.parent + Forwarded(c.wake))
  }

  function Asked(c: Chip, r: Request): Chip {
    match r
    case Enable(line) => c.(requested := c.requested[line := true])
    case Disable(line) => c.(requested := c.requested[line := false])
    case SetWake(on) => c.(wake := if on then c.wake + 1 else c.wake - 1)
  }

  const NO_LINES: LineMask := [false, false, false, false, false]

  function Initialised(): Chip {
    Chip(NO_LINES, NO_LINES, 0, ERR_BIT, [])
  }

  // The batch equals one write for each changed line

  lemma BitsDiffer(a: Line, b: Line)
    requires a != b
    ensures !Has(BitOf(a), BitOf(b))
  {
  }

  lemma ErrBitIsOther(b: Line)
    ensures !Has(ERR_BIT, BitOf(b))
  {
  }

  lemma {:induction false} ChangesAvoid(current: LineMask, requested: LineMask, on: bool, n: nat, other: Line)
    requires n <= other
    ensures !Has(Changes(current, requested, on, n), BitOf(other))
  {
    hide Has;
    hide Raised;
    hide BitOf;
    ZeroBits(BitOf(other));
    if n > 0 {
      var bit := if current[n - 1] != requested[n - 1] && requested[n - 1] == on then BitOf(n - 1) else 0;
      ChangesAvoid(current, requested, on, n - 1, other);
      BitsDiffer(n - 1, other);
      RaisedHas(Changes(current, requested, on, n - 1), bit, BitOf(other));
    }
  }

  /** No line is both switched on and switched off by one release of the bus lock. */
  lemma {:induction false} MasksDisjoint(current: LineMask, requested: LineMask, n: nat)
    requires n <= LINE_COUNT
    ensures !Has(Changes(current, requested, false, n), Changes(current, requested, true, n))
  {
    hide Has;
    hide Raised;
    hide BitOf;
    ZeroBits(0);
    if n > 0 {
      var off, on := Changes(current, requested, false, n - 1), Changes(current, requested, true, n - 1);
      var bit := BitOf(n - 1);
      MasksDisjoint(current, requested, n - 1);
      ChangesAvoid(current, requested, false, n - 1, n - 1);
      ChangesAvoid(current, requested, true, n - 1, n - 1);
      ZeroBits(off);
      ZeroBits(on);
      RaisedHas(off, bit, on);
      RaisedHas(on, bit, off);
      HasCommutes(off, on);
      HasCommutes(off, Raised(on, bit));
      HasCommutes(bit, on);
      HasCommutes(bit, off);
    }
  }

  /** The changed lines below `n`, each written at once. */
  function OneByOne(ie: bv16, current: LineMask, requested: LineMask, n: nat): bv16
    requires n <= LINE_COUNT
  {
    if n == 0 then ie
    else
      var before := OneByOne(ie, current, requested, n - 1);
      if current[n - 1] == requested[n - 1] then before else Switched(before, n - 1, requested[n - 1])
  }

  lemma {:induction false} BatchIsOneByOne(ie: bv16, current: LineMask, requested: LineMask, n: nat)
    requires n <= LINE_COUNT
    ensures Raised(Cleared(ie, Changes(current, requested, false, n)), Changes(current, requested, true, n))
         == OneByOne(ie, current, requested, n)
  {
    hide Has;
    hide Raised;
    hide Cleared;
    hide BitOf;
    ZeroBits(ie);
    if n > 0 {
      var off, on := Changes(current, requested, false, n - 1), Changes(current, requested, true, n - 1);
      var bit := BitOf(n - 1);
      BatchIsOneByOne(ie, current, requested, n - 1);
      ZeroBits(off);
      ZeroBits(on);
      RaisedAssociates(Cleared(ie, off), on, bit);
      ClearedBoth(ie, off, bit);
      ChangesAvoid(current, requested, true, n - 1, n - 1);
      RaisedClearedSwap(Cleared(ie, off), on, bit);
    }
  }

  // The register stands for the mask

  lemma {:induction false} EnabledAvoid(mask: LineMask, n: nat, other: Line)
    requires n <= other
    ensures !Has(EnabledBits(mask, n), BitOf(other))
  {
    hide Has;
    hide Raised;
    hide BitOf;
    ZeroBits(BitOf(other));
    if n > 0 {
      EnabledAvoid(mask, n - 1, other);
      BitsDiffer(n - 1, other);
      RaisedHas(EnabledBits(mask, n - 1), if mask[n - 1] then BitOf(n - 1) else 0, BitOf(other));
    }
  }

  lemma SwitchCommutes(x: bv16, line: Line, on: bool, y: bv16)
    requires !Has(y, BitOf(line))
    ensures Raised(Switched(x, line, on), y) == Switched(Raised(x, y), line, on)
  {
    hide Has;
    hide Raised;
    hide Cleared;
    hide BitOf;
    RaisedAssociates(x, BitOf(line), y);
    RaisedAssociates(x, y, BitOf(line));
    RaisedCommutes(BitOf(line), y);
    RaisedClearedSwap(x, y, BitOf(line));
  }

  lemma {:induction false} SwitchedBits(mask: LineMask, line: Line, on: bool, n: nat)
    requires n <= LINE_COUNT
    ensures EnabledBits(mask[line := on], n)
         == if n <= line then EnabledBits(mask, n) else Switched(EnabledBits(mask, n), line, on)
  {
    hide Has;
    hide Raised;
    hide Cleared;
    hide BitOf;
    if n > 0 {
      SwitchedBits(mask, line, on, n - 1);
      var x, b := EnabledBits(mask, n - 1), BitOf(line);
      ZeroBits(x);
      if n - 1 == line {
        EnabledAvoid(mask, line, line);
        RaisedTwice(x, b);
        ClearedAbsent(x, b);
      } else if line < n - 1 {
        ZeroBits(b);
        BitsDiffer(n - 1, line);
        SwitchCommutes(x, line, on, if mask[n - 1] then BitOf(n - 1) else 0);
      }
    }
  }

  /** Switching one line moves the register from the one mask to the other. */
  lemma SwitchFollowsMask(mask: LineMask, line: Line, on: bool)
    ensures IeOf(mask[line := on]) == Switched(IeOf(mask), line, on)
  {
    hide Has;
    hide Raised;
    hide Cleared;
    hide BitOf;
    SwitchedBits(mask, line, on, LINE_COUNT);
    ErrBitIsOther(line);
    SwitchCommutes(EnabledBits(mask, LINE_COUNT), line, on, ERR_BIT);
  }

  /** The lines below `n` that differ between the two masks, as the second one has them; the others as on the chip. */
  function Written(chip: LineMask, current: LineMask, requested: LineMask, n: nat): LineMask
    requires n <= LINE_COUNT
  {
    seq(LINE_COUNT, i requires 0 <= i < LINE_COUNT =>
      if i < n && current[i] != requested[i] then requested[i] else chip[i])
  }

  lemma {:induction false} OneByOneFollowsMask(chip: LineMask, current: LineMask, requested: LineMask, n: nat)
    requires n <= LINE_COUNT
    ensures OneByOne(IeOf(chip), current, requested, n) == IeOf(Written(chip, current, requested, n))
  {
    hide IeOf;
    hide Switched;
    if n == 0 {
      assert Written(chip, current, requested, 0) == chip;
    } else {
      OneByOneFollowsMask(chip, current, requested, n - 1);
      var before := Written(chip, current, requested, n - 1);
      SwitchFollowsMask(before, n - 1, requested[n - 1]);
      if current[n - 1] == requested[n - 1] {
        assert Written(chip, current, requested, n) == before;
      } else {
        assert Written(chip, current, requested, n) == before[n - 1 := requested[n - 1]];
      }
    }
  }

  /** A batch moves a register that stands for any mask of lines by exactly the changed lines. */
  lemma BatchFollowsMask(chip: LineMask, current: LineMask, requested: LineMask)
    ensures Raised(Cleared(IeOf(chip), Changes(current, requested, false, LINE_COUNT)),
                   Changes(current, requested, true, LINE_COUNT))
         == IeOf(Written(chip, current, requested, LINE_COUNT))
    ensures Written(current, current, requested, LINE_COUNT) == requested
  {
    hide IeOf;
    hide Raised;
    hide Cleared;
    hide Changes;
    BatchIsOneByOne(IeOf(chip), current, requested, LINE_COUNT);
    OneByOneFollowsMask(chip, current, requested, LINE_COUNT);
  }

  // When the writes of the batch fail

  lemma OwnBit(line: Line)
    requires !DESCRIPTORS[line].isError
    ensures Has(BitOf(line), BitOf(line))
  {
  }

  lemma {:induction false} EnabledHas(mask: LineMask, line: Line, n: nat)
    requires n <= LINE_COUNT && !DESCRIPTORS[line].isError
    ensures Has(EnabledBits(mask, n), BitOf(line)) <==> line < n && mask[line]
  {
    hide Has;
    hide Raised;
    hide BitOf;
    ZeroBits(BitOf(line));
    if n > 0 {
      EnabledHas(mask, line, n - 1);
      RaisedHas(EnabledBits(mask, n - 1), if mask[n - 1] then BitOf(n - 1) else 0, BitOf(line));
      OwnBit(line);
      if n - 1 != line {
        BitsDiffer(n - 1, line);
      }
    }
  }

  lemma IeHas(mask: LineMask, line: Line)
    requires !DESCRIPTORS[line].isError
    ensures Has(IeOf(mask), BitOf(line)) <==> mask[line]
  {
    hide Has;
    hide Raised;
    hide BitOf;
    EnabledHas(mask, line, LINE_COUNT);
    ErrBitIsOther(line);
    RaisedHas(EnabledBits(mask, LINE_COUNT), ERR_BIT, BitOf(line));
  }

  lemma {:induction false} SomeChange(current: LineMask, requested: LineMask, on: bool, n: nat) returns (line: Line)
    requires n <= LINE_COUNT && Changes(current, requested, on, n) != 0
    ensures current[line] != requested[line] && requested[line] == on && !DESCRIPTORS[line].isError
  {
    hide Raised;
    line := 0;
    if n > 0 {
      ZeroBits(0);
      if Changes(current, requested, on, n - 1) != 0 {
        line := SomeChange(current, requested, on, n - 1);
      } else {
        line := n - 1;
      }
    }
  }

  /** A release of the bus lock leaves the register right exactly when every write it needs succeeds. */
  lemma SyncRightIff(c: Chip, disableOk: bool, enableOk: bool)
    requires c.ie == IeOf(c.current)
    ensures Synced(c, disableOk, enableOk).ie == IeOf(c.requested) <==>
              && (disableOk || Changes(c.current, c.requested, false, LINE_COUNT) == 0)
              && (enableOk || Changes(c.current, c.requested, true, LINE_COUNT) == 0)
  {
    hide IeOf;
    hide Changes;
    hide Has;
    hide Raised;
    hide Cleared;
    hide BitOf;
    BatchFollowsMask(c.current, c.current, c.requested);
    var off := Changes(c.current, c.requested, false, LINE_COUNT);
    var on := Changes(c.current, c.requested, true, LINE_COUNT);
    var ie := Synced(c, disableOk, enableOk).ie;
    ZeroBits(c.ie);
    ZeroBits(Cleared(c.ie, off));
    if !disableOk && off != 0 {
      var line := SomeChange(c.current, c.requested, false, LINE_COUNT);
      IeHas(c.current, line);
      IeHas(c.requested, line);
      RaisedHas(c.ie, on, BitOf(line));
    } else if !enableOk && on != 0 {
      var line := SomeChange(c.current, c.requested, true, LINE_COUNT);
      IeHas(c.current, line);
      IeHas(c.requested, line);
      if Has(ie, BitOf(line)) {
        assert disableOk || ie == c.ie;
        if disableOk {
          ClearedHas(c.ie, off, BitOf(line));
        }
      }
    }
  }

  lemma {:induction false} NothingToWrite(mask: LineMask, on: bool, n: nat)
    requires n <= LINE_COUNT
    ensures Changes(mask, mask, on, n) == 0
  {
    hide Raised;
    if n > 0 {
      NothingToWrite(mask, on, n - 1);
      ZeroBits(0);
    }
  }

  /** With nothing to change, a release writes nothing: a write that failed is not repeated. */
  lemma NotRepeated(c: Chip, disableOk: bool, enableOk: bool)
    requires c.current == c.requested
    ensures Synced(c, disableOk, enableOk).ie == c.ie
  {
    hide Raised;
    hide Cleared;
    NothingToWrite(c.current, false, LINE_COUNT);
    NothingToWrite(c.current, true, LINE_COUNT);
    ZeroBits(c.ie);
  }

  /** The requested mask without the lines whose write fails. */
  function Successful(current: LineMask, requested: LineMask, disableOk: bool, enableOk: bool): LineMask {
    seq(LINE_COUNT, i requires 0 <= i < LINE_COUNT =>
      if (if requested[i] then enableOk else disableOk) then requested[i] else current[i])
  }

  lemma {:induction false} SuccessfulChanges(current: LineMask, requested: LineMask,
                                             disableOk: bool, enableOk: bool, on: bool, n: nat)
    requires n <= LINE_COUNT
    ensures Changes(current, Successful(current, requested, disableOk, enableOk), on, n)
         == if (if on then enableOk else disableOk) then Changes(current, requested, on, n) else 0
  {
    hide Raised;
    if n > 0 {
      SuccessfulChanges(current, requested, disableOk, enableOk, on, n - 1);
      ZeroBits(0);
    }
  }

  /** A release whose writes may fail moves the register by exactly the lines whose write succeeded. */
  lemma SyncFollowsMask(c: Chip, chip: LineMask, disableOk: bool, enableOk: bool)
    requires c.ie == IeOf(chip)
    ensures var applied := Successful(c.current, c.requested, disableOk, enableOk);
            Synced(c, disableOk, enableOk).ie == IeOf(Written(chip, c.current, applied, LINE_COUNT))
  {
    hide IeOf;
    hide Raised;
    hide Cleared;
    hide Changes;
    hide Written;
    hide Successful;
    var applied := Successful(c.current, c.requested, disableOk, enableOk);
    SuccessfulChanges(c.current, c.requested, disableOk, enableOk, false, LINE_COUNT);
    SuccessfulChanges(c.current, c.requested, disableOk, enableOk, true, LINE_COUNT);
    BatchFollowsMask(chip, c.current, applied);
    ZeroBits(c.ie);
    ZeroBits(if disableOk then Cleared(c.ie, Changes(c.current, c.requested, false, LINE_COUNT)) else c.ie);
  }

  // Runs

  datatype Event = Ask(request: Request) | Release(disableOk: bool, enableOk: bool)

  function Stepped(c: Chip, e: Event): Chip {
    match e
    case Ask(r) => Asked(c, r)
    case Release(disableOk, enableOk) => Synced(c, disableOk, enableOk)
  }

  function After(c: Chip, es: seq<Event>): Chip {
    if es == [] then c else Stepped(After(c, es[..|es| - 1]), es[|es| - 1])
  }

  predicate WritesSucceed(es: seq<Event>) {
    forall i :: 0 <= i < |es| && es[i].Release? ==> es[i].disableOk && es[i].enableOk
  }

  /** A simpler chip that writes IE at once, on every call. */
  function Immediate(ie: bv16, es: seq<Event>): bv16 {
    if es == [] then ie
    else
      var before := Immediate(ie, es[..|es| - 1]);
      match es[|es| - 1]
      case Ask(Enable(line)) => Switched(before, line, true)
      case Ask(Disable(line)) => Switched(before, line, false)
      case _ => before
  }

  lemma {:induction false} IeFollowsMasks(es: seq<Event>)
    requires WritesSucceed(es)
    ensures After(Initialised(), es).ie == IeOf(After(Initialised(), es).current)
    ensures Immediate(ERR_BIT, es) == IeOf(After(Initialised(), es).requested)
  {
    hide Raised;
    hide Cleared;
    hide Changes;
    hide Switched;
    if es == [] {
      InitialIe();
    } else {
      hide IeOf;
      var es', e := es[..|es| - 1], es[|es| - 1];
      var c := After(Initialised(), es');
      IeFollowsMasks(es');
      match e
      case Ask(Enable(line)) => SwitchFollowsMask(c.requested, line, true);
      case Ask(Disable(line)) => SwitchFollowsMask(c.requested, line, false);
      case Ask(SetWake(_)) =>
      case Release(_, _) => BatchFollowsMask(c.current, c.current, c.requested);
    }
  }

  lemma InitialIe()
    ensures IeOf(NO_LINES) == ERR_BIT
  {
    hide Raised;
    ZeroBits(0);
    ZeroBits(ERR_BIT);
    assert EnabledBits(NO_LINES, 5) == 0 by {
      assert EnabledBits(NO_LINES, 2) == 0;
      assert EnabledBits(NO_LINES, 4) == 0;
    }
  }

  /**
   Whenever the bus lock has just been released, IE is what immediate writes would have made it:
   the ERR bit and the lines enabled last.
   */
  lemma IeIsImmediate(es: seq<Event>)
    requires WritesSucceed(es) && es != [] && es[|es| - 1].Release?
    ensures After(Initialised(), es).ie == Immediate(ERR_BIT, es)
    ensures After(Initialised(), es).ie == IeOf(After(Initialised(), es).requested)
    ensures var mask := After(Initialised(), es).requested;
            After(Initialised(), es).ie == 0x0001 | (if mask[0] then 0x0002 else 0) | (if mask[2] then 0x0010 else 0)
                                                  | (if mask[3] then 0x0020 else 0)
  {
    hide IeOf;
    hide Changes;
    hide Raised;
    hide Cleared;
    IeFollowsMasks(es);
    IeBits(After(Initialised(), es).requested);
  }

  function ChipStepped(chip: LineMask, c: Chip, e: Event): LineMask {
    match e
    case Ask(_) => chip
    case Release(disableOk, enableOk) =>
      Written(chip, c.current, Successful(c.current, c.requested, disableOk, enableOk), LINE_COUNT)
  }

  /** Each line as its last change whose write succeeded left it on the chip. */
  function OnChip(es: seq<Event>): LineMask {
    if es == [] then NO_LINES
    else ChipStepped(OnChip(es[..|es| - 1]), After(Initialised(), es[..|es| - 1]), es[|es| - 1])
  }

  /** Whatever writes fail, IE stands for the lines as their last successful writes left them. */
  lemma {:induction false} IeIsLastWritten(es: seq<Event>)
    ensures After(Initialised(), es).ie == IeOf(OnChip(es))
  {
    hide Raised;
    hide Cleared;
    hide Changes;
    hide Written;
    hide Successful;
    if es == [] {
      InitialIe();
    } else {
      hide IeOf;
      var front, e := es[..|es| - 1], es[|es| - 1];
      IeIsLastWritten(front);
      if e.Release? {
        SyncFollowsMask(After(Initialised(), front), OnChip(front), e.disableOk, e.enableOk);
      }
    }
  }

  lemma {:induction false} AlikeBits(a: LineMask, b: LineMask, n: nat)
    requires n <= LINE_COUNT && forall line: Line :: !DESCRIPTORS[line].isError ==> a[line] == b[line]
    ensures EnabledBits(a, n) == EnabledBits(b, n)
  {
    hide Raised;
    if n > 0 {
      AlikeBits(a, b, n - 1);
    }
  }

  lemma IeAlikeIff(chip: LineMask, current: LineMask)
    ensures IeOf(chip) == IeOf(current) <==>
              forall line: Line :: !DESCRIPTORS[line].isError ==> chip[line] == current[line]
  {
    hide BitOf;
    hide Has;
    hide Raised;
    if IeOf(chip) == IeOf(current) {
      hide IeOf;
      forall line: Line | !DESCRIPTORS[line].isError ensures chip[line] == current[line] {
        IeHas(chip, line);
        IeHas(current, line);
      }
    } else if forall line: Line :: !DESCRIPTORS[line].isError ==> chip[line] == current[line] {
      AlikeBits(chip, current, LINE_COUNT);
    }
  }

  /** The line is asked to change, and a release takes it over. */
  predicate Changing(c: Chip, e: Event, line: Line) {
    e.Release? && c.current[line] != c.requested[line]
  }

  predicate Succeeds(c: Chip, e: Event, line: Line)
    requires e.Release?
  {
    if c.requested[line] then e.enableOk else e.disableOk
  }

  /** How often a change of the line has failed to be written since one was written. */
  function Misses(es: seq<Event>, line: Line): nat {
    if es == [] then 0
    else
      var before, c, e := Misses(es[..|es| - 1], line), After(Initialised(), es[..|es| - 1]), es[|es| - 1];
      if !Changing(c, e, line) then before
      else if Succeeds(c, e, line) then 0
      else before + 1
  }

  /** A change turns the line over in the mask, and if its write succeeds on the chip as well. */
  lemma LineTurns(c: Chip, chip: LineMask, e: Event, line: Line)
    ensures Stepped(c, e).current[line] == if Changing(c, e, line) then !c.current[line] else c.current[line]
    ensures ChipStepped(chip, c, e)[line]
         == if Changing(c, e, line) && Succeeds(c, e, line) then !c.current[line] else chip[line]
  {
    hide Changes;
    hide Raised;
    hide Cleared;
  }

  lemma {:induction false} RightUnlessOdd(es: seq<Event>, line: Line)
    ensures OnChip(es)[line] == After(Initialised(), es).current[line] <==> Misses(es, line) % 2 == 0
  {
    hide Stepped;
    hide ChipStepped;
    if es != [] {
      var front := es[..|es| - 1];
      RightUnlessOdd(front, line);
      LineTurns(After(Initialised(), front), OnChip(front), es[|es| - 1], line);
    }
  }

  /**
   In any run IE is right exactly when each line that has a bit has missed an even number of its
   changes since one was written: every change turns the line over.
   */
  lemma IeRightIff(es: seq<Event>)
    ensures var c := After(Initialised(), es);
            c.ie == IeOf(c.current) <==>
              forall line: Line :: !DESCRIPTORS[line].isError ==> Misses(es, line) % 2 == 0
  {
    hide After;
    hide OnChip;
    hide Misses;
    hide IeOf;
    IeIsLastWritten(es);
    IeAlikeIff(OnChip(es), After(Initialised(), es).current);
    forall line: Line
      ensures OnChip(es)[line] == After(Initialised(), es).current[line] <==> Misses(es, line) % 2 == 0
    {
      RightUnlessOdd(es, line);
    }
  }

  predicate AsksFor(e: Event, line: Line) {
    e == Ask(Enable(line)) || e == Ask(Disable(line))
  }

  lemma LineStays(c: Chip, chip: LineMask, e: Event, line: Line)
    requires c.current[line] == c.requested[line] && !AsksFor(e, line)
    ensures Stepped(c, e).current[line] == Stepped(c, e).requested[line] == c.current[line]
    ensures ChipStepped(chip, c, e)[line] == chip[line]
  {
    hide Changes;
    hide Raised;
    hide Cleared;
  }

  /** A line that nobody asks for again stays on the chip as it is, wrong or right, through every later release. */
  lemma {:induction false} NeverRepeated(es: seq<Event>, more: seq<Event>, line: Line)
    requires After(Initialised(), es).current[line] == After(Initialised(), es).requested[line]
    requires forall k :: 0 <= k < |more| ==> !AsksFor(more[k], line)
    ensures var c, d := After(Initialised(), es), After(Initialised(), es + more);
            d.current[line] == d.requested[line] == c.current[line] && OnChip(es + more)[line] == OnChip(es)[line]
  {
    hide Stepped;
    hide ChipStepped;
    hide AsksFor;
    if more == [] {
      assert es + more == es;
    } else {
      var front, last := more[..|more| - 1], more[|more| - 1];
      NeverRepeated(es, front, line);
      assert (es + more)[..|es + more| - 1] == es + front;
      assert (es + more)[|es + more| - 1] == last;
      LineStays(After(Initialised(), es + front), OnChip(es + front), last, line);
    }
  }

  // Wake calls

  function Net(calls: seq<bool>): int {
    if calls == [] then 0 else Net(calls[..|calls| - 1]) + (if calls[|calls| - 1] then 1 else -1)
  }

  /** The wake calls of the child lines, on less off. */
  function NetAsked(es: seq<Event>): int {
    if es == [] then 0
    else
      NetAsked(es[..|es| - 1])
      + match es[|es| - 1] {
          case Ask(SetWake(on)) => if on then 1 else -1
          case _ => 0
        }
  }

  lemma {:induction false} NetRepeated(calls: seq<bool>, on: bool, n: nat)
    ensures Net(calls + Repeated(on, n)) == Net(calls) + n * (if on then 1 else -1)
  {
    if n == 0 {
      assert calls + Repeated(on, 0) == calls;
    } else {
      NetRepeated(calls, on, n - 1);
      assert (calls + Repeated(on, n))[..|calls| + n - 1] == calls + Repeated(on, n - 1);
    }
  }

  lemma {:induction false} WakeBalance(es: seq<Event>)
    ensures Net(After(Initialised(), es).parent) + After(Initialised(), es).wake == NetAsked(es)
  {
    if es != [] {
      hide IeOf;
      hide Changes;
      WakeBalance(es[..|es| - 1]);
      var c := After(Initialised(), es[..|es| - 1]);
      NetRepeated(c.parent, c.wake >= 0, if c.wake < 0 then -c.wake else c.wake);
    }
  }

  /** Whenever the bus lock has just been released, the parent has been told exactly what the lines asked for. */
  lemma WakeConserved(es: seq<Event>)
    requires es != [] && es[|es| - 1].Release?
    ensures Net(After(Initialised(), es).parent) == NetAsked(es) && After(Initialised(), es).wake == 0
  {
    hide Changes;
    WakeBalance(es);
  }

  // Dispatch

  /** The enabled lines below `n` whose causes were read, in order. */
  function FiredLines(mask: LineMask, ifg: bv16, err: bv16, n: nat): seq<Line>
    requires n <= LINE_COUNT
  {
    if n == 0 then []
    else
      FiredLines(mask, ifg, err, n - 1)
      + (if mask[n - 1] && Fires(n - 1, ifg, err) then [n - 1] else [])
  }

  /** Each enabled line with a cause is handled, once, in ascending order; no other line is. */
  lemma {:induction false} FiredOnce(mask: LineMask, ifg: bv16, err: bv16, n: nat)
    requires n <= LINE_COUNT
    ensures var lines := FiredLines(mask, ifg, err, n);
            && (forall line: Line :: line in lines <==> line < n && mask[line] && Fires(line, ifg, err))
            && (forall j, k :: 0 <= j < k < |lines| ==> lines[j] < lines[k])
  {
    hide Fires;
    if n > 0 {
      FiredOnce(mask, ifg, err, n - 1);
      var lower, lines := FiredLines(mask, ifg, err, n - 1), FiredLines(mask, ifg, err, n);
      forall line: Line ensures line in lines <==> line < n && mask[line] && Fires(line, ifg, err) {
        assert line in lines <==> line in lower || (line == n - 1 && mask[line] && Fires(line, ifg, err));
      }
      forall k | 0 <= k < |lower| ensures lower[k] < n - 1 {
        assert lower[k] in lower;
      }
    }
  }

  // The same in register bits

  /** Which bits of IFG and ERR fire a line, for every line of the chip. */
  lemma FiringBits(ifg: bv16, err: bv16)
    ensures Fires(0, ifg, err) <==> ifg & 0x0002 != 0
    ensures Fires(1, ifg, err) <==> err & 0x0002 != 0
    ensures Fires(2, ifg, err) <==> ifg & 0x0010 != 0
    ensures Fires(3, ifg, err) <==> ifg & 0x0020 != 0
    ensures Fires(4, ifg, err) <==> err & 0x0020 != 0
  {
  }

  lemma BitsOfLines()
    ensures BitOf(0) == 0x0002 && BitOf(1) == 0 && BitOf(2) == 0x0010 && BitOf(3) == 0x0020 && BitOf(4) == 0
  {
  }

  lemma OrOrder(a: bv16, b: bv16, c: bv16, e: bv16)
    ensures Raised(Raised(Raised(a, b), c), e) == e | a | b | c
  {
  }

  /** The IE register that stands for a mask: bit 0, and bits 1, 4 and 5 for the lines 0, 2 and 3. */
  lemma IeBits(mask: LineMask)
    ensures IeOf(mask) == 0x0001 | (if mask[0] then 0x0002 else 0) | (if mask[2] then 0x0010 else 0)
                                 | (if mask[3] then 0x0020 else 0)
  {
    hide Raised;
    hide BitOf;
    BitsOfLines();
    var a: bv16 := if mask[0] then 0x0002 else 0;
    var b: bv16 := if mask[2] then 0x0010 else 0;
    var c: bv16 := if mask[3] then 0x0020 else 0;
    ZeroBits(a);
    ZeroBits(Raised(a, b));
    ZeroBits(Raised(Raised(a, b), c));
    assert EnabledBits(mask, 1) == a;
    assert EnabledBits(mask, 2) == a;
    assert EnabledBits(mask, 3) == Raised(a, b);
    assert EnabledBits(mask, 5) == Raised(Raised(a, b), c);
    OrOrder(a, b, c, ERR_BIT);
  }

  /** Whether the reads that a run of the thread needs succeed: that of ERR only if bit 0 of IFG announces it. */
  predicate ReadsSucceed(ifg: bv16, reading: Reads) {
    reading.ifgOk && (ifg & 0x0001 != 0 ==> reading.errOk)
  }

  /** Which lines a run of the thread handles, in the bits of IFG and ERR. */
  predicate HandledByBits(lines: seq<Line>, mask: LineMask, ifg: bv16, err: bv16, reading: Reads) {
    var read := ReadsSucceed(ifg, reading);
    && (0 in lines <==> read && mask[0] && ifg & 0x0002 != 0)
    && (1 in lines <==> read && mask[1] && ifg & 0x0001 != 0 && err & 0x0002 != 0)
    && (2 in lines <==> read && mask[2] && ifg & 0x0010 != 0)
    && (3 in lines <==> read && mask[3] && ifg & 0x0020 != 0)
    && (4 in lines <==> read && mask[4] && ifg & 0x0001 != 0 && err & 0x0020 != 0)
  }

  lemma AnnouncedBit(ifg: bv16)
    ensures Has(ifg, ERR_BIT) <==> ifg & 0x0001 != 0
  {
  }

  lemma FiredBits(mask: LineMask, ifg: bv16, err: bv16)
    ensures var lines := FiredLines(mask, ifg, err, LINE_COUNT);
            && (0 in lines <==> mask[0] && ifg & 0x0002 != 0)
            && (1 in lines <==> mask[1] && err & 0x0002 != 0)
            && (2 in lines <==> mask[2] && ifg & 0x0010 != 0)
            && (3 in lines <==> mask[3] && ifg & 0x0020 != 0)
            && (4 in lines <==> mask[4] && err & 0x0020 != 0)
  {
    hide Fires;
    hide FiredLines;
    FiringBits(ifg, err);
    FiredOnce(mask, ifg, err, LINE_COUNT);
  }

  lemma NothingSet(bit: bv16)
    ensures 0 as bv16 & bit == 0
  {
  }

  lemma HandledBits(mask: LineMask, ifg: bv16, err: bv16, reading: Reads)
    ensures HandledByBits(LinesHandled(mask, ifg, err, reading), mask, ifg, err, reading)
  {
    hide Has;
    hide FiredLines;
    AnnouncedBit(ifg);
    FiredBits(mask, ifg, if Has(ifg, ERR_BIT) then err else 0);
    NothingSet(0x0002);
    NothingSet(0x0020);
  }

  // The driver's code

  /** How the reads of IFG and ERR end, and whether one that fails has cleared its register. */
  datatype Reads = Reads(ifgOk: bool, errOk: bool, ifgCleared: bool, errCleared: bool)

  /** The lines that one run of the thread handles: none if a read it needs fails. */
  function LinesHandled(mask: LineMask, ifg: bv16, err: bv16, reading: Reads): seq<Line> {
    if !reading.ifgOk then []
    else if !Has(ifg, ERR_BIT) then FiredLines(mask, ifg, 0, LINE_COUNT)
    else if reading.errOk then FiredLines(mask, ifg, err, LINE_COUNT)
    else []
  }

  class IrqChipDriver {
    const current: array<bool>
    const requested: array<bool>
    var wakeCount: int
    var locked: bool
    var ie: bv16
    var ifg: bv16
    var err: bv16
    var parent: seq<bool>

    ghost predicate Valid()
      reads this
    {
      current.Length == LINE_COUNT && requested.Length == LINE_COUNT && current != requested
    }

    ghost function Abs(): Chip
      requires Valid()
      reads this, current, requested
    {
      Chip(current[..], requested[..], wakeCount, ie, parent)
    }

    /** Allocation, with whatever the registers hold at that time. */
    constructor (ie: bv16, ifg: bv16, err: bv16)
      ensures Valid() && fresh(current) && fresh(requested) && !locked
      ensures Abs() == Chip(NO_LINES, NO_LINES, 0, ie, [])
      ensures this.ifg == ifg && this.err == err
    {
      this.ie, this.ifg, this.err := ie, ifg, err;
      wakeCount, locked, parent := 0, false, [];
      current := new bool[LINE_COUNT](_ => false);
      requested := new bool[LINE_COUNT](_ => false);
      new;
      assert current[..] == NO_LINES && requested[..] == NO_LINES;
    }

    /** Brings the registers into a known state; it stops at the first bus access that fails. */
    method Init(clearOk: bool, reading: Reads, setOk: bool) returns (ok: bool)
      requires Valid() && Abs() == Chip(NO_LINES, NO_LINES, 0, ie, [])
      modifies `ie, `ifg, `err
      ensures Valid() && ok == (clearOk && reading.ifgOk && reading.errOk && setOk)
      ensures ok ==> Abs() == Initialised() && ie == 0x0001 && ifg == 0 && err == 0
      ensures !ok ==> Abs() == old(Abs()).(ie := if clearOk then 0 else old(ie))
      ensures ifg == if clearOk && (reading.ifgOk || reading.ifgCleared) then 0 else old(ifg)
      ensures err == if clearOk && reading.ifgOk && (reading.errOk || reading.errCleared) then 0 else old(err)
    {
      if !clearOk {
        return false;
      }
      ie := Cleared(ie, 0xFFFF);
      if reading.ifgOk || reading.ifgCleared {
        ifg := 0;
      }
      if !reading.ifgOk {
        return false;
      }
      if reading.errOk || reading.errCleared {
        err := 0;
      }
      if !reading.errOk {
        return false;
      }
      if !setOk {
        return false;
      }
      ie := Raised(ie, ERR_BIT);
      return true;
    }

    method Lock()
      requires Valid() && !locked
      modifies `locked
      ensures Valid() && locked && Abs() == old(Abs())
    {
      locked := true;
    }

    method EnableLine(line: Line)
      requires Valid() && locked
      modifies requested
      ensures Abs() == Asked(old(Abs()), Enable(line))
    {
      requested[line] := true;
    }

    method DisableLine(line: Line)
      requires Valid() && locked
      modifies requested
      ensures Abs() == Asked(old(Abs()), Disable(line))
    {
      requested[line] := false;
    }

    method SetWakeLine(on: bool)
      requires Valid() && locked
      modifies `wakeCount
      ensures Valid() && Abs() == Asked(old(Abs()), SetWake(on))
    {
      if on {
        wakeCount := wakeCount + 1;
      } else {
        wakeCount := wakeCount - 1;
      }
    }

    /** Takes over the requested mask and collects the bits to be written. */
    method Collect() returns (enableMask: bv16, disableMask: bv16)
      requires Valid()
      modifies current
      ensures current[..] == requested[..]
      ensures enableMask == Changes(old(current[..]), requested[..], true, LINE_COUNT)
      ensures disableMask == Changes(old(current[..]), requested[..], false, LINE_COUNT)
    {
      hide Raised;
      enableMask, disableMask := 0, 0;
      ghost var was: LineMask := current[..];
      for i := 0 to LINE_COUNT
        invariant forall k :: 0 <= k < i ==> current[k] == requested[k]
        invariant forall k :: i <= k < LINE_COUNT ==> current[k] == was[k]
        invariant enableMask == Changes(was, requested[..], true, i)
        invariant disableMask == Changes(was, requested[..], false, i)
      {
        ZeroBits(enableMask);
        ZeroBits(disableMask);
        if current[i] == requested[i] {
          continue;
        }
        current[i] := requested[i];
        if DESCRIPTORS[i].isError {
          continue;
        }
        if current[i] {
          enableMask := Raised(enableMask, DESCRIPTORS[i].mask);
        } else {
          disableMask := Raised(disableMask, DESCRIPTORS[i].mask);
        }
      }
    }

    /** Forwards the counted wake calls to the parent. */
    method ForwardWake()
      requires Valid()
      modifies `parent, `wakeCount
      ensures Valid() && wakeCount == 0 && parent == old(parent) + Forwarded(old(wakeCount))
    {
      if wakeCount < 0 {
        var i := wakeCount;
        while i < 0
          invariant wakeCount <= i <= 0 && wakeCount == old(wakeCount)
          invariant parent == old(parent) + Repeated(false, i - wakeCount)
        {
          parent := parent + [false];
          i := i + 1;
        }
      } else if wakeCount > 0 {
        for i := 0 to wakeCount
          invariant wakeCount == old(wakeCount)
          invariant parent == old(parent) + Repeated(true, i)
        {
          parent := parent + [true];
        }
      }
      wakeCount := 0;
    }

    method SyncUnlock(disableOk: bool, enableOk: bool)
      requires Valid() && locked
      modifies this, current
      ensures Valid() && !locked && ifg == old(ifg) && err == old(err)
      ensures Abs() == Synced(old(Abs()), disableOk, enableOk)
    {
      hide Raised;
      hide Cleared;
      hide Changes;
      ZeroBits(ie);
      var enableMask, disableMask := Collect();
      if disableMask != 0 && disableOk {
        ie := Cleared(ie, disableMask);
      }
      ZeroBits(ie);
      if enableMask != 0 && enableOk {
        ie := Raised(ie, enableMask);
      }
      ForwardWake();
      locked := false;
    }

    /** One run of the interrupt thread: reads IFG, then ERR if announced, and handles the lines. */
    method Thread(reading: Reads) returns (handled: seq<Line>)
      requires Valid()
      modifies `ifg, `err
      ensures Valid() && Abs() == old(Abs())
      ensures ifg == if reading.ifgOk || reading.ifgCleared then 0 else old(ifg)
      ensures var readsErr := reading.ifgOk && Has(old(ifg), ERR_BIT);
              err == if readsErr && (reading.errOk || reading.errCleared) then 0 else old(err)
      ensures handled == LinesHandled(current[..], old(ifg), old(err), reading)
      ensures HandledByBits(handled, current[..], old(ifg), old(err), reading)
    {
      hide Fires;
      hide Has;
      hide HandledByBits;
      HandledBits(current[..], ifg, err, reading);
      handled := [];
      var ifgValue, errValue := ifg, 0;
      if reading.ifgOk || reading.ifgCleared {
        ifg := 0;
      }
      if !reading.ifgOk {
        return;
      }
      if Has(ifgValue, ERR_BIT) {
        errValue := err;
        if reading.errOk || reading.errCleared {
          err := 0;
        }
        if !reading.errOk {
          return;
        }
      }
      for i := 0 to LINE_COUNT
        invariant handled == FiredLines(current[..], ifgValue, errValue, i)
      {
        if current[i] && Fires(i, ifgValue, errValue) {
          handled := handled + [i];
        }
      }
    }
  }
}
