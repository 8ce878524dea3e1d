/** The interrupt thread's code, run without interruption, does what its steps in the protocol do. */
module ThreadSteps {
  import opened IrqLines
  import opened Words
  import opened Protocol
  import IrqChip

  /** The state word after the handlers of the given lines have run in order. */
  function WordAfter(word: OpState, channel: Channel, lines: seq<Line>): OpState {
    if lines == [] then word
    else
      var before := WordAfter(word, channel, lines[..|lines| - 1]);
      var line := lines[|lines| - 1];
      if OwnLine(channel, line) then Handled(before, line == CompleteLine(channel)) else before
  }

  function Lines(n: nat): seq<Event> {
    seq(n, _ => RunLine)
  }

  lemma LinesMore(n: nat)
    ensures Lines(n + 1) == Lines(n) + [RunLine]
  {
  }

  /** Before line `n` of a pass that has read these values. */
  predicate Reached(s: State, t: State, ifg: bv16, err: bv16, n: nat)
    requires n <= LINE_COUNT
  {
    && t.irq == s.irq.(pass := if n == LINE_COUNT then NoPass else Dispatch(n, ifg, err))
    && t.channel == s.channel
    && t.word == WordAfter(s.word, s.channel, IrqChip.FiredLines(s.irq.mask, ifg, err, n))
  }

  lemma OneLine(s: State, t: State, ifg: bv16, err: bv16, n: Line)
    requires Reached(s, t, ifg, err, n)
    ensures Reached(s, LineStep(t), ifg, err, n + 1)
  {
    hide Fires;
    hide CompleteLine;
    hide ErrorLine;
    var lines := IrqChip.FiredLines(s.irq.mask, ifg, err, n);
    var fires := s.irq.mask[n] && Fires(n, ifg, err);
    assert IrqChip.FiredLines(s.irq.mask, ifg, err, n + 1) == lines + (if fires then [n] else []);
    if fires {
      WordAfterOne(s.word, s.channel, lines, n);
    } else {
      assert lines + [] == lines;
    }
  }

  lemma WordAfterOne(word: OpState, channel: Channel, lines: seq<Line>, line: Line)
    ensures WordAfter(word, channel, lines + [line])
         == var before := WordAfter(word, channel, lines);
            if OwnLine(channel, line) then Handled(before, line == CompleteLine(channel)) else before
  {
    assert (lines + [line])[..|lines|] == lines;
  }

  lemma {:induction false} LinesReach(s: State, ifg: bv16, err: bv16, n: nat)
    requires n <= LINE_COUNT && s.irq.pass == Dispatch(0, ifg, err)
    ensures Possible(s, Lines(n)) && Reached(s, Exec(s, Lines(n)), ifg, err, n)
  {
    if n > 0 {
      LinesReach(s, ifg, err, n - 1);
      var t := Exec(s, Lines(n - 1));
      OneLine(s, t, ifg, err, n - 1);
      hide Reached;
      hide LineStep;
      LinesMore(n - 1);
      ExecPrepend(t, RunLine, []);
      assert [RunLine] + [] == [RunLine];
      ExecAppend(s, Lines(n - 1), [RunLine]);
    }
  }

  /** The steps of one run of the thread with these outcomes of its reads. */
  function PassEvents(ifg: bv16, reading: IrqChip.Reads): seq<Event> {
    if !reading.ifgOk then [ReadIfg(false, reading.ifgCleared)]
    else if !Has(ifg, ERR_BIT) then [ReadIfg(true, true)] + Lines(LINE_COUNT)
    else if !reading.errOk then [ReadIfg(true, true)] + [ReadErr(false, reading.errCleared)]
    else [ReadIfg(true, true)] + ([ReadErr(true, true)] + Lines(LINE_COUNT))
  }

  /** What a run of the thread leaves behind. */
  predicate Passed(s: State, t: State, reading: IrqChip.Reads) {
    var readsErr := reading.ifgOk && Has(s.irq.ifg, ERR_BIT);
    && t.irq.pass == NoPass && t.irq.mask == s.irq.mask
    && t.irq.ifg == (if reading.ifgOk || reading.ifgCleared then 0 else s.irq.ifg)
    && t.irq.err == (if readsErr && (reading.errOk || reading.errCleared) then 0 else s.irq.err)
    && t.word == WordAfter(s.word, s.channel, IrqChip.LinesHandled(s.irq.mask, s.irq.ifg, s.irq.err, reading))
  }

  /** A pass whose reads succeed. */
  lemma WholePass(s: State, reading: IrqChip.Reads)
    requires s.irq.pass == NoPass && reading.ifgOk && (Has(s.irq.ifg, ERR_BIT) ==> reading.errOk)
    ensures Possible(s, PassEvents(s.irq.ifg, reading)) && Passed(s, Exec(s, PassEvents(s.irq.ifg, reading)), reading)
  {
    hide Has;
    hide Fires;
    hide Lines;
    var r := Next(s, ReadIfg(true, true));
    if Has(s.irq.ifg, ERR_BIT) {
      var q := Next(r, ReadErr(true, true));
      LinesReach(q, s.irq.ifg, s.irq.err, LINE_COUNT);
      ExecPrepend(r, ReadErr(true, true), Lines(LINE_COUNT));
      ExecPrepend(s, ReadIfg(true, true), [ReadErr(true, true)] + Lines(LINE_COUNT));
    } else {
      LinesReach(r, s.irq.ifg, 0, LINE_COUNT);
      ExecPrepend(s, ReadIfg(true, true), Lines(LINE_COUNT));
    }
  }

  /** A pass that a failing read ends. */
  lemma BrokenPass(s: State, reading: IrqChip.Reads)
    requires s.irq.pass == NoPass && !(reading.ifgOk && (Has(s.irq.ifg, ERR_BIT) ==> reading.errOk))
    ensures Possible(s, PassEvents(s.irq.ifg, reading)) && Passed(s, Exec(s, PassEvents(s.irq.ifg, reading)), reading)
  {
    hide Has;
    hide Fires;
    if reading.ifgOk {
      ExecPrepend(Next(s, ReadIfg(true, true)), ReadErr(false, reading.errCleared), []);
      ExecPrepend(s, ReadIfg(true, true), [ReadErr(false, reading.errCleared)]);
    } else {
      ExecPrepend(s, ReadIfg(false, reading.ifgCleared), []);
    }
  }

  /** Whatever reads fail, the steps of a pass clear the same registers and run the same handlers as the code. */
  lemma PassIsThread(s: State, reading: IrqChip.Reads)
    requires s.irq.pass == NoPass
    ensures Possible(s, PassEvents(s.irq.ifg, reading)) && Passed(s, Exec(s, PassEvents(s.irq.ifg, reading)), reading)
  {
    hide Has;
    hide Passed;
    hide PassEvents;
    if reading.ifgOk && (Has(s.irq.ifg, ERR_BIT) ==> reading.errOk) {
      WholePass(s, reading);
    } else {
      BrokenPass(s, reading);
    }
  }
}
