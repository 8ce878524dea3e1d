/**
 What the memory holds, said of its raw cells, and what the reads of a run return, said of the history
 of the device alone.
 */
module ProtocolMemory {
  import opened Common
  import opened Protocol
  import opened ProtocolSafety
  import opened ProtocolMatching

  // Raw cells

  /** The content of a cell or of an information cell: 0xFFFF where nothing is stored. */
  function Content(cells: map<u16, u16>, addr: u16): u16 {
    if addr in cells then cells[addr] else 0xFFFF
  }

  /** Both addresses lie in one segment of `size` cells; a size of zero means single cells. */
  predicate InSegment(size: nat, a: u16, b: u16) {
    a == b || (size > 0 && a / size == b / size)
  }

  lemma CellIsContent(f: Flash, a: u16)
    ensures Cell(f, a) == Content(f.cells, a) && Info(f, a) == Content(f.info, a)
  {
  }

  /** A written cell holds the value, and every other cell what it held. */
  lemma ProgramWrites(f: Flash, a: u16, v: u16, b: u16)
    ensures Content(Performed(f, Program(a, v)).cells, b) == if b == a then v else Content(f.cells, b)
    ensures Cell(Performed(f, Program(a, v)), b) == if b == a then v else Cell(f, b)
  {
  }

  /** An erased cell reads 0xFFFF exactly if it lies in the segment or read so before; the others keep their value. */
  lemma EraseClears(f: Flash, a: u16, b: u16)
    ensures Cell(Performed(f, EraseSegment(a)), b) == 0xFFFF
       <==> InSegment(f.segment, a, b) || Content(f.cells, b) == 0xFFFF
    ensures !InSegment(f.segment, a, b) ==> Cell(Performed(f, EraseSegment(a)), b) == Content(f.cells, b)
  {
  }

  /** No operation changes the information cells or the size of a segment. */
  lemma InfoStays(f: Flash, op: DevOp, a: u16)
    ensures Info(Performed(f, op), a) == Content(f.info, a) && Performed(f, op).segment == f.segment
  {
  }

  // The history

  /** The content of a cell after a history: what the last successful write or erase of it left there. */
  function Stored(cells: map<u16, u16>, segment: nat, log: seq<Entry>, a: u16): u16 {
    if log == [] then Content(cells, a)
    else
      var e, before := log[|log| - 1], Stored(cells, segment, log[..|log| - 1], a);
      if !e.resp.Success? then before
      else
        match e.req
        case FlashWrite(b, v) => if b == a then v else before
        case FlashErase(b) => if InSegment(segment, b, a) then 0xFFFF else before
        case _ => before
  }

  /** The number of the mode after a history: the last mode switched to. */
  function ModeAfter(initial: nat, log: seq<Entry>): nat {
    if log == [] then initial
    else
      var e, before := log[|log| - 1], ModeAfter(initial, log[..|log| - 1]);
      if e.resp.Success? && e.req.SetMode? then e.req.mode else before
  }

  /** The write-enable flag after a history. */
  predicate EnabledAfter(initial: bool, log: seq<Entry>) {
    if log == [] then initial
    else
      var e, before := log[|log| - 1], EnabledAfter(initial, log[..|log| - 1]);
      if e.resp.Success? && e.req.WriteEnable? then e.req.enable else before
  }

  function ModeNumber(mode: Mode): nat {
    if mode.Loader? then 1 else 2
  }

  /** One atomic operation, on raw cells. */
  lemma AtomicContent(f: Flash, g: Flash, req: Req, resp: Resp, a: u16)
    requires Atomic(f, req, resp) == Some(g)
    ensures g.segment == f.segment && g.info == f.info
    ensures Content(g.cells, a) == match req
                                   case FlashWrite(b, v) => if resp.Success? && b == a then v else Content(f.cells, a)
                                   case FlashErase(b) =>
                                     if resp.Success? && InSegment(f.segment, b, a) then 0xFFFF else Content(f.cells, a)
                                   case _ => Content(f.cells, a)
    ensures ModeNumber(g.mode) == if resp.Success? && req.SetMode? then req.mode else ModeNumber(f.mode)
    ensures g.wren == if resp.Success? && req.WriteEnable? then req.enable else f.wren
  {
  }

  /** The memory that the history leaves holds what the history says. */
  lemma {:induction false} ReplayContent(f: Flash, log: seq<Entry>, g: Flash, a: u16)
    requires Replay(f, log) == Some(g)
    ensures g.segment == f.segment && g.info == f.info
    ensures Content(g.cells, a) == Stored(f.cells, f.segment, log, a)
    ensures ModeNumber(g.mode) == ModeAfter(ModeNumber(f.mode), log)
    ensures g.wren == EnabledAfter(f.wren, log)
  {
    hide Atomic;
    hide Content;
    hide InSegment;
    hide ModeNumber;
    if log != [] {
      var e, front := log[|log| - 1], log[..|log| - 1];
      var mid := Replay(f, front).value;
      ReplayContent(f, front, mid, a);
      AtomicContent(mid, g, e.req, e.resp, a);
    }
  }

  lemma {:induction false} ReplayAt(f: Flash, log: seq<Entry>, k: nat)
    requires Replay(f, log).Some? && k < |log|
    ensures Replay(f, log[..k]).Some?
    ensures Atomic(Replay(f, log[..k]).value, log[k].req, log[k].resp).Some?
    decreases |log|
  {
    hide Atomic;
    var front := log[..|log| - 1];
    if k < |front| {
      ReplayAt(f, front, k);
      assert front[..k] == log[..k];
    } else {
      assert front == log[..k];
    }
  }

  /** What a read or a check of the history was answered with, on raw cells. */
  lemma EntryFits(f: Flash, log: seq<Entry>, k: nat)
    requires Replay(f, log).Some? && k < |log|
    ensures var e, before := log[k], log[..k];
            && (e.req.FlashRead? ==> e.resp == Success(Stored(f.cells, f.segment, before, e.req.addr)))
            && (e.req.InfoRead? ==> e.req.addr < 64 && e.resp == Success(Content(f.info, e.req.addr)))
            && (e.req.GetMode? ==> e.resp.Success? && e.resp.value == ModeAfter(ModeNumber(f.mode), before))
            && (e.req.SetMode? || e.req.Checksum? ==>
                  (e.req.mode == 1 || e.req.mode == 2)
                  && (e.resp.AlreadyInMode? <==> ModeAfter(ModeNumber(f.mode), before) == e.req.mode))
            && ((e.req.FlashWrite? || e.req.FlashErase?) && e.resp.Success? ==> EnabledAfter(f.wren, before))
  {
    hide Replay;
    ReplayAt(f, log, k);
    var g, e := Replay(f, log[..k]).value, log[k];
    ReplayContent(f, log[..k], g, match e.req case FlashRead(a) => a case _ => 0);
  }

  // What calls return

  /**
   In every run with interrupts from the device only, a flash read that returned Ok returned what the last
   successful write or erase of its address before it left there, an information read the stored value,
   and a read of the mode the number of the mode last switched to.
   */
  lemma ReadsReturnStored(s: State, es: seq<Event>, id: nat) returns (k: nat)
    requires Initial(s) && Possible(s, es) && Genuine(es)
    requires id < |Exec(s, es).calls| && Exec(s, es).calls[id].pc == Returned && Exec(s, es).calls[id].rc == Ok
    ensures var c, log, f := Exec(s, es).calls[id], Exec(s, es).log, s.dev.flash;
            && k < |log| && log[k].id == id && log[k].req == c.req
            && (c.req.FlashRead? ==> c.out == Some(Stored(f.cells, f.segment, log[..k], c.req.addr)))
            && (c.req.InfoRead? ==> c.out == Some(Content(f.info, c.req.addr)))
            && (c.req.GetMode? ==> c.out.Some? && c.out.value == ModeAfter(ModeNumber(f.mode), log[..k]))
            && (c.req.FlashWrite? || c.req.FlashErase? ==>
                  log[k].resp.Success? && EnabledAfter(f.wren, log[..k]))
            && (c.req.SetMode? ==> ModeAfter(ModeNumber(f.mode), log[..k + 1]) == c.req.mode)
  {
    hide Next;
    hide Replay;
    hide Safe;
    hide Stored;
    hide EnabledAfter;
    var t := Exec(s, es);
    InitialIsMatched(s);
    RunKeepsMatched(s.dev.flash, s, es);
    assert ResultFits(t.calls[id], t.log);
    k := t.calls[id].slot.value;
    assert t.log[k].id == id;
    EntryFits(s.dev.flash, t.log, k);
    assert t.log[..k + 1][..k] == t.log[..k];
  }

  // A value that is written is read back

  /** Nobody is inside, the device rests, nothing is latched, and both lines are on. */
  predicate Resting(s: State) {
    && s.channel == FlashChannel && s.lock == None && s.word == Idle && s.dev.job == None
    && s.irq.ifg == 0 && s.irq.err == 0 && s.irq.pass == NoPass && s.irq.mask[0] && s.irq.mask[1]
  }

  function WriteEvents(id: nat, a: u16, v: u16): seq<Event> {
    [NewCall(FlashWrite(a, v)), Acquire(id), Step(true)]
  }

  const TOLD: seq<Event> := [Step(true), Step(true), Finish(true, 0)]

  const PASS: seq<Event> := [ReadIfg(true, true), RunLine, RunLine, RunLine, RunLine, RunLine]

  const ENDING: seq<Event> := [Step(true), Step(true), Step(true), Step(true)]

  function ReadEvents(id: nat, a: u16): seq<Event> {
    [NewCall(FlashRead(a)), Acquire(id), Step(true)]
  }

  const READING: seq<Event> := [Step(true), Step(true)]

  /** Runs the events given, one after the other. */
  predicate Leads(s: State, es: seq<Event>, t: State) {
    Possible(s, es) && Exec(s, es) == t
  }

  lemma LeadsFirst(s: State, e: Event, es: seq<Event>, t: State)
    requires Enabled(s, e) && Leads(Next(s, e), es, t)
    ensures Leads(s, [e] + es, t)
  {
    hide Next;
    hide Enabled;
    ExecPrepend(s, e, es);
  }

  lemma LeadsOn(s: State, a: seq<Event>, t: State, b: seq<Event>, u: State)
    requires Leads(s, a, t) && Leads(t, b, u)
    ensures Leads(s, a + b, u)
  {
    ExecAppend(s, a, b);
  }

  /** The one call inside is a flash write that stands at `pc`; the rest of the state is as in `s`. */
  predicate Writing(s: State, t: State, a: u16, v: u16, pc: Pc) {
    && t.lock.Some? && |t.calls| == |s.calls| + 1 && t.lock.value == |s.calls|
    && t.calls[..|s.calls|] == s.calls && Holder(t).pc == pc && Holder(t).req == FlashWrite(a, v)
    && t.channel == s.channel && t.irq.mask == s.irq.mask
  }

  lemma WriteStarts(s: State, a: u16, v: u16) returns (t: State)
    requires Resting(s)
    ensures Leads(s, WriteEvents(|s.calls|, a, v), t)
    ensures Writing(s, t, a, v, Addressing) && t.word == Pending && t.dev == s.dev && t.irq == s.irq
  {
    var id := |s.calls|;
    var s1 := Next(s, NewCall(FlashWrite(a, v)));
    var s2 := Next(s1, Acquire(id));
    t := Next(s2, Step(true));
    assert Enabled(s, NewCall(FlashWrite(a, v))) && Enabled(s1, Acquire(id)) && Enabled(s2, Step(true));
    LeadsFirst(s2, Step(true), [], t);
    LeadsFirst(s1, Acquire(id), [Step(true)], t);
    LeadsFirst(s, NewCall(FlashWrite(a, v)), [Acquire(id), Step(true)], t);
  }

  lemma WriteAnswered(s: State, r: State, a: u16, v: u16) returns (t: State)
    requires Resting(s) && s.dev.flash.wren
    requires Writing(s, r, a, v, Addressing) && r.word == Pending && r.dev == s.dev && r.irq == s.irq
    ensures Leads(r, TOLD, t)
    ensures Writing(s, t, a, v, Waiting) && t.word == Pending && t.dev.job == None
    ensures t.irq == s.irq.(ifg := 0x0002) && t.dev.flash == s.dev.flash.(cells := s.dev.flash.cells[a := v])
  {
    var s1 := Next(r, Step(true));
    var s2 := Next(s1, Step(true));
    t := Next(s2, Finish(true, 0));
    assert Enabled(r, Step(true)) && Enabled(s1, Step(true)) && Enabled(s2, Finish(true, 0));
    LeadsFirst(s2, Finish(true, 0), [], t);
    LeadsFirst(s1, Step(true), [Finish(true, 0)], t);
    LeadsFirst(r, Step(true), [Step(true), Finish(true, 0)], t);
  }

  /** The other lines of such a pass do nothing. */
  lemma {:induction false} RestOfPass(s: State, n: nat)
    requires 1 <= n < 5 && s.irq.pass == Dispatch(n, 0x0002, 0) && s.channel == FlashChannel
    ensures Leads(s, PASS[n + 1..], s.(irq := s.irq.(pass := NoPass)))
    decreases 5 - n
  {
    var r := LineStep(s);
    assert r == s.(irq := s.irq.(pass := if n == 4 then NoPass else Dispatch(n + 1, 0x0002, 0)));
    if n < 4 {
      RestOfPass(r, n + 1);
    }
    LeadsFirst(s, RunLine, PASS[n + 2..], s.(irq := s.irq.(pass := NoPass)));
    assert PASS[n + 1..] == [RunLine] + PASS[n + 2..];
  }

  lemma WriteHandled(s: State, r: State, a: u16, v: u16) returns (t: State)
    requires Resting(s) && Writing(s, r, a, v, Waiting) && r.word == Pending && r.irq == s.irq.(ifg := 0x0002)
    ensures Leads(r, PASS, t)
    ensures t == r.(word := Done, irq := s.irq)
  {
    var s1 := Next(r, ReadIfg(true, true));
    var s2 := Next(s1, RunLine);
    assert Enabled(r, ReadIfg(true, true)) && Enabled(s1, RunLine);
    assert s2 == r.(word := Done, irq := s.irq.(pass := Dispatch(1, 0x0002, 0)));
    t := s2.(irq := s2.irq.(pass := NoPass));
    RestOfPass(s2, 1);
    LeadsFirst(s1, RunLine, PASS[2..], t);
    LeadsFirst(r, ReadIfg(true, true), PASS[1..], t);
    assert PASS[1..] == [RunLine] + PASS[2..] && PASS == [ReadIfg(true, true)] + PASS[1..];
  }

  lemma WriteEnds(s: State, r: State, a: u16, v: u16) returns (t: State)
    requires Resting(s) && Writing(s, r, a, v, Waiting) && r.word == Done && r.irq == s.irq && r.dev.job == None
    ensures Leads(r, ENDING, t)
    ensures Resting(t) && t.dev == r.dev && |t.calls| == |s.calls| + 1
    ensures t.calls[|s.calls|].pc == Returned && t.calls[|s.calls|].rc == Ok
  {
    var s1 := Next(r, Step(true));
    var s2 := Next(s1, Step(true));
    var s3 := Next(s2, Step(true));
    t := Next(s3, Step(true));
    assert Enabled(r, Step(true)) && Enabled(s1, Step(true)) && Enabled(s2, Step(true)) && Enabled(s3, Step(true));
    hide Next;
    hide Enabled;
    LeadsFirst(s3, Step(true), [], t);
    LeadsFirst(s2, Step(true), [Step(true)], t);
    LeadsFirst(s1, Step(true), [Step(true), Step(true)], t);
    LeadsFirst(r, Step(true), [Step(true), Step(true), Step(true)], t);
  }

  /** A flash read has written its address and is about to read the data. */
  predicate ReadingAt(s: State, t: State, a: u16) {
    && t.lock == Some(|s.calls|) && |t.calls| == |s.calls| + 1 && t.calls[..|s.calls|] == s.calls
    && Holder(t).pc == Reading && Holder(t).req == FlashRead(a)
    && t.dev.flash == s.dev.flash && t.dev.flashAddr == a
  }

  lemma ReadStarts(s: State, a: u16) returns (t: State)
    requires Resting(s)
    ensures Leads(s, ReadEvents(|s.calls|, a), t) && ReadingAt(s, t, a)
  {
    var id := |s.calls|;
    var s1 := Next(s, NewCall(FlashRead(a)));
    var s2 := Next(s1, Acquire(id));
    t := Next(s2, Step(true));
    assert Enabled(s, NewCall(FlashRead(a))) && Enabled(s1, Acquire(id)) && Enabled(s2, Step(true));
    LeadsFirst(s2, Step(true), [], t);
    LeadsFirst(s1, Acquire(id), [Step(true)], t);
    LeadsFirst(s, NewCall(FlashRead(a)), [Acquire(id), Step(true)], t);
  }

  lemma ReadEnds(s: State, r: State, a: u16) returns (t: State)
    requires ReadingAt(s, r, a)
    ensures Leads(r, READING, t) && |t.calls| == |s.calls| + 1 && t.calls[..|s.calls|] == s.calls
    ensures t.calls[|s.calls|].pc == Returned && t.calls[|s.calls|].rc == Ok
    ensures t.calls[|s.calls|].out == Some(Content(s.dev.flash.cells, a))
  {
    var s1 := Next(r, Step(true));
    t := Next(s1, Step(true));
    assert Enabled(r, Step(true)) && Enabled(s1, Step(true));
    LeadsFirst(s1, Step(true), [], t);
    LeadsFirst(r, Step(true), [Step(true)], t);
  }

  /**
   From any resting state with writing enabled there is a run in which a write of any value to any
   address returns Ok, and then a read of that address returns the value.
   */
  lemma WrittenIsReadBack(s: State, a: u16, v: u16) returns (es: seq<Event>)
    requires Resting(s) && s.dev.flash.wren
    ensures Possible(s, es) && Genuine(es) && |Exec(s, es).calls| == |s.calls| + 2
    ensures var write, read := Exec(s, es).calls[|s.calls|], Exec(s, es).calls[|s.calls| + 1];
            && write.pc == Returned && write.rc == Ok
            && read.pc == Returned && read.rc == Ok && read.out == Some(v)
  {
    hide Next;
    hide Enabled;
    hide Leads;
    hide Resting;
    hide Writing;
    hide ReadingAt;
    var n := |s.calls|;
    var s1 := WriteStarts(s, a, v);
    var s2 := WriteAnswered(s, s1, a, v);
    var s3 := WriteHandled(s, s2, a, v);
    WritingStays(s, s2, s3, a, v);
    var s4 := WriteEnds(s, s3, a, v);
    var s5 := ReadStarts(s4, a);
    var s6 := ReadEnds(s4, s5, a);
    LeadsOn(s, WriteEvents(n, a, v), s1, TOLD, s2);
    LeadsOn(s, WriteEvents(n, a, v) + TOLD, s2, PASS, s3);
    LeadsOn(s, WriteEvents(n, a, v) + TOLD + PASS, s3, ENDING, s4);
    LeadsOn(s, WriteEvents(n, a, v) + TOLD + PASS + ENDING, s4, ReadEvents(n + 1, a), s5);
    LeadsOn(s, WriteEvents(n, a, v) + TOLD + PASS + ENDING + ReadEvents(n + 1, a), s5, READING, s6);
    es := WriteEvents(n, a, v) + TOLD + PASS + ENDING + ReadEvents(n + 1, a) + READING;
    LeadsIs(s, es, s6);
    assert s6.calls[n] == s6.calls[..n + 1][n];
  }

  lemma WritingStays(s: State, r: State, t: State, a: u16, v: u16)
    requires Writing(s, r, a, v, Waiting) && t.calls == r.calls && t.lock == r.lock && t.channel == r.channel
    requires t.irq.mask == s.irq.mask
    ensures Writing(s, t, a, v, Waiting)
  {
  }

  lemma LeadsIs(s: State, es: seq<Event>, t: State)
    requires Leads(s, es, t)
    ensures Possible(s, es) && Exec(s, es) == t
  {
  }
}
