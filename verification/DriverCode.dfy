/**
 The driver's own code for the handshake, statement by statement, on the shared fields.

 Between any two statements the rest of the system may take steps. A schedule has one `Slot` for
 each statement of a call, and for each look at the mutex or at the word, in the order in which they
 come: the slot says what the others do first, and how a bus access of the statement ends. Every
 method shows that the fields are where the transition system gets by the slots used so far, so that
 the theorems about runs are theorems about this code.
 */
module DriverCode {
  import opened Common
  import opened IrqLines
  import opened Protocol
  import ProtocolSafety

  /** What the others do before a statement of a call, and whether the bus access of the statement succeeds. */
  datatype Slot = Slot(others: seq<Event>, busOk: bool)

  datatype Register = CmdData | FlashAddr | InfoAddr | FlashData | InfoData | ModId

  /** The accesses that start an operation, or act at once. */
  datatype Access =
    | WriteCmdCtrl(cmd: u16)
    | WriteFlashData(value: u16)
    | SetFlashCtrl(bits: bv16)
    | ClearFlashCtrl(bits: bv16)

  const FWCHK_BIT: bv16 := 0x0100
  const LDRCHK_BIT: bv16 := 0x0200
  const WREN_BIT: bv16 := 0x0800
  const SWITCH_BIT: bv16 := 0x4000
  const ESEC_BIT: bv16 := 0x8000

  /** The operation the device starts on an access, if it starts one. */
  function Started(dev: Device, access: Access): Option<DevOp> {
    match access
    case WriteCmdCtrl(cmd) => Some(Execute(cmd, dev.cmdData))
    case WriteFlashData(value) => Some(Program(dev.flashAddr, value))
    case SetFlashCtrl(bits) =>
      if bits == ESEC_BIT then Some(EraseSegment(dev.flashAddr))
      else if bits == SWITCH_BIT then Some(SwitchMode)
      else if bits == FWCHK_BIT then Some(CheckImage(Firmware))
      else if bits == LDRCHK_BIT then Some(CheckImage(Loader))
      else None
    case ClearFlashCtrl(_) => None
  }

  function Written(dev: Device, reg: Register, value: u16): Device {
    match reg
    case CmdData => dev.(cmdData := value)
    case FlashAddr => dev.(flashAddr := value)
    case InfoAddr => dev.(infoAddr := value)
    case _ => dev
  }

  function ReadOf(dev: Device, reg: Register): u16 {
    match reg
    case CmdData => dev.cmdData
    case FlashAddr => dev.flashAddr
    case InfoAddr => dev.infoAddr
    case FlashData => Cell(dev.flash, dev.flashAddr)
    case InfoData => Info(dev.flash, dev.infoAddr)
    case ModId => ModeValue(dev.flash.mode)
  }

  /** The register whose value is the output of a request. */
  function OutputRegister(req: Req): Register {
    match req
    case Gencmd(_, _, _) => CmdData
    case FlashRead(_) => FlashData
    case InfoRead(_) => InfoData
    case _ => ModId
  }

  /** The register write with which the driver prepares `req`. */
  predicate Prepares(req: Req, reg: Register, value: u16) {
    match req
    case Gencmd(_, input, _) => reg == CmdData && value == input
    case FlashRead(a) => reg == FlashAddr && value == a
    case FlashWrite(a, _) => reg == FlashAddr && value == a
    case FlashErase(a) => reg == FlashAddr && value == a
    case InfoRead(a) => reg == InfoAddr && value == a
    case _ => false
  }

  /** The access with which the driver has `req` started. */
  predicate Starts(req: Req, access: Access) {
    match req
    case Gencmd(cmd, _, _) => access == WriteCmdCtrl(cmd)
    case FlashWrite(_, v) => access == WriteFlashData(v)
    case FlashErase(_) => access == SetFlashCtrl(ESEC_BIT)
    case SetMode(_) => access == SetFlashCtrl(SWITCH_BIT)
    case Checksum(m) => access == SetFlashCtrl(if ModeOf(m) == Loader then LDRCHK_BIT else FWCHK_BIT)
    case _ => false
  }

  lemma PreparedIsWritten(dev: Device, req: Req, reg: Register, value: u16)
    requires Prepares(req, reg, value)
    ensures Written(dev, reg, value) == AddressWritten(dev, req)
  {
  }

  lemma StartedIsAccepted(dev: Device, req: Req, access: Access)
    requires Starts(req, access)
    ensures Waits(req) && Started(dev, access) == Some(Accepted(dev, req))
  {
  }

  type Schedule = nat -> Slot

  /** A step that is possible, and that is no step of call `id`. */
  predicate ByOthers(s: State, e: Event, id: nat) {
    e != Acquire(id) && e != Interrupted(id) && !(e.Step? && s.lock == Some(id)) && Enabled(s, e)
  }

  /** The steps of the others that happen, in order: each of those offered that is possible at its turn. */
  function Happening(s: State, others: seq<Event>, id: nat): (es: seq<Event>)
    ensures Possible(s, es)
    decreases |others|
  {
    if others == [] then []
    else if ByOthers(s, others[0], id) then
      var rest := Happening(Next(s, others[0]), others[1..], id);
      assert ([others[0]] + rest)[1..] == rest;
      [others[0]] + rest
    else Happening(s, others[1..], id)
  }

  /** What call `id` does next: it takes the mutex, or its next step as the lock holder. */
  function OwnMove(s: State, id: nat, busOk: bool): Event {
    if s.lock == Some(id) then Step(busOk) else Acquire(id)
  }

  /** The run of one slot: the steps of the others, then the call's own, if it is possible. */
  function Turn(s: State, id: nat, slot: Slot): (es: seq<Event>)
    ensures Possible(s, es)
  {
    var others := Happening(s, slot.others, id);
    var t := Exec(s, others);
    var own := OwnMove(t, id, slot.busOk);
    if Enabled(t, own) then
      ExecPrepend(t, own, []);
      assert [own] + [] == [own];
      ExecAppend(s, others, [own]);
      others + [own]
    else others
  }

  /** The run of the first `n` slots of a call. */
  function Played(start: State, id: nat, sched: Schedule, n: nat): (es: seq<Event>)
    ensures Possible(start, es)
  {
    if n == 0 then []
    else
      var before := Played(start, id, sched, n - 1);
      var turn := Turn(Exec(start, before), id, sched(n - 1));
      ExecAppend(start, before, turn);
      before + turn
  }

  /** The run of a call that has used `n` slots; a call turned back at the mutex ends by being interrupted. */
  function RunOf(start: State, id: nat, sched: Schedule, n: nat, turnedBack: bool): seq<Event> {
    Played(start, id, sched, n) + (if turnedBack then [Interrupted(id)] else [])
  }

  /** Where the others' steps in slot `n` lead. */
  function Disturbed(start: State, id: nat, sched: Schedule, n: nat): State {
    var s := Exec(start, Played(start, id, sched, n));
    Exec(s, Happening(s, sched(n).others, id))
  }

  lemma PlayedMore(start: State, id: nat, sched: Schedule, n: nat)
    ensures var t := Disturbed(start, id, sched, n);
            var own := OwnMove(t, id, sched(n).busOk);
            Exec(start, Played(start, id, sched, n + 1)) == if Enabled(t, own) then Next(t, own) else t
  {
    hide Next;
    hide Enabled;
    hide OwnMove;
    var before := Played(start, id, sched, n);
    var s := Exec(start, before);
    var others := Happening(s, sched(n).others, id);
    var t := Exec(s, others);
    var own := OwnMove(t, id, sched(n).busOk);
    ExecAppend(start, before, Turn(s, id, sched(n)));
    if Enabled(t, own) {
      ExecPrepend(t, own, []);
      assert [own] + [] == [own];
      ExecAppend(s, others, [own]);
    }
  }

  lemma PlayedNothing(start: State, id: nat, sched: Schedule)
    ensures Exec(start, Played(start, id, sched, 0)) == start
  {
  }

  lemma HappeningFirst(s: State, others: seq<Event>, id: nat)
    requires others != []
    ensures var rest := others[1..];
            Exec(s, Happening(s, others, id)) ==
              if ByOthers(s, others[0], id) then Exec(Next(s, others[0]), Happening(Next(s, others[0]), rest, id))
              else Exec(s, Happening(s, rest, id))
  {
    hide Next;
    hide Enabled;
    if ByOthers(s, others[0], id) {
      var rest := Happening(Next(s, others[0]), others[1..], id);
      ExecPrepend(s, others[0], rest);
    }
  }

  /** A step that is offered and possible happens, whoever takes it: only the call's own steps are left out. */
  lemma OfferedHappens(s: State, e: Event, others: seq<Event>, id: nat)
    requires Enabled(s, e) && e != Acquire(id) && e != Interrupted(id) && (e.Step? ==> s.lock != Some(id))
    ensures Happening(s, [e] + others, id) == [e] + Happening(Next(s, e), others, id)
  {
    hide Next;
    hide Enabled;
    assert ([e] + others)[1..] == others;
  }

  class Driver {
    const channel: Channel
    var calls: seq<Call>
    var lock: Option<nat>
    var word: OpState
    var dev: Device
    var irq: Irq
    var log: seq<Entry>
    var dropped: nat
    var busWrites: nat

    constructor (channel: Channel, flash: Flash, cmdData: u16, mask: LineMask)
      ensures this.channel == channel && Initial(Abs()) && Abs().dev.flash == flash && Abs().irq.mask == mask
      ensures Follows(Abs(), [])
    {
      this.channel := channel;
      calls, lock, word, log, dropped, busWrites := [], None, Idle, [], 0, 0;
      dev := Device(cmdData, 0, 0, flash, None);
      irq := Irq(0, 0, mask, NoPass);
    }

    function Abs(): State
      reads this
    {
      State(channel, calls, lock, word, dev, irq, log, dropped, busWrites)
    }

    /** The fields are where `trace` leads from `start`. */
    ghost predicate Follows(start: State, trace: seq<Event>)
      reads this
    {
      Possible(start, trace) && Exec(start, trace) == Abs()
    }

    /** The fields are where the first `n` slots of call `id` lead from `start`. */
    ghost predicate InStep(start: State, id: nat, sched: Schedule, n: nat)
      reads this
    {
      Abs() == Exec(start, Played(start, id, sched, n))
    }

    /** Call `id` holds the mutex and stands at `pc`. */
    predicate At(id: nat, req: Req, pc: Pc)
      reads this
    {
      lock == Some(id) && id < |calls| && calls[id].req == req && calls[id].pc == pc
    }

    /** The call has not taken the mutex, and does not hold it. */
    predicate Outside(id: nat, req: Req)
      reads this
    {
      lock != Some(id) && id < |calls| && calls[id].req == req && calls[id].pc == Entering
    }

    lemma PlainRun(start: State, id: nat, sched: Schedule, n: nat)
      ensures InStep(start, id, sched, n) ==> Follows(start, RunOf(start, id, sched, n, false))
    {
      hide Played;
      assert RunOf(start, id, sched, n, false) == Played(start, id, sched, n);
    }

    lemma InterruptedEnds(start: State, id: nat, sched: Schedule, n: nat, before: State)
      requires before == Exec(start, Played(start, id, sched, n)) && Enabled(before, Interrupted(id))
      requires Abs() == Next(before, Interrupted(id))
      ensures Follows(start, RunOf(start, id, sched, n, true))
    {
      hide Played;
      hide Next;
      hide Enabled;
      ExecPrepend(before, Interrupted(id), []);
      assert [Interrupted(id)] + [] == [Interrupted(id)];
      ExecAppend(start, Played(start, id, sched, n), [Interrupted(id)]);
    }

    // The state word

    method SetState(expected: OpState, next: OpState) returns (rc: Rc)
      modifies `word
      ensures word == CmpXchg(old(word), expected, next)
      ensures rc == if old(word) == expected then Ok else EInternal
    {
      var prev := word;
      if prev == expected {
        word := next;
      }
      if prev != expected {
        return EInternal;
      }
      return Ok;
    }

    method CompleteIrq()
      modifies `word
      ensures Abs() == Next(old(Abs()), Spurious(true))
    {
      var _ := SetState(Pending, Done);
    }

    method ErrorIrq()
      modifies `word
      ensures Abs() == Next(old(Abs()), Spurious(false))
    {
      var _ := SetState(Pending, Failed);
    }

    // The rest of the system

    method Take(e: Event)
      requires Enabled(Abs(), e)
      modifies this
      ensures Abs() == Next(old(Abs()), e)
    {
      if e == Spurious(true) {
        CompleteIrq();
      } else if e == Spurious(false) {
        ErrorIrq();
      } else {
        var t := Next(Abs(), e);
        ChannelStays(Abs(), e);
        hide Next;
        calls, lock, word, dev, irq := t.calls, t.lock, t.word, t.dev, t.irq;
        log, dropped, busWrites := t.log, t.dropped, t.busWrites;
      }
    }

    /** Steps of everyone but the lock holder; those not possible at their turn do not happen. */
    method Interfere(id: nat, req: Req, pc: Pc, sched: Schedule, n: nat, ghost start: State)
      requires InStep(start, id, sched, n) && At(id, req, pc)
      modifies this
      ensures Abs() == Disturbed(start, id, sched, n) && At(id, req, pc)
      ensures calls[id] == old(calls[id]).(slot := calls[id].slot)
    {
      hide Played;
      var others := sched(n).others;
      for i := 0 to |others|
        invariant At(id, req, pc) && calls[id] == old(calls[id]).(slot := calls[id].slot)
        invariant Exec(Abs(), Happening(Abs(), others[i..], id)) == Disturbed(start, id, sched, n)
      {
        assert others[i..][0] == others[i] && others[i..][1..] == others[i + 1..];
        ghost var before := Abs();
        HappeningFirst(before, others[i..], id);
        if ByOthers(Abs(), others[i], id) {
          OthersLeaveHolder(before, others[i], id);
          Take(others[i]);
        }
      }
    }

    /** Steps of everyone else, the lock holder included, while the call is outside. */
    method InterfereOutside(id: nat, req: Req, sched: Schedule, n: nat, ghost start: State)
      requires InStep(start, id, sched, n) && Outside(id, req)
      modifies this
      ensures Abs() == Disturbed(start, id, sched, n) && Outside(id, req)
    {
      hide Played;
      var others := sched(n).others;
      for i := 0 to |others|
        invariant Outside(id, req)
        invariant Exec(Abs(), Happening(Abs(), others[i..], id)) == Disturbed(start, id, sched, n)
      {
        assert others[i..][0] == others[i] && others[i..][1..] == others[i + 1..];
        ghost var before := Abs();
        HappeningFirst(before, others[i..], id);
        if ByOthers(Abs(), others[i], id) {
          OthersLeaveOutside(before, others[i], id);
          Take(others[i]);
        }
      }
    }

    // Bookkeeping: where the call stands, and what it returns

    method Goto(id: nat, pc: Pc)
      requires id < |calls|
      modifies `calls
      ensures calls == old(calls)[id := old(calls)[id].(pc := pc)]
    {
      calls := calls[id := calls[id].(pc := pc)];
    }

    method Leave(id: nat, rc: Rc, out: Option<u16>)
      requires id < |calls|
      modifies `calls
      ensures calls == old(calls)[id := old(calls)[id].(pc := Leaving, rc := rc, out := out)]
    {
      calls := calls[id := calls[id].(pc := Leaving, rc := rc, out := out)];
    }

    predicate Left(id: nat, req: Req, rc: Rc, out: Option<u16>)
      reads this
    {
      At(id, req, Leaving) && calls[id].rc == rc && calls[id].out == out && rc != EIntr
    }

    predicate Over(id: nat, req: Req, rc: Rc, out: Option<u16>)
      reads this
    {
      && lock == None && id < |calls| && calls[id].req == req && calls[id].pc == Returned
      && calls[id].rc == rc && calls[id].out == out
    }

    predicate TurnedBack(id: nat, req: Req)
      reads this
    {
      id < |calls| && calls[id].req == req && calls[id].pc == Returned && calls[id].rc == EIntr
    }

    // Statements

    /**
     Waits for the mutex, through at most `patience` looks at it. A call that has not got it by then is
     turned back if it is `interrupted`, and otherwise still waits.
     */
    method Lock(id: nat, req: Req, interrupted: bool, sched: Schedule, patience: nat)
      returns (rc: Rc, taken: bool, used: nat)
      requires Outside(id, req)
      modifies this
      ensures used <= patience
      ensures taken ==> rc == Ok && At(id, req, FirstPc(req)) && InStep(old(Abs()), id, sched, used)
      ensures !taken ==> used == patience
      ensures !taken && interrupted ==>
                rc == EIntr && TurnedBack(id, req) && Follows(old(Abs()), RunOf(old(Abs()), id, sched, used, true))
      ensures !taken && !interrupted ==>
                rc == Ok && Outside(id, req) && (patience > 0 ==> lock != None) && InStep(old(Abs()), id, sched, used)
    {
      hide Played;
      ghost var start := Abs();
      assert InStep(start, id, sched, 0) by { PlayedNothing(start, id, sched); }
      rc, taken, used := Ok, false, 0;
      while used < patience && !taken
        invariant InStep(start, id, sched, used) && used <= patience
        invariant taken ==> At(id, req, FirstPc(req))
        invariant !taken ==> Outside(id, req) && (used > 0 ==> lock != None)
        decreases patience - used, !taken
      {
        InterfereOutside(id, req, sched, used, start);
        PlayedMore(start, id, sched, used);
        if lock == None {
          lock := Some(id);
          Goto(id, FirstPc(req));
          taken := true;
        }
        used := used + 1;
      }
      if !taken && interrupted {
        ghost var before := Abs();
        calls := calls[id := calls[id].(pc := Returned, rc := EIntr)];
        rc := EIntr;
        InterruptedEnds(start, id, sched, used, before);
      }
    }

    method Unlock(id: nat, req: Req, rc: Rc, out: Option<u16>, sched: Schedule, n: nat, ghost start: State)
      requires InStep(start, id, sched, n) && Left(id, req, rc, out)
      modifies this
      ensures InStep(start, id, sched, n + 1)
      ensures rc != EIntr && Over(id, req, rc, out)
    {
      hide Played;
      hide Disturbed;
      hide Exec;
      Interfere(id, req, Leaving, sched, n, start);
      PlayedMore(start, id, sched, n);
      ghost var before := Abs();
      lock := None;
      Goto(id, Returned);
      assert Abs() == HolderStep(before, sched(n).busOk);
    }

    method Start(id: nat, req: Req, sched: Schedule, n: nat, ghost start: State)
      returns (rc: Rc)
      requires InStep(start, id, sched, n) && At(id, req, Starting)
      modifies this
      ensures InStep(start, id, sched, n + 1)
      ensures rc == Ok ==> At(id, req, if req.SetMode? || req.Checksum? then Triggering else Addressing)
      ensures rc != Ok ==> Left(id, req, rc, None)
      ensures rc == if Disturbed(start, id, sched, n).word == Idle then Ok else EInternal
    {
      hide Played;
      hide Disturbed;
      hide Exec;
      Interfere(id, req, Starting, sched, n, start);
      PlayedMore(start, id, sched, n);
      ghost var before := Abs();
      rc := SetState(Idle, Pending);
      if rc != Ok {
        Leave(id, rc, None);
      } else {
        Goto(id, if req.SetMode? || req.Checksum? then Triggering else Addressing);
      }
      assert Abs() == HolderStep(before, sched(n).busOk);
    }

    method WriteRegister(id: nat, req: Req, reg: Register, value: u16, sched: Schedule, n: nat, ghost start: State)
      returns (rc: Rc)
      requires InStep(start, id, sched, n) && At(id, req, Addressing) && Prepares(req, reg, value)
      modifies this
      ensures InStep(start, id, sched, n + 1)
      ensures rc == Ok ==> At(id, req, if Waits(req) then Triggering else Reading)
      ensures rc != Ok && Waits(req) ==> At(id, req, RollingBack)
      ensures rc != Ok && !Waits(req) ==> Left(id, req, rc, None)
      ensures rc == if sched(n).busOk then Ok else EIo
    {
      hide Played;
      hide Disturbed;
      hide Exec;
      Interfere(id, req, Addressing, sched, n, start);
      PlayedMore(start, id, sched, n);
      ghost var before := Abs();
      PreparedIsWritten(dev, req, reg, value);
      busWrites := busWrites + 1;
      if sched(n).busOk {
        dev := Written(dev, reg, value);
        Goto(id, if Waits(req) then Triggering else Reading);
        rc := Ok;
      } else {
        if Waits(req) {
          Goto(id, RollingBack);
        } else {
          Leave(id, EIo, None);
        }
        rc := EIo;
      }
      assert Abs() == HolderStep(before, sched(n).busOk);
    }

    method Trigger(id: nat, req: Req, access: Access, sched: Schedule, n: nat, ghost start: State)
      returns (rc: Rc)
      requires InStep(start, id, sched, n) && At(id, req, Triggering) && Starts(req, access)
      modifies this
      ensures InStep(start, id, sched, n + 1)
      ensures rc == Ok ==> At(id, req, Waiting)
      ensures rc != Ok ==> At(id, req, RollingBack)
      ensures rc == if sched(n).busOk then Ok else EIo
    {
      hide Played;
      hide Disturbed;
      hide Exec;
      Interfere(id, req, Triggering, sched, n, start);
      PlayedMore(start, id, sched, n);
      ghost var before := Abs();
      StartedIsAccepted(dev, req, access);
      busWrites := busWrites + 1;
      if sched(n).busOk {
        dev := dev.(job := Some(Job(id, Started(dev, access).value)));
        Goto(id, Waiting);
        rc := Ok;
      } else {
        Goto(id, RollingBack);
        rc := EIo;
      }
      assert Abs() == HolderStep(before, sched(n).busOk);
    }

    method RollBack(id: nat, req: Req, sched: Schedule, n: nat, ghost start: State)
      returns (rc: Rc)
      requires InStep(start, id, sched, n) && At(id, req, RollingBack)
      modifies this
      ensures InStep(start, id, sched, n + 1)
      ensures Left(id, req, rc, None)
      ensures rc == if Disturbed(start, id, sched, n).word == Pending then EIo else EInternal
      ensures ProtocolSafety.Safe(old(Abs())) ==>
                (rc == EInternal <==>
                   || old(word) != Pending
                   || ProtocolSafety.AnyHandler(old(Abs()), Happening(old(Abs()), sched(n).others, id)))
    {
      hide Played;
      hide Disturbed;
      hide Exec;
      hide ProtocolSafety.Safe;
      hide ProtocolSafety.AnyHandler;
      hide Happening;
      HandlersInSlot(start, id, sched, n, Abs());
      Interfere(id, req, RollingBack, sched, n, start);
      PlayedMore(start, id, sched, n);
      ghost var before := Abs();
      rc := SetState(Pending, Idle);
      if rc == Ok {
        rc := EIo;
      }
      Leave(id, rc, None);
      assert Abs() == HolderStep(before, sched(n).busOk);
    }

    /** Waits until the word is no longer Pending, through at most `patience` looks at it. */
    method Await(id: nat, req: Req, sched: Schedule, now: nat, patience: nat, ghost start: State)
      returns (woken: bool, later: nat)
      requires InStep(start, id, sched, now) && At(id, req, Waiting)
      modifies this
      ensures InStep(start, id, sched, later) && now <= later <= now + patience
      ensures woken ==> At(id, req, Sampling)
      ensures !woken ==> later == now + patience && At(id, req, Waiting) && (patience > 0 ==> word == Pending)
    {
      hide Played;
      woken, later := false, now;
      while later < now + patience && !woken
        invariant InStep(start, id, sched, later) && now <= later <= now + patience
        invariant woken ==> At(id, req, Sampling)
        invariant !woken ==> At(id, req, Waiting) && (later > now ==> word == Pending)
        decreases now + patience - later, !woken
      {
        Interfere(id, req, Waiting, sched, later, start);
        PlayedMore(start, id, sched, later);
        if word != Pending {
          Goto(id, Sampling);
          woken := true;
        }
        later := later + 1;
      }
    }

    method Sample(id: nat, req: Req, sched: Schedule, n: nat, ghost start: State)
      returns (value: OpState)
      requires InStep(start, id, sched, n) && At(id, req, Sampling)
      modifies this
      ensures InStep(start, id, sched, n + 1)
      ensures At(id, req, Settling(value))
    {
      hide Played;
      hide Disturbed;
      hide Exec;
      Interfere(id, req, Sampling, sched, n, start);
      PlayedMore(start, id, sched, n);
      ghost var before := Abs();
      value := word;
      Goto(id, Settling(value));
      assert Abs() == HolderStep(before, sched(n).busOk);
    }

    predicate WantsOutput(req: Req) {
      req.Gencmd? && req.wantOutput
    }

    /** The three branches after the wait; with an output still to be read the call goes on. */
    method Settle(id: nat, req: Req, value: OpState, sched: Schedule, n: nat, ghost start: State)
      returns (rc: Rc, out: Option<u16>, more: bool)
      requires InStep(start, id, sched, n) && At(id, req, Settling(value))
      modifies this
      ensures InStep(start, id, sched, n + 1)
      ensures more ==> At(id, req, Reading) && WantsOutput(req)
      ensures !more ==> Left(id, req, rc, out)
    {
      hide Played;
      hide Disturbed;
      hide Exec;
      Interfere(id, req, Settling(value), sched, n, start);
      PlayedMore(start, id, sched, n);
      ghost var before := Abs();
      more, out := false, None;
      if value == Done {
        rc := SetState(Done, Idle);
        if rc == Ok {
          if WantsOutput(req) {
            more := true;
          } else {
            out := DoneOut(req);
          }
        }
      } else if value == Failed {
        rc := SetState(Failed, Idle);
        if rc == Ok {
          rc, out := FailureRc(req), FailedOut(req);
        }
      } else {
        rc := ExecutionErrorRc(req);
      }
      if more {
        Goto(id, Reading);
      } else {
        Leave(id, rc, out);
      }
      assert Abs() == HolderStep(before, sched(n).busOk);
    }

    method ReadRegister(id: nat, req: Req, reg: Register, sched: Schedule, n: nat, ghost start: State)
      returns (rc: Rc, out: Option<u16>)
      requires InStep(start, id, sched, n) && At(id, req, Reading) && reg == OutputRegister(req)
      modifies this
      ensures InStep(start, id, sched, n + 1)
      ensures Left(id, req, rc, out)
      ensures rc == (if sched(n).busOk then Ok else EIo) && out.Some? == sched(n).busOk
      ensures out.Some? ==> out.value == ReadOf(Disturbed(start, id, sched, n).dev, reg)
    {
      hide Played;
      hide Disturbed;
      hide Exec;
      Interfere(id, req, Reading, sched, n, start);
      PlayedMore(start, id, sched, n);
      ghost var before := Abs();
      if sched(n).busOk {
        var value := ReadOf(dev, reg);
        if !req.Gencmd? {
          calls := calls[id := calls[id].(slot := Some(|log|))];
          log := log + [Entry(id, req, None, Success(value))];
        }
        rc, out := Ok, Some(value);
      } else {
        rc, out := EIo, None;
      }
      Leave(id, rc, out);
      assert Abs() == HolderStep(before, sched(n).busOk);
    }

    /** Checks the mode asked for, reads the current one, and compares the two. */
    method CompareMode(id: nat, req: Req, mode: nat, sched: Schedule, n: nat, ghost start: State)
      returns (rc: Rc, goesOn: bool)
      requires InStep(start, id, sched, n) && At(id, req, Checking)
      requires req == Req.SetMode(mode) || req == Req.Checksum(mode)
      modifies this
      ensures InStep(start, id, sched, n + 1)
      ensures goesOn ==> At(id, req, Starting)
      ensures !goesOn ==> Left(id, req, rc, None)
    {
      hide Played;
      hide Disturbed;
      hide Exec;
      Interfere(id, req, Checking, sched, n, start);
      PlayedMore(start, id, sched, n);
      ghost var before := Abs();
      rc, goesOn := Ok, false;
      if mode != LOADER_MODE && mode != FIRMWARE_MODE {
        rc := EInval;
      } else if !sched(n).busOk {
        rc := EIo;
      } else if ReadOf(dev, ModId) == mode {
        rc := if req.SetMode? then Ok else EBadMode;
        calls := calls[id := calls[id].(slot := Some(|log|))];
        log := log + [Entry(id, req, None, AlreadyInMode)];
      } else {
        goesOn := true;
      }
      if goesOn {
        Goto(id, Starting);
      } else {
        Leave(id, rc, None);
      }
      assert Abs() == HolderStep(before, sched(n).busOk);
    }

    method CheckAddress(id: nat, addr: u16, sched: Schedule, n: nat, ghost start: State)
      returns (rc: Rc)
      requires InStep(start, id, sched, n) && At(id, Req.InfoRead(addr), Checking)
      modifies this
      ensures InStep(start, id, sched, n + 1)
      ensures rc == Ok ==> At(id, Req.InfoRead(addr), Addressing)
      ensures rc != Ok ==> Left(id, Req.InfoRead(addr), rc, None)
      ensures rc == if addr >= 64 then EInval else Ok
    {
      hide Played;
      hide Disturbed;
      hide Exec;
      Interfere(id, Req.InfoRead(addr), Checking, sched, n, start);
      PlayedMore(start, id, sched, n);
      ghost var before := Abs();
      if addr >= INFO_COUNT {
        rc := EInval;
        Leave(id, rc, None);
      } else {
        rc := Ok;
        Goto(id, Addressing);
      }
      assert Abs() == HolderStep(before, sched(n).busOk);
    }

    method ChangeWriteEnable(id: nat, enable: bool, access: Access, sched: Schedule, n: nat, ghost start: State)
      returns (rc: Rc)
      requires InStep(start, id, sched, n) && At(id, Req.WriteEnable(enable), Triggering)
      requires access == if enable then SetFlashCtrl(WREN_BIT) else ClearFlashCtrl(WREN_BIT)
      modifies this
      ensures InStep(start, id, sched, n + 1)
      ensures Left(id, Req.WriteEnable(enable), rc, None)
      ensures rc == if sched(n).busOk then Ok else EIo
    {
      hide Played;
      hide Disturbed;
      hide Exec;
      Interfere(id, Req.WriteEnable(enable), Triggering, sched, n, start);
      PlayedMore(start, id, sched, n);
      ghost var before := Abs();
      busWrites := busWrites + 1;
      if sched(n).busOk {
        dev := dev.(flash := dev.flash.(wren := access == SetFlashCtrl(WREN_BIT)));
        calls := calls[id := calls[id].(slot := Some(|log|))];
        log := log + [Entry(id, Req.WriteEnable(enable), None, Success(0))];
        rc := Ok;
      } else {
        rc := EIo;
      }
      Leave(id, rc, None);
      assert Abs() == HolderStep(before, sched(n).busOk);
    }

    // Parts that several calls share

    /** After the wait: looks at the word, takes its branch, and reads the output if one is wanted. */
    method Conclude(id: nat, req: Req, sched: Schedule, now: nat, ghost start: State)
      returns (rc: Rc, out: Option<u16>, used: nat)
      requires InStep(start, id, sched, now) && At(id, req, Sampling)
      modifies this
      ensures InStep(start, id, sched, used) && Left(id, req, rc, out)
    {
      hide Played;
      hide InStep;
      hide At;
      hide Left;
      hide Over;
      var value := Sample(id, req, sched, now, start);
      var more;
      rc, out, more := Settle(id, req, value, sched, now + 1, start);
      used := now + 2;
      if more {
        rc, out := ReadRegister(id, req, CmdData, sched, used, start);
        used := used + 1;
      }
    }

    /** From the wait to the end of the call. */
    method AwaitEnd(id: nat, req: Req, sched: Schedule, now: nat, patience: nat, ghost start: State)
      returns (done: bool, rc: Rc, out: Option<u16>, used: nat)
      requires InStep(start, id, sched, now) && At(id, req, Waiting)
      modifies this
      ensures InStep(start, id, sched, used)
      ensures done ==> rc != EIntr && Over(id, req, rc, out)
      ensures !done ==> used == now + patience && At(id, req, Waiting) && (patience > 0 ==> word == Pending)
    {
      hide Played;
      hide InStep;
      hide At;
      hide Left;
      hide Over;
      rc, out := EInternal, None;
      done, used := Await(id, req, sched, now, patience, start);
      if !done {
        return;
      }
      rc, out, used := Conclude(id, req, sched, used, start);
      Unlock(id, req, rc, out, sched, used, start);
      used := used + 1;
    }

    /** After a write that failed. */
    method GiveUp(id: nat, req: Req, sched: Schedule, now: nat, ghost start: State) returns (rc: Rc, used: nat)
      requires InStep(start, id, sched, now) && At(id, req, RollingBack)
      modifies this
      ensures InStep(start, id, sched, used) && used == now + 2 && rc != EIntr && Over(id, req, rc, None)
    {
      rc := RollBack(id, req, sched, now, start);
      Unlock(id, req, rc, None, sched, now + 1, start);
      used := now + 2;
    }

    // The calls

    /**
     What call `id` has done with `used` slots of its schedule, and how it ends: turned back at the
     mutex when its patience was used up, over with its result, or still waiting for the mutex that
     somebody holds or for the word that is Pending.
     */
    ghost predicate Ended(start: State, id: nat, req: Req, interrupted: bool, sched: Schedule, patience: nat,
                          used: nat, done: bool, rc: Rc, out: Option<u16>)
      reads this
    {
      && Follows(start, RunOf(start, id, sched, used, done && rc == EIntr))
      && (done && rc == EIntr ==> interrupted && used == patience && TurnedBack(id, req))
      && (done && rc != EIntr ==> Over(id, req, rc, out))
      && (!done ==>
            || (!interrupted && used == patience && Outside(id, req)
                && (patience > 0 ==> lock != None))
            || (used > patience && At(id, req, Waiting) && (patience > 0 ==> word == Pending)))
    }

    method Gencmd(id: nat, cmd: u16, input: u16, wantOutput: bool, interrupted: bool, sched: Schedule, patience: nat)
      returns (done: bool, rc: Rc, out: Option<u16>, used: nat)
      requires Outside(id, Req.Gencmd(cmd, input, wantOutput))
      modifies this
      ensures Ended(old(Abs()), id, Req.Gencmd(cmd, input, wantOutput), interrupted, sched, patience,
                    used, done, rc, out)
    {
      hide Played;
      hide InStep;
      hide At;
      hide Left;
      hide Over;
      hide Follows;
      ghost var start := Abs();
      var req := Req.Gencmd(cmd, input, wantOutput);
      rc, done, used := Lock(id, req, interrupted, sched, patience);
      out := None;
      if !done {
        done := interrupted;
        PlainRun(start, id, sched, used);
        return;
      }
      rc := Start(id, req, sched, used, start);
      if rc != Ok {
        Unlock(id, req, rc, None, sched, used + 1, start);
        used := used + 2;
        PlainRun(start, id, sched, used);
        return;
      }
      used := used + 1;
      rc := WriteRegister(id, req, CmdData, input, sched, used, start);
      used := used + 1;
      if rc == Ok {
        rc := Trigger(id, req, WriteCmdCtrl(cmd), sched, used, start);
        used := used + 1;
      }
      if rc != Ok {
        rc, used := GiveUp(id, req, sched, used, start);
        PlainRun(start, id, sched, used);
        return;
      }
      done, rc, out, used := AwaitEnd(id, req, sched, used, patience, start);
      PlainRun(start, id, sched, used);
    }

    method FlashWrite(id: nat, address: u16, value: u16, interrupted: bool, sched: Schedule, patience: nat)
      returns (done: bool, rc: Rc, out: Option<u16>, used: nat)
      requires Outside(id, Req.FlashWrite(address, value))
      modifies this
      ensures Ended(old(Abs()), id, Req.FlashWrite(address, value), interrupted, sched, patience, used, done, rc, out)
    {
      hide Played;
      hide InStep;
      hide At;
      hide Left;
      hide Over;
      hide Follows;
      ghost var start := Abs();
      var req := Req.FlashWrite(address, value);
      rc, done, used := Lock(id, req, interrupted, sched, patience);
      out := None;
      if !done {
        done := interrupted;
        PlainRun(start, id, sched, used);
        return;
      }
      rc := Start(id, req, sched, used, start);
      if rc != Ok {
        Unlock(id, req, rc, None, sched, used + 1, start);
        used := used + 2;
        PlainRun(start, id, sched, used);
        return;
      }
      used := used + 1;
      rc := WriteRegister(id, req, FlashAddr, address, sched, used, start);
      used := used + 1;
      if rc == Ok {
        rc := Trigger(id, req, WriteFlashData(value), sched, used, start);
        used := used + 1;
      }
      if rc != Ok {
        rc, used := GiveUp(id, req, sched, used, start);
        PlainRun(start, id, sched, used);
        return;
      }
      done, rc, out, used := AwaitEnd(id, req, sched, used, patience, start);
      PlainRun(start, id, sched, used);
    }

    method FlashErase(id: nat, address: u16, interrupted: bool, sched: Schedule, patience: nat)
      returns (done: bool, rc: Rc, out: Option<u16>, used: nat)
      requires Outside(id, Req.FlashErase(address))
      modifies this
      ensures Ended(old(Abs()), id, Req.FlashErase(address), interrupted, sched, patience, used, done, rc, out)
    {
      hide Played;
      hide InStep;
      hide At;
      hide Left;
      hide Over;
      hide Follows;
      ghost var start := Abs();
      var req := Req.FlashErase(address);
      rc, done, used := Lock(id, req, interrupted, sched, patience);
      out := None;
      if !done {
        done := interrupted;
        PlainRun(start, id, sched, used);
        return;
      }
      rc := Start(id, req, sched, used, start);
      if rc != Ok {
        Unlock(id, req, rc, None, sched, used + 1, start);
        used := used + 2;
        PlainRun(start, id, sched, used);
        return;
      }
      used := used + 1;
      rc := WriteRegister(id, req, FlashAddr, address, sched, used, start);
      used := used + 1;
      if rc == Ok {
        rc := Trigger(id, req, SetFlashCtrl(ESEC_BIT), sched, used, start);
        used := used + 1;
      }
      if rc != Ok {
        rc, used := GiveUp(id, req, sched, used, start);
        PlainRun(start, id, sched, used);
        return;
      }
      done, rc, out, used := AwaitEnd(id, req, sched, used, patience, start);
      PlainRun(start, id, sched, used);
    }

    method SetMode(id: nat, mode: nat, interrupted: bool, sched: Schedule, patience: nat)
      returns (done: bool, rc: Rc, out: Option<u16>, used: nat)
      requires Outside(id, Req.SetMode(mode))
      modifies this
      ensures Ended(old(Abs()), id, Req.SetMode(mode), interrupted, sched, patience, used, done, rc, out)
    {
      hide Played;
      hide InStep;
      hide At;
      hide Left;
      hide Over;
      hide Follows;
      ghost var start := Abs();
      var req := Req.SetMode(mode);
      rc, done, used := Lock(id, req, interrupted, sched, patience);
      out := None;
      if !done {
        done := interrupted;
        PlainRun(start, id, sched, used);
        return;
      }
      var goesOn: bool;
      rc, goesOn := CompareMode(id, req, mode, sched, used, start);
      if !goesOn {
        Unlock(id, req, rc, None, sched, used + 1, start);
        used := used + 2;
        PlainRun(start, id, sched, used);
        return;
      }
      used := used + 1;
      rc := Start(id, req, sched, used, start);
      if rc != Ok {
        Unlock(id, req, rc, None, sched, used + 1, start);
        used := used + 2;
        PlainRun(start, id, sched, used);
        return;
      }
      used := used + 1;
      rc := Trigger(id, req, SetFlashCtrl(SWITCH_BIT), sched, used, start);
      used := used + 1;
      if rc != Ok {
        rc, used := GiveUp(id, req, sched, used, start);
        PlainRun(start, id, sched, used);
        return;
      }
      done, rc, out, used := AwaitEnd(id, req, sched, used, patience, start);
      PlainRun(start, id, sched, used);
    }

    method CheckChecksum(id: nat, mode: nat, interrupted: bool, sched: Schedule, patience: nat)
      returns (done: bool, rc: Rc, out: Option<u16>, used: nat)
      requires Outside(id, Req.Checksum(mode))
      modifies this
      ensures Ended(old(Abs()), id, Req.Checksum(mode), interrupted, sched, patience, used, done, rc, out)
    {
      hide Played;
      hide InStep;
      hide At;
      hide Left;
      hide Over;
      hide Follows;
      ghost var start := Abs();
      var req := Req.Checksum(mode);
      rc, done, used := Lock(id, req, interrupted, sched, patience);
      out := None;
      if !done {
        done := interrupted;
        PlainRun(start, id, sched, used);
        return;
      }
      var goesOn: bool;
      rc, goesOn := CompareMode(id, req, mode, sched, used, start);
      if !goesOn {
        Unlock(id, req, rc, None, sched, used + 1, start);
        used := used + 2;
        PlainRun(start, id, sched, used);
        return;
      }
      used := used + 1;
      rc := Start(id, req, sched, used, start);
      if rc != Ok {
        Unlock(id, req, rc, None, sched, used + 1, start);
        used := used + 2;
        PlainRun(start, id, sched, used);
        return;
      }
      used := used + 1;
      var image := if mode == LOADER_MODE then LDRCHK_BIT else FWCHK_BIT;
      rc := Trigger(id, req, SetFlashCtrl(image), sched, used, start);
      used := used + 1;
      if rc != Ok {
        rc, used := GiveUp(id, req, sched, used, start);
        PlainRun(start, id, sched, used);
        return;
      }
      done, rc, out, used := AwaitEnd(id, req, sched, used, patience, start);
      PlainRun(start, id, sched, used);
    }

    method FlashRead(id: nat, address: u16, interrupted: bool, sched: Schedule, patience: nat)
      returns (done: bool, rc: Rc, out: Option<u16>, used: nat)
      requires Outside(id, Req.FlashRead(address))
      modifies this
      ensures Ended(old(Abs()), id, Req.FlashRead(address), interrupted, sched, patience, used, done, rc, out)
    {
      hide Played;
      hide InStep;
      hide At;
      hide Left;
      hide Over;
      hide Follows;
      ghost var start := Abs();
      var req := Req.FlashRead(address);
      rc, done, used := Lock(id, req, interrupted, sched, patience);
      out := None;
      if !done {
        done := interrupted;
        PlainRun(start, id, sched, used);
        return;
      }
      rc := WriteRegister(id, req, FlashAddr, address, sched, used, start);
      used := used + 1;
      if rc == Ok {
        rc, out := ReadRegister(id, req, FlashData, sched, used, start);
        used := used + 1;
      }
      Unlock(id, req, rc, out, sched, used, start);
      used := used + 1;
      PlainRun(start, id, sched, used);
    }

    method InfoRead(id: nat, address: u16, interrupted: bool, sched: Schedule, patience: nat)
      returns (done: bool, rc: Rc, out: Option<u16>, used: nat)
      requires Outside(id, Req.InfoRead(address))
      modifies this
      ensures Ended(old(Abs()), id, Req.InfoRead(address), interrupted, sched, patience, used, done, rc, out)
    {
      hide Played;
      hide InStep;
      hide At;
      hide Left;
      hide Over;
      hide Follows;
      ghost var start := Abs();
      var req := Req.InfoRead(address);
      rc, done, used := Lock(id, req, interrupted, sched, patience);
      out := None;
      if !done {
        done := interrupted;
        PlainRun(start, id, sched, used);
        return;
      }
      rc := CheckAddress(id, address, sched, used, start);
      used := used + 1;
      if rc == Ok {
        rc := WriteRegister(id, req, InfoAddr, address, sched, used, start);
        used := used + 1;
        if rc == Ok {
          rc, out := ReadRegister(id, req, InfoData, sched, used, start);
          used := used + 1;
        }
      }
      Unlock(id, req, rc, out, sched, used, start);
      used := used + 1;
      PlainRun(start, id, sched, used);
    }

    method WriteEnable(id: nat, enable: bool, interrupted: bool, sched: Schedule, patience: nat)
      returns (done: bool, rc: Rc, out: Option<u16>, used: nat)
      requires Outside(id, Req.WriteEnable(enable))
      modifies this
      ensures Ended(old(Abs()), id, Req.WriteEnable(enable), interrupted, sched, patience, used, done, rc, out)
    {
      hide Played;
      hide InStep;
      hide At;
      hide Left;
      hide Over;
      hide Follows;
      ghost var start := Abs();
      var req := Req.WriteEnable(enable);
      rc, done, used := Lock(id, req, interrupted, sched, patience);
      out := None;
      if !done {
        done := interrupted;
        PlainRun(start, id, sched, used);
        return;
      }
      var access := if enable then SetFlashCtrl(WREN_BIT) else ClearFlashCtrl(WREN_BIT);
      rc := ChangeWriteEnable(id, enable, access, sched, used, start);
      Unlock(id, req, rc, None, sched, used + 1, start);
      used := used + 2;
      PlainRun(start, id, sched, used);
    }

    method GetMode(id: nat, interrupted: bool, sched: Schedule, patience: nat)
      returns (done: bool, rc: Rc, out: Option<u16>, used: nat)
      requires Outside(id, Req.GetMode)
      modifies this
      ensures Ended(old(Abs()), id, Req.GetMode, interrupted, sched, patience, used, done, rc, out)
    {
      hide Played;
      hide InStep;
      hide At;
      hide Left;
      hide Over;
      hide Follows;
      ghost var start := Abs();
      var req := Req.GetMode;
      rc, done, used := Lock(id, req, interrupted, sched, patience);
      out := None;
      if !done {
        done := interrupted;
        PlainRun(start, id, sched, used);
        return;
      }
      rc, out := ReadRegister(id, req, ModId, sched, used, start);
      Unlock(id, req, rc, out, sched, used + 1, start);
      used := used + 2;
      PlainRun(start, id, sched, used);
    }

    // From the start on

    lemma Appended(start: State, trace: seq<Event>, s: State, more: seq<Event>)
      requires Possible(start, trace) && Exec(start, trace) == s && Follows(s, more)
      ensures Follows(start, trace + more)
    {
      ExecAppend(start, trace, more);
    }

    lemma Arrived(start: State, trace: seq<Event>, s: State, req: Req)
      requires Possible(start, trace) && Exec(start, trace) == s && Enabled(s, NewCall(req))
      ensures Possible(start, trace + [NewCall(req)])
      ensures Exec(start, trace + [NewCall(req)]) == Next(s, NewCall(req))
    {
      hide Next;
      hide Enabled;
      ExecPrepend(s, NewCall(req), []);
      assert [NewCall(req)] + [] == [NewCall(req)];
      ExecAppend(start, trace, [NewCall(req)]);
    }

    lemma NobodyYet(start: State, trace: seq<Event>)
      requires Initial(start) && Follows(start, trace)
      ensures lock != Some(|calls|)
    {
      hide Next;
      ProtocolSafety.InitialIsSafe(start);
      ProtocolSafety.RunKeepsSafe(start, trace);
    }

    /** Something else that happens between two calls. */
    method Happen(e: Event, ghost start: State, ghost trace: seq<Event>)
      requires Follows(start, trace) && Enabled(Abs(), e)
      modifies this
      ensures Follows(start, trace + [e])
    {
      ghost var s := Abs();
      Take(e);
      hide Next;
      hide Enabled;
      ExecPrepend(s, e, []);
      assert [e] + [] == [e];
      Appended(start, trace, s, [e]);
    }

    /** A request comes in and is carried out by the method for it. */
    method Serve(req: Req, interrupted: bool, sched: Schedule, patience: nat,
                 ghost start: State, ghost trace: seq<Event>)
      returns (done: bool, rc: Rc, out: Option<u16>, used: nat, ghost longer: seq<Event>)
      requires Initial(start) && Follows(start, trace) && ReqChannel(req) == channel
      modifies this
      ensures Follows(start, longer)
      ensures longer == trace + [NewCall(req)] + RunOf(Next(old(Abs()), NewCall(req)), |old(calls)|, sched, used,
                                                       done && rc == EIntr)
      ensures Ended(Next(old(Abs()), NewCall(req)), |old(calls)|, req, interrupted, sched, patience,
                    used, done, rc, out)
    {
      hide Played;
      hide Over;
      hide TurnedBack;
      hide Exec;
      hide Possible;
      ghost var s := Abs();
      var id := |calls|;
      Arrived(start, trace, s, req);
      NobodyYet(start, trace);
      calls := calls + [Call(req, Entering, Ok, None, None)];
      match req {
        case Gencmd(cmd, input, wantOutput) =>
          done, rc, out, used := Gencmd(id, cmd, input, wantOutput, interrupted, sched, patience);
        case FlashRead(address) => done, rc, out, used := FlashRead(id, address, interrupted, sched, patience);
        case InfoRead(address) => done, rc, out, used := InfoRead(id, address, interrupted, sched, patience);
        case FlashWrite(address, value) =>
          done, rc, out, used := FlashWrite(id, address, value, interrupted, sched, patience);
        case FlashErase(address) => done, rc, out, used := FlashErase(id, address, interrupted, sched, patience);
        case WriteEnable(enable) => done, rc, out, used := WriteEnable(id, enable, interrupted, sched, patience);
        case SetMode(mode) => done, rc, out, used := SetMode(id, mode, interrupted, sched, patience);
        case GetMode => done, rc, out, used := GetMode(id, interrupted, sched, patience);
        case Checksum(mode) => done, rc, out, used := CheckChecksum(id, mode, interrupted, sched, patience);
      }
      ghost var run := RunOf(Next(s, NewCall(req)), id, sched, used, done && rc == EIntr);
      Appended(start, trace + [NewCall(req)], Next(s, NewCall(req)), run);
      longer := trace + [NewCall(req)] + run;
    }
  }

  /** Nobody else lets a call in or turns it back. */
  lemma OthersLeaveOutside(s: State, e: Event, id: nat)
    requires ByOthers(s, e, id)
    requires s.lock != Some(id) && id < |s.calls| && s.calls[id].pc == Entering
    ensures var t := Next(s, e);
            t.lock != Some(id) && id < |t.calls| && t.calls[id].req == s.calls[id].req && t.calls[id].pc == Entering
  {
    if e.Step? {
      match Holder(s).pc
      case Checking =>
      case Starting =>
      case Addressing =>
      case Triggering =>
      case Settling(_) =>
      case Reading =>
      case _ =>
    }
  }

  /** Only its own steps move the lock holder. */
  lemma OthersLeaveHolder(s: State, e: Event, id: nat)
    requires ByOthers(s, e, id) && s.lock == Some(id) && id < |s.calls|
    ensures var t := Next(s, e);
            t.lock == s.lock && id < |t.calls| && t.calls[id] == s.calls[id].(slot := t.calls[id].slot)
  {
  }

  /** While the holder is to roll back, the others' steps leave it in its window. */
  lemma {:induction false} OthersLeaveWindow(s: State, others: seq<Event>, id: nat)
    requires s.lock == Some(id) && id < |s.calls| && s.calls[id].pc == RollingBack && Waits(s.calls[id].req)
    ensures ProtocolSafety.StaysInWindow(s, Happening(s, others, id))
    decreases |others|
  {
    hide Next;
    hide Enabled;
    if others != [] {
      if ByOthers(s, others[0], id) {
        OthersLeaveHolder(s, others[0], id);
        OthersLeaveWindow(Next(s, others[0]), others[1..], id);
      } else {
        OthersLeaveWindow(s, others[1..], id);
      }
    }
  }

  /** Before a rollback the word stays Pending exactly if no handler runs. */
  lemma HandlersInWindow(s: State, others: seq<Event>, id: nat)
    requires ProtocolSafety.Safe(s) && s.lock == Some(id) && id < |s.calls| && s.calls[id].pc == RollingBack
    ensures Exec(s, Happening(s, others, id)).word == Pending
       <==> s.word == Pending && !ProtocolSafety.AnyHandler(s, Happening(s, others, id))
  {
    ProtocolSafety.HolderInside(s);
    hide ProtocolSafety.Safe;
    hide Next;
    hide Happening;
    OthersLeaveWindow(s, others, id);
    ProtocolSafety.WindowRace(s, Happening(s, others, id));
  }

  lemma HandlersInSlot(start: State, id: nat, sched: Schedule, n: nat, s: State)
    requires s == Exec(start, Played(start, id, sched, n))
    requires s.lock == Some(id) && id < |s.calls| && s.calls[id].pc == RollingBack
    ensures ProtocolSafety.Safe(s) ==>
              (Disturbed(start, id, sched, n).word == Pending
               <==> s.word == Pending && !ProtocolSafety.AnyHandler(s, Happening(s, sched(n).others, id)))
  {
    hide Played;
    hide Happening;
    if ProtocolSafety.Safe(s) {
      HandlersInWindow(s, sched(n).others, id);
    }
  }

  /** The register writes that start an operation or change the write-enable flag, in the bits of the register. */
  lemma ControlBits(req: Req, access: Access)
    ensures access.SetFlashCtrl? ==>
              (Starts(req, access) <==>
                 || (req.FlashErase? && access.bits == 0x8000)
                 || (req.SetMode? && access.bits == 0x4000)
                 || (req.Checksum? && access.bits == if req.mode == 1 then 0x0200 else 0x0100))
    ensures WREN_BIT == 0x0800
  {
  }
}
