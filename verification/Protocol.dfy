/**
 The request/interrupt handshake as a transition system.

 One `State` is one instance of the handshake: the calls made so far, the mutex, the atomic
 state word, the device behind the bus, and the interrupt thread that reads IFG and ERR. The
 general-command interface and the flash interface are the two instances, told apart by
 `channel`. Each `Event` is one atomic step of a caller, the device or the interrupt thread,
 with the outcome of a bus access given in the event.
 */
module Protocol {
  import opened Common
  import opened IrqLines
  import opened Words

  datatype OpState = Idle | Pending | Done | Failed

  datatype Channel = GencmdChannel | FlashChannel

  datatype Mode = Firmware | Loader

  datatype Req =
    | Gencmd(cmd: u16, input: u16, wantOutput: bool)
    | FlashRead(addr: u16)
    | InfoRead(addr: u16)
    | FlashWrite(addr: u16, value: u16)
    | FlashErase(addr: u16)
    | WriteEnable(enable: bool)
    | SetMode(mode: nat)
    | GetMode
    | Checksum(mode: nat)

  datatype Rc = Ok | EIntr | EInval | EIo | EInternal | EGencmdFail | EFlashAccess | EOpFail | EBadMode

  /** Where a call stands; everything from `Checking` to `Leaving` runs with the mutex held. */
  datatype Pc =
    | Entering
    | Checking
    | Starting
    | Addressing
    | Triggering
    | RollingBack
    | Waiting
    | Sampling
    | Settling(seen: OpState)
    | Reading
    | Leaving
    | Returned

  /** `slot` is the position in the device's history of the operation done for this call. */
  datatype Call = Call(req: Req, pc: Pc, rc: Rc, out: Option<u16>, slot: Option<nat>)

  /** The flash memory as an atomic object; a cell that is absent reads as erased. */
  datatype Flash = Flash(cells: map<u16, u16>, info: map<u16, u16>, wren: bool, mode: Mode, segment: nat)

  /** An accepted command, read off the device's own registers and the triggering access. */
  datatype DevOp =
    | Execute(cmd: u16, input: u16)
    | Program(addr: u16, value: u16)
    | EraseSegment(addr: u16)
    | SwitchMode
    | CheckImage(image: Mode)

  datatype Job = Job(owner: nat, op: DevOp)

  datatype Device = Device(cmdData: u16, flashAddr: u16, infoAddr: u16, flash: Flash, job: Option<Job>)

  /** What the device did for one request. */
  datatype Resp = Success(value: u16) | Rejected | AlreadyInMode

  /** One line of the device's history: for which call, the command it carried out, and its answer. */
  datatype Entry = Entry(id: nat, req: Req, op: Option<DevOp>, resp: Resp)

  /** The interrupt thread: the two register reads, then one line after the other. */
  datatype Pass = NoPass | AwaitErr(ifgValue: bv16) | Dispatch(line: Line, ifgValue: bv16, errValue: bv16)

  datatype Irq = Irq(ifg: bv16, err: bv16, mask: LineMask, pass: Pass)

  datatype State = State(
    channel: Channel,
    calls: seq<Call>,
    lock: Option<nat>,
    word: OpState,
    dev: Device,
    irq: Irq,
    log: seq<Entry>,
    dropped: nat,
    busWrites: nat)

  datatype Event =
    | NewCall(req: Req)
    | Interrupted(id: nat)
    | Acquire(id: nat)
    | Step(busOk: bool)
    | Finish(success: bool, value: u16)
    | ReadIfg(readOk: bool, cleared: bool)
    | ReadErr(readOk: bool, cleared: bool)
    | RunLine
    | SetMask(line: Line, on: bool)
    | Noise(ifgBits: bv16, errBits: bv16)
    | Spurious(success: bool)

  const LOADER_MODE: nat := 1
  const FIRMWARE_MODE: nat := 2
  const INFO_COUNT: nat := 64
  const ERASED: u16 := 0xFFFF

  // Requests

  function ReqChannel(req: Req): Channel {
    if req.Gencmd? then GencmdChannel else FlashChannel
  }

  /** Requests that start a device operation and wait for its interrupt. */
  predicate Waits(req: Req) {
    req.Gencmd? || req.FlashWrite? || req.FlashErase? || req.SetMode? || req.Checksum?
  }

  predicate ValidMode(mode: nat) {
    mode == LOADER_MODE || mode == FIRMWARE_MODE
  }

  function ModeOf(mode: nat): Mode {
    if mode == LOADER_MODE then Loader else Firmware
  }

  function ModeValue(mode: Mode): u16 {
    if mode == Loader then LOADER_MODE else FIRMWARE_MODE
  }

  function FirstPc(req: Req): Pc {
    match req
    case Gencmd(_, _, _) => Starting
    case FlashWrite(_, _) => Starting
    case FlashErase(_) => Starting
    case SetMode(_) => Checking
    case Checksum(_) => Checking
    case InfoRead(_) => Checking
    case FlashRead(_) => Addressing
    case WriteEnable(_) => Triggering
    case GetMode => Reading
  }

  function FailureRc(req: Req): Rc {
    match req
    case Gencmd(_, _, _) => EGencmdFail
    case SetMode(_) => EOpFail
    case Checksum(_) => Ok
    case _ => EFlashAccess
  }

  function DoneOut(req: Req): Option<u16> {
    if req.Checksum? then Some(1) else None
  }

  function FailedOut(req: Req): Option<u16> {
    if req.Checksum? then Some(0) else None
  }

  /** What the branch for an unexpected state word returns. */
  function ExecutionErrorRc(req: Req): Rc {
    if req.FlashErase? then EIo else EInternal
  }

  // Device

  function Cell(flash: Flash, addr: u16): u16 {
    if addr in flash.cells then flash.cells[addr] else ERASED
  }

  function Info(flash: Flash, addr: u16): u16 {
    if addr in flash.info then flash.info[addr] else ERASED
  }

  predicate SameSegment(flash: Flash, a: u16, b: u16) {
    if flash.segment == 0 then a == b else a / flash.segment == b / flash.segment
  }

  function Erased(flash: Flash, addr: u16): Flash {
    flash.(cells := map a | a in flash.cells && !SameSegment(flash, a, addr) :: flash.cells[a])
  }

  function OtherMode(mode: Mode): Mode {
    if mode == Loader then Firmware else Loader
  }

  predicate Permits(flash: Flash, op: DevOp) {
    (op.Program? || op.EraseSegment?) ==> flash.wren
  }

  /** The effect of a successful operation on the memory. */
  function Performed(flash: Flash, op: DevOp): Flash {
    match op
    case Execute(_, _) => flash
    case Program(a, v) => flash.(cells := flash.cells[a := v])
    case EraseSegment(a) => Erased(flash, a)
    case SwitchMode => flash.(mode := OtherMode(flash.mode))
    case CheckImage(_) => flash
  }

  /** The operation a triggering access of `req` starts, given the device's registers. */
  function Accepted(dev: Device, req: Req): DevOp
    requires Waits(req)
  {
    match req
    case Gencmd(cmd, _, _) => Execute(cmd, dev.cmdData)
    case FlashWrite(_, value) => Program(dev.flashAddr, value)
    case FlashErase(_) => EraseSegment(dev.flashAddr)
    case SetMode(_) => SwitchMode
    case Checksum(mode) => CheckImage(ModeOf(mode))
  }

  function AddressWritten(dev: Device, req: Req): Device {
    match req
    case Gencmd(_, input, _) => dev.(cmdData := input)
    case InfoRead(addr) => dev.(infoAddr := addr)
    case FlashRead(addr) => dev.(flashAddr := addr)
    case FlashWrite(addr, _) => dev.(flashAddr := addr)
    case FlashErase(addr) => dev.(flashAddr := addr)
    case _ => dev
  }

  function ValueRead(dev: Device, req: Req): u16 {
    match req
    case Gencmd(_, _, _) => dev.cmdData
    case InfoRead(_) => Info(dev.flash, dev.infoAddr)
    case FlashRead(_) => Cell(dev.flash, dev.flashAddr)
    case _ => ModeValue(dev.flash.mode)
  }

  // Interrupts

  function CompleteLine(channel: Channel): Line {
    if channel.GencmdChannel? then LINE_GENCMD_COMPLETE else LINE_FLASH
  }

  function ErrorLine(channel: Channel): Line {
    if channel.GencmdChannel? then LINE_GENCMD_ERROR else LINE_ERR_FLASH
  }

  function CompleteBit(channel: Channel): bv16 {
    DESCRIPTORS[CompleteLine(channel)].mask
  }

  function ErrorBit(channel: Channel): bv16 {
    DESCRIPTORS[ErrorLine(channel)].mask
  }

  /** One compare-and-swap of the state word. */
  function CmpXchg(word: OpState, expected: OpState, next: OpState): OpState {
    if word == expected then next else word
  }

  /** The completion handler and the error handler. */
  function Handled(word: OpState, success: bool): OpState {
    CmpXchg(word, Pending, if success then Done else Failed)
  }

  // Steps of the lock holder

  function Finished(s: State, rc: Rc, out: Option<u16>): State
    requires s.lock.Some? && s.lock.value < |s.calls|
  {
    var h := s.lock.value;
    s.(calls := s.calls[h := s.calls[h].(pc := Leaving, rc := rc, out := out)])
  }

  function Goto(s: State, pc: Pc): State
    requires s.lock.Some? && s.lock.value < |s.calls|
  {
    var h := s.lock.value;
    s.(calls := s.calls[h := s.calls[h].(pc := pc)])
  }

  /** Appends what the device did for call `id` to its history. */
  function Logged(s: State, id: nat, op: Option<DevOp>, resp: Resp): State
    requires id < |s.calls|
  {
    s.(calls := s.calls[id := s.calls[id].(slot := Some(|s.log|))],
       log := s.log + [Entry(id, s.calls[id].req, op, resp)])
  }

  predicate Held(s: State) {
    s.lock.Some? && s.lock.value < |s.calls|
  }

  function Holder(s: State): Call
    requires Held(s)
  {
    s.calls[s.lock.value]
  }

  function CheckStep(s: State, ok: bool): State
    requires Held(s)
  {
    var req := Holder(s).req;
    if req.InfoRead? then
      if req.addr >= INFO_COUNT then Finished(s, EInval, None) else Goto(s, Addressing)
    else if req.SetMode? || req.Checksum? then
      if !ValidMode(req.mode) then Finished(s, EInval, None)
      else if !ok then Finished(s, EIo, None)
      else if s.dev.flash.mode == ModeOf(req.mode) then
        Finished(Logged(s, s.lock.value, None, AlreadyInMode), if req.SetMode? then Ok else EBadMode, None)
      else Goto(s, Starting)
    else s
  }

  function StartStep(s: State): State
    requires Held(s)
  {
    var req := Holder(s).req;
    if s.word != Idle then Finished(s, EInternal, None)
    else Goto(s.(word := Pending), if req.SetMode? || req.Checksum? then Triggering else Addressing)
  }

  function AddressStep(s: State, ok: bool): State
    requires Held(s)
  {
    var req := Holder(s).req;
    var s := s.(busWrites := s.busWrites + 1);
    if !ok then
      if Waits(req) then Goto(s, RollingBack) else Finished(s, EIo, None)
    else
      Goto(s.(dev := AddressWritten(s.dev, req)), if Waits(req) then Triggering else Reading)
  }

  function TriggerStep(s: State, ok: bool): State
    requires Held(s)
  {
    var req := Holder(s).req;
    var s := s.(busWrites := s.busWrites + 1);
    if Waits(req) then
      if !ok then Goto(s, RollingBack)
      else Goto(s.(dev := s.dev.(job := Some(Job(s.lock.value, Accepted(s.dev, req))))), Waiting)
    else if !ok || !req.WriteEnable? then Finished(s, EIo, None)
    else
      var t := s.(dev := s.dev.(flash := s.dev.flash.(wren := req.enable)));
      Finished(Logged(t, s.lock.value, None, Success(0)), Ok, None)
  }

  function RollbackStep(s: State): State
    requires Held(s)
  {
    if s.word == Pending then Finished(s.(word := Idle), EIo, None) else Finished(s, EInternal, None)
  }

  function SettleStep(s: State, seen: OpState): State
    requires Held(s)
  {
    var req := Holder(s).req;
    if seen == Done then
      if s.word != Done then Finished(s, EInternal, None)
      else if req.Gencmd? && req.wantOutput then Goto(s.(word := Idle), Reading)
      else Finished(s.(word := Idle), Ok, DoneOut(req))
    else if seen == Failed then
      if s.word != Failed then Finished(s, EInternal, None)
      else Finished(s.(word := Idle), FailureRc(req), FailedOut(req))
    else Finished(s, ExecutionErrorRc(req), None)
  }

  function ReadStep(s: State, ok: bool): State
    requires Held(s)
  {
    var req := Holder(s).req;
    if !ok then Finished(s, EIo, None)
    else
      var v := ValueRead(s.dev, req);
      var t := if req.Gencmd? then s else Logged(s, s.lock.value, None, Success(v));
      Finished(t, Ok, Some(v))
  }

  function HolderStep(s: State, ok: bool): State
    requires Held(s)
  {
    match Holder(s).pc
    case Checking => CheckStep(s, ok)
    case Starting => StartStep(s)
    case Addressing => AddressStep(s, ok)
    case Triggering => TriggerStep(s, ok)
    case RollingBack => RollbackStep(s)
    case Waiting => Goto(s, Sampling)
    case Sampling => Goto(s, Settling(s.word))
    case Settling(seen) => SettleStep(s, seen)
    case Reading => ReadStep(s, ok)
    case Leaving => Goto(s, Returned).(lock := None)
    case _ => s
  }

  // Steps of the device and of the interrupt thread

  function FinishStep(s: State, success: bool, value: u16): State
    requires s.dev.job.Some? && s.dev.job.value.owner < |s.calls|
  {
    var job := s.dev.job.value;
    var dev := s.dev.(job := None);
    if success then
      var dev := dev.(flash := Performed(dev.flash, job.op),
                      cmdData := if job.op.Execute? then value else dev.cmdData);
      Logged(s.(dev := dev, irq := s.irq.(ifg := Raised(s.irq.ifg, CompleteBit(s.channel)))),
             job.owner, Some(job.op), Success(value))
    else
      Logged(s.(dev := dev,
                irq := s.irq.(ifg := Raised(s.irq.ifg, ERR_BIT), err := Raised(s.irq.err, ErrorBit(s.channel)))),
             job.owner, Some(job.op), Rejected)
  }

  function ReadIfgStep(s: State, ok: bool, cleared: bool): State {
    var v := s.irq.ifg;
    if ok then
      s.(irq := s.irq.(ifg := 0, pass := if Has(v, ERR_BIT) then AwaitErr(v) else Dispatch(0, v, 0)))
    else if cleared then
      s.(irq := s.irq.(ifg := 0), dropped := s.dropped + Count(Has(v, CompleteBit(s.channel))))
    else s
  }

  function ReadErrStep(s: State, ok: bool, cleared: bool): State
    requires s.irq.pass.AwaitErr?
  {
    var v := s.irq.pass.ifgValue;
    if ok then s.(irq := s.irq.(err := 0, pass := Dispatch(0, v, s.irq.err)))
    else
      var lost := s.dropped + Count(Has(v, CompleteBit(s.channel)));
      if cleared then
        s.(irq := s.irq.(err := 0, pass := NoPass), dropped := lost + Count(Has(s.irq.err, ErrorBit(s.channel))))
      else s.(irq := s.irq.(pass := NoPass), dropped := lost)
  }

  predicate OwnLine(channel: Channel, line: Line) {
    line == CompleteLine(channel) || line == ErrorLine(channel)
  }

  function LineStep(s: State): State
    requires s.irq.pass.Dispatch?
  {
    var Dispatch(line, ifgValue, errValue) := s.irq.pass;
    var pass := if line + 1 == LINE_COUNT then NoPass else Dispatch(line + 1, ifgValue, errValue);
    var t := s.(irq := s.irq.(pass := pass));
    if !Fires(line, ifgValue, errValue) || !OwnLine(s.channel, line) then t
    else if !s.irq.mask[line] then t.(dropped := s.dropped + 1)
    else t.(word := Handled(s.word, line == CompleteLine(s.channel)))
  }

  // The transition system

  predicate Enabled(s: State, e: Event) {
    match e
    case NewCall(req) => ReqChannel(req) == s.channel
    case Interrupted(id) => id < |s.calls| && s.calls[id].pc == Entering
    case Acquire(id) => id < |s.calls| && s.calls[id].pc == Entering && s.lock == None
    case Step(_) => Held(s) && !(Holder(s).pc == Waiting && s.word == Pending)
    case Finish(success, _) =>
      && s.dev.job.Some? && s.dev.job.value.owner < |s.calls|
      && (success ==> Permits(s.dev.flash, s.dev.job.value.op))
    case ReadIfg(_, _) => s.irq.pass.NoPass?
    case ReadErr(_, _) => s.irq.pass.AwaitErr?
    case RunLine => s.irq.pass.Dispatch?
    case SetMask(_, _) => true
    case Noise(i, e) => !Has(i, CompleteBit(s.channel)) && !Has(e, ErrorBit(s.channel))
    case Spurious(_) => true
  }

  function Next(s: State, e: Event): State
    requires Enabled(s, e)
  {
    match e
    case NewCall(req) => s.(calls := s.calls + [Call(req, Entering, Ok, None, None)])
    case Interrupted(id) => s.(calls := s.calls[id := s.calls[id].(pc := Returned, rc := EIntr)])
    case Acquire(id) => Goto(s.(lock := Some(id)), FirstPc(s.calls[id].req))
    case Step(ok) => HolderStep(s, ok)
    case Finish(success, value) => FinishStep(s, success, value)
    case ReadIfg(ok, cleared) => ReadIfgStep(s, ok, cleared)
    case ReadErr(ok, cleared) => ReadErrStep(s, ok, cleared)
    case RunLine => LineStep(s)
    case SetMask(line, on) => s.(irq := s.irq.(mask := s.irq.mask[line := on]))
    case Noise(i, e) => s.(irq := s.irq.(ifg := Raised(s.irq.ifg, i), err := Raised(s.irq.err, e)))
    case Spurious(success) => s.(word := Handled(s.word, success))
  }

  lemma ChannelStays(s: State, e: Event)
    requires Enabled(s, e)
    ensures Next(s, e).channel == s.channel
  {
    if e.Step? {
      match Holder(s).pc
      case Checking =>
      case Starting =>
      case Addressing =>
      case Triggering =>
      case Settling(_) =>
      case Reading =>
      case _ =>
    }
  }

  /** A run: every event is enabled where it happens. */
  predicate Possible(s: State, es: seq<Event>)
    decreases |es|
  {
    es == [] || (Enabled(s, es[0]) && Possible(Next(s, es[0]), es[1..]))
  }

  function Exec(s: State, es: seq<Event>): State
    requires Possible(s, es)
    decreases |es|
  {
    if es == [] then s else Exec(Next(s, es[0]), es[1..])
  }

  lemma ExecAppend(s: State, a: seq<Event>, b: seq<Event>)
    requires Possible(s, a) && Possible(Exec(s, a), b)
    ensures Possible(s, a + b) && Exec(s, a + b) == Exec(Exec(s, a), b)
    decreases |a|
  {
    hide Next;
    hide Enabled;
    if a == [] {
      assert a + b == b;
    } else {
      ExecAppend(Next(s, a[0]), a[1..], b);
      assert (a + b)[1..] == a[1..] + b;
    }
  }

  lemma ExecPrepend(s: State, e: Event, es: seq<Event>)
    requires Enabled(s, e) && Possible(Next(s, e), es)
    ensures Possible(s, [e] + es) && Exec(s, [e] + es) == Exec(Next(s, e), es)
  {
    hide Next;
    hide Enabled;
    assert ([e] + es)[1..] == es;
  }

  predicate Initial(s: State) {
    && s.calls == [] && s.lock == None && s.word == Idle && s.dev.job == None
    && s.irq.ifg == 0 && s.irq.err == 0 && s.irq.pass == NoPass
    && s.log == [] && s.dropped == 0 && s.busWrites == 0
  }
}
