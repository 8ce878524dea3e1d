/**
 What the handshake keeps when interrupts come only from the device: the completion of the
 open request is never lost unnoticed, every call gets the device's answer to its own request,
 and the flash behaves as one atomic memory.
 */
module ProtocolMatching {
  import opened Common
  import opened IrqLines
  import opened Words
  import opened Protocol
  import opened ProtocolSafety

  // The completion of the open request

  predicate CompleteHeld(s: State) {
    match s.irq.pass
    case NoPass => false
    case AwaitErr(v) => Has(v, CompleteBit(s.channel))
    case Dispatch(line, v, _) => line <= CompleteLine(s.channel) && Has(v, CompleteBit(s.channel))
  }

  predicate ErrorHeld(s: State) {
    match s.irq.pass
    case Dispatch(line, _, v) => line <= ErrorLine(s.channel) && Has(v, ErrorBit(s.channel))
    case _ => false
  }

  predicate CompleteLatched(s: State) {
    Has(s.irq.ifg, CompleteBit(s.channel))
  }

  predicate ErrorLatched(s: State) {
    Has(s.irq.err, ErrorBit(s.channel))
  }

  /** A caller waits for the interrupt of a request the device has accepted. */
  predicate Outstanding(s: State) {
    Held(s) && Holder(s).pc == Waiting && s.word == Pending
  }

  /** Every place the completion of a request can be, including having been dropped. */
  function Tokens(s: State): nat {
    Count(s.dev.job.Some?) + Count(CompleteLatched(s)) + Count(ErrorLatched(s))
    + Count(CompleteHeld(s)) + Count(ErrorHeld(s)) + s.dropped
  }

  predicate Conserved(s: State) {
    Tokens(s) == Count(Outstanding(s))
  }

  // The atomic memory

  /** One atomic operation of the memory: the memory after `req` was answered by `resp`, if it can be. */
  function Atomic(f: Flash, req: Req, resp: Resp): Option<Flash> {
    match req
    case Gencmd(_, _, _) => if resp.AlreadyInMode? then None else Some(f)
    case FlashRead(a) => if resp == Success(Cell(f, a)) then Some(f) else None
    case InfoRead(a) => if a < INFO_COUNT && resp == Success(Info(f, a)) then Some(f) else None
    case GetMode => if resp == Success(ModeValue(f.mode)) then Some(f) else None
    case WriteEnable(b) => if resp.Success? then Some(f.(wren := b)) else None
    case FlashWrite(a, v) =>
      if resp.Rejected? then Some(f)
      else if resp.Success? && f.wren then Some(f.(cells := f.cells[a := v])) else None
    case FlashErase(a) =>
      if resp.Rejected? then Some(f)
      else if resp.Success? && f.wren then Some(Erased(f, a)) else None
    case SetMode(m) =>
      if !ValidMode(m) || (resp.AlreadyInMode? <==> f.mode != ModeOf(m)) then None
      else if resp.Success? then Some(f.(mode := ModeOf(m))) else Some(f)
    case Checksum(m) =>
      if !ValidMode(m) || (resp.AlreadyInMode? <==> f.mode != ModeOf(m)) then None else Some(f)
  }

  /** The requests of the history carried out one after the other on one memory. */
  function Replay(f: Flash, log: seq<Entry>): Option<Flash> {
    if log == [] then Some(f)
    else
      var before := Replay(f, log[..|log| - 1]);
      var e := log[|log| - 1];
      if before == None then None else Atomic(before.value, e.req, e.resp)
  }

  lemma ReplayAppend(f: Flash, log: seq<Entry>, e: Entry)
    requires Replay(f, log).Some?
    ensures Replay(f, log + [e]) == Atomic(Replay(f, log).value, e.req, e.resp)
  {
    assert (log + [e])[..|log|] == log;
  }

  // What a call returns

  /** The result that answers `req` when the device did `resp` for it. */
  predicate Answers(req: Req, resp: Resp, rc: Rc, out: Option<u16>) {
    (resp.AlreadyInMode? ==> req.SetMode? || req.Checksum?) &&
    match req
    case Gencmd(_, _, wantOutput) =>
      if resp.Success? then
        if wantOutput then (rc == Ok && out == Some(resp.value)) || (rc == EIo && out == None)
        else rc == Ok && out == None
      else rc == EGencmdFail && out == None
    case FlashWrite(_, _) => rc == (if resp.Success? then Ok else EFlashAccess) && out == None
    case FlashErase(_) => rc == (if resp.Success? then Ok else EFlashAccess) && out == None
    case SetMode(_) => rc == (if resp.Rejected? then EOpFail else Ok) && out == None
    case Checksum(_) =>
      if resp.AlreadyInMode? then rc == EBadMode && out == None
      else rc == Ok && out == Some(if resp.Success? then 1 else 0)
    case WriteEnable(_) => rc == Ok && out == None && resp.Success?
    case _ => rc == Ok && resp.Success? && out == Some(resp.value)
  }

  /** The results of a call for which the device did nothing. */
  predicate NoEffect(req: Req, rc: Rc) {
    || rc == EIntr || rc == EIo
    || (rc == EInval && ((req.InfoRead? && req.addr >= INFO_COUNT)
                         || ((req.SetMode? || req.Checksum?) && !ValidMode(req.mode))))
  }

  predicate ResultFits(c: Call, log: seq<Entry>) {
    match c.slot
    case None => NoEffect(c.req, c.rc) && c.out == None
    case Some(k) => k < |log| && Answers(c.req, log[k].resp, c.rc, c.out)
  }

  // The invariant

  /** The device command a waiting request asks for. */
  function Wanted(req: Req): DevOp
    requires Waits(req)
  {
    match req
    case Gencmd(cmd, input, _) => Execute(cmd, input)
    case FlashWrite(a, v) => Program(a, v)
    case FlashErase(a) => EraseSegment(a)
    case SetMode(_) => SwitchMode
    case Checksum(m) => CheckImage(ModeOf(m))
  }

  /** The command the device carried out for a request is the one that request asks for. */
  predicate CarriedOut(e: Entry) {
    e.op == if Waits(e.req) && !e.resp.AlreadyInMode? then Some(Wanted(e.req)) else None
  }

  /** The history and the calls name each other: no entry is shared, and none is without a call. */
  ghost predicate HistoryFits(s: State) {
    && (forall k :: 0 <= k < |s.log| ==> CarriedOut(s.log[k]))
    && (forall k :: 0 <= k < |s.log| ==>
          s.log[k].id < |s.calls| && s.calls[s.log[k].id].slot == Some(k) && s.calls[s.log[k].id].req == s.log[k].req)
    && (forall id :: 0 <= id < |s.calls| && s.calls[id].slot.Some? ==>
          s.calls[id].slot.value < |s.log| && s.log[s.calls[id].slot.value].id == id)
  }

  ghost predicate ResultsFit(s: State) {
    forall id :: 0 <= id < |s.calls| ==>
      && (s.calls[id].pc == Entering ==> s.calls[id].slot == None && s.calls[id].out == None)
      && (s.calls[id].pc == Leaving || s.calls[id].pc == Returned ==> ResultFits(s.calls[id], s.log))
  }

  /** The device's shared registers hold what this very request wrote. */
  predicate RegistersFit(dev: Device, req: Req) {
    match req
    case Gencmd(_, input, _) => dev.cmdData == input
    case FlashRead(a) => dev.flashAddr == a
    case FlashWrite(a, _) => dev.flashAddr == a
    case FlashErase(a) => dev.flashAddr == a
    case InfoRead(a) => dev.infoAddr == a
    case _ => true
  }

  predicate ModeFits(f: Flash, req: Req) {
    (req.SetMode? || req.Checksum?) ==> ValidMode(req.mode) && f.mode != ModeOf(req.mode)
  }

  /** The device has answered the holder's request, with `success`. */
  predicate Answered(s: State, success: bool)
    requires Held(s)
  {
    var c := Holder(s);
    && c.slot.Some? && c.slot.value < |s.log|
    && (if success then s.log[c.slot.value].resp.Success? else s.log[c.slot.value].resp.Rejected?)
    && (success && c.req.Gencmd? ==> s.log[c.slot.value].resp.value == s.dev.cmdData)
  }

  predicate HolderFits(s: State) {
    Held(s) ==>
      var c := Holder(s);
      match c.pc
      case Checking => c.slot == None && c.out == None
      case Starting => c.slot == None && c.out == None && s.word == Idle && ModeFits(s.dev.flash, c.req)
      case Addressing =>
        && c.slot == None && c.out == None && (Waits(c.req) ==> s.word == Pending)
        && (c.req.InfoRead? ==> c.req.addr < INFO_COUNT)
      case Triggering =>
        && c.slot == None && c.out == None && RegistersFit(s.dev, c.req)
        && (Waits(c.req) ==> s.word == Pending && ModeFits(s.dev.flash, c.req))
      case RollingBack => c.slot == None && c.out == None && s.word == Pending
      case Waiting =>
        && c.out == None && Waits(c.req)
        && (if s.dev.job.Some? then
              && s.dev.job.value == Job(s.lock.value, Wanted(c.req))
              && c.slot == None && s.word == Pending && ModeFits(s.dev.flash, c.req)
            else
              && (s.word == Done || CompleteLatched(s) || CompleteHeld(s) ==> Answered(s, true))
              && (s.word == Failed || ErrorLatched(s) || ErrorHeld(s) ==> Answered(s, false))
              && (s.word == Pending ==> c.slot.Some?))
      case Sampling => c.out == None && Answered(s, s.word == Done)
      case Settling(seen) => c.out == None && Answered(s, seen == Done)
      case Reading =>
        && c.out == None
        && (if c.req.Gencmd? then Answered(s, true)
            else c.slot == None && RegistersFit(s.dev, c.req) && (c.req.InfoRead? ==> c.req.addr < INFO_COUNT))
      case _ => true
  }

  /** Only the holder that waits has a job, and with no request open the word is Idle. */
  predicate JobFits(s: State) {
    && (s.dev.job.Some? ==> Held(s) && Holder(s).pc == Waiting)
    && (!Open(s) ==> s.word == Idle)
  }

  ghost predicate Matched(f: Flash, s: State) {
    && Safe(s)
    && Conserved(s)
    && HistoryFits(s)
    && ResultsFit(s)
    && HolderFits(s)
    && JobFits(s)
    && Replay(f, s.log) == Some(s.dev.flash)
  }

  lemma InitialIsMatched(s: State)
    requires Initial(s)
    ensures Matched(s.dev.flash, s)
  {
  }

  // Steps of the lock holder

  /** A step of the holder that adds nothing to the history and keeps the memory. */
  lemma MovedKeepsMatched(f: Flash, s: State, t: State)
    requires Matched(f, s) && Held(s) && Safe(t)
    requires t.channel == s.channel && t.lock == s.lock && |t.calls| == |s.calls|
    requires forall id :: 0 <= id < |s.calls| && id != s.lock.value ==> t.calls[id] == s.calls[id]
    requires Holder(t).req == Holder(s).req && Holder(t).slot == Holder(s).slot && t.log == s.log
    requires t.dev.flash == s.dev.flash
    requires Conserved(t) && HolderFits(t) && JobFits(t)
    requires Holder(t).pc == Leaving ==> ResultFits(Holder(t), t.log)
    ensures Matched(f, t)
  {
    hide Replay;
    hide Conserved;
    hide HolderFits;
    hide JobFits;
    hide ResultFits;
    hide CarriedOut;
  }

  /** The device does something for call `id`, and the history says so. */
  lemma LoggedKeepsHistory(s: State, t: State, id: nat, e: Entry)
    requires HistoryFits(s) && ResultsFit(s) && id < |s.calls| && s.calls[id].slot == None
    requires t.log == s.log + [e] && e.id == id && e.req == s.calls[id].req && CarriedOut(e)
    requires |t.calls| == |s.calls| && t.calls[id].slot == Some(|s.log|) && t.calls[id].req == s.calls[id].req
    requires forall i :: 0 <= i < |s.calls| && i != id ==> t.calls[i] == s.calls[i]
    requires t.calls[id].pc != Entering
    requires t.calls[id].pc == Leaving || t.calls[id].pc == Returned ==> ResultFits(t.calls[id], t.log)
    ensures HistoryFits(t) && ResultsFit(t)
  {
  }

  /** A step in which the holder has its request done at once and is finished. */
  lemma DoneKeepsMatched(f: Flash, s: State, t: State, resp: Resp)
    requires Matched(f, s) && Held(s) && Safe(t) && !Open(s) && Holder(s).pc != Waiting && Holder(s).slot == None
    requires t.channel == s.channel && t.lock == s.lock && |t.calls| == |s.calls|
    requires forall i :: 0 <= i < |s.calls| && i != s.lock.value ==> t.calls[i] == s.calls[i]
    requires Holder(t).req == Holder(s).req && Holder(t).slot == Some(|s.log|) && Holder(t).pc == Leaving
    requires t.log == s.log + [Entry(s.lock.value, Holder(s).req, None, resp)]
    requires Waits(Holder(s).req) ==> resp.AlreadyInMode?
    requires Atomic(s.dev.flash, Holder(s).req, resp) == Some(t.dev.flash)
    requires Answers(Holder(s).req, resp, Holder(t).rc, Holder(t).out)
    requires t.word == s.word && t.irq == s.irq && t.dropped == s.dropped && t.dev.job == s.dev.job
    ensures Matched(f, t)
  {
    LoggedKeepsHistory(s, t, s.lock.value, t.log[|s.log|]);
    ReplayAppend(f, s.log, t.log[|s.log|]);
  }

  lemma CheckKeepsMatched(f: Flash, s: State, ok: bool)
    requires Matched(f, s) && Held(s) && Holder(s).pc == Checking
    ensures Matched(f, CheckStep(s, ok))
  {
    hide HistoryFits;
    hide ResultsFit;
    hide Replay;
    hide Safe;
    CheckKeepsSafe(s, ok);
    var t := CheckStep(s, ok);
    if |t.log| == |s.log| {
      MovedKeepsMatched(f, s, t);
    } else {
      DoneKeepsMatched(f, s, t, AlreadyInMode);
    }
  }

  lemma StartKeepsMatched(f: Flash, s: State)
    requires Matched(f, s) && Held(s) && Holder(s).pc == Starting
    ensures Matched(f, StartStep(s))
  {
    StartKeepsSafe(s);
    MovedKeepsMatched(f, s, StartStep(s));
  }

  lemma AddressKeepsMatched(f: Flash, s: State, ok: bool)
    requires Matched(f, s) && Held(s) && Holder(s).pc == Addressing
    ensures Matched(f, AddressStep(s, ok))
  {
    AddressKeepsSafe(s, ok);
    MovedKeepsMatched(f, s, AddressStep(s, ok));
  }

  lemma TriggerKeepsMatched(f: Flash, s: State, ok: bool)
    requires Matched(f, s) && Held(s) && Holder(s).pc == Triggering
    ensures Matched(f, TriggerStep(s, ok))
  {
    hide HistoryFits;
    hide ResultsFit;
    hide Replay;
    hide Safe;
    TriggerKeepsSafe(s, ok);
    var t := TriggerStep(s, ok);
    if |t.log| == |s.log| {
      MovedKeepsMatched(f, s, t);
    } else {
      DoneKeepsMatched(f, s, t, Success(0));
    }
  }

  lemma RollbackKeepsMatched(f: Flash, s: State)
    requires Matched(f, s) && Held(s) && Holder(s).pc == RollingBack
    ensures Matched(f, RollbackStep(s))
  {
    RollbackKeepsSafe(s);
    MovedKeepsMatched(f, s, RollbackStep(s));
  }

  lemma WaitKeepsMatched(f: Flash, s: State)
    requires Matched(f, s) && Held(s) && (Holder(s).pc == Sampling || (Holder(s).pc == Waiting && s.word != Pending))
    ensures Matched(f, HolderStep(s, true))
  {
    WaitKeepsSafe(s);
    MovedKeepsMatched(f, s, HolderStep(s, true));
  }

  lemma SettleKeepsMatched(f: Flash, s: State)
    requires Matched(f, s) && Held(s) && Holder(s).pc.Settling?
    ensures Matched(f, SettleStep(s, Holder(s).pc.seen))
  {
    hide HistoryFits;
    hide ResultsFit;
    hide Replay;
    SettleKeepsSafe(s);
    MovedKeepsMatched(f, s, SettleStep(s, Holder(s).pc.seen));
  }

  lemma ReadKeepsMatched(f: Flash, s: State, ok: bool)
    requires Matched(f, s) && Held(s) && Holder(s).pc == Reading
    ensures Matched(f, ReadStep(s, ok))
  {
    hide HistoryFits;
    hide ResultsFit;
    hide Replay;
    ReadKeepsSafe(s, ok);
    var t := ReadStep(s, ok);
    if |t.log| == |s.log| {
      MovedKeepsMatched(f, s, t);
    } else {
      DoneKeepsMatched(f, s, t, Success(ValueRead(s.dev, Holder(s).req)));
    }
  }

  lemma LeaveKeepsMatched(f: Flash, s: State)
    requires Matched(f, s) && Held(s) && Holder(s).pc == Leaving
    ensures Matched(f, HolderStep(s, true))
  {
    LeaveKeepsSafe(s);
  }

  lemma StepKeepsMatched(f: Flash, s: State, ok: bool)
    requires Matched(f, s) && Enabled(s, Step(ok))
    ensures Matched(f, HolderStep(s, ok))
  {
    assert Holder(s).pc != Entering && Holder(s).pc != Returned;
    hide Matched;
    match Holder(s).pc
    case Checking => CheckKeepsMatched(f, s, ok);
    case Starting => StartKeepsMatched(f, s);
    case Addressing => AddressKeepsMatched(f, s, ok);
    case Triggering => TriggerKeepsMatched(f, s, ok);
    case RollingBack => RollbackKeepsMatched(f, s);
    case Waiting => WaitKeepsMatched(f, s);
    case Sampling => WaitKeepsMatched(f, s);
    case Settling(_) => SettleKeepsMatched(f, s);
    case Reading => ReadKeepsMatched(f, s, ok);
    case Leaving => LeaveKeepsMatched(f, s);
  }

  // Steps of the other callers, the device and the interrupt thread

  /** A call that is made, is interrupted at the mutex or takes it, says nothing to the device. */
  lemma ArrivalKeepsHistory(s: State, e: Event)
    requires Safe(s) && Enabled(s, e) && (e.NewCall? || e.Interrupted? || e.Acquire?)
    requires HistoryFits(s) && ResultsFit(s)
    ensures HistoryFits(Next(s, e)) && ResultsFit(Next(s, e))
  {
    hide Safe;
    hide CarriedOut;
    hide Answers;
  }

  lemma ArrivalKeepsHolder(s: State, e: Event)
    requires Safe(s) && Enabled(s, e) && (e.NewCall? || e.Interrupted? || e.Acquire?)
    requires HolderFits(s) && JobFits(s) && Conserved(s) && ResultsFit(s)
    ensures HolderFits(Next(s, e)) && JobFits(Next(s, e)) && Conserved(Next(s, e))
  {
    hide Has;
    hide ResultFits;
    hide Wanted;
  }

  lemma ArrivalKeepsMatched(f: Flash, s: State, e: Event)
    requires Matched(f, s) && Enabled(s, e) && (e.NewCall? || e.Interrupted? || e.Acquire?)
    ensures Matched(f, Next(s, e))
  {
    hide Safe;
    hide HistoryFits;
    hide ResultsFit;
    hide HolderFits;
    hide JobFits;
    hide Conserved;
    hide Replay;
    ArrivalKeepsSafe(s, e);
    ArrivalKeepsHistory(s, e);
    ArrivalKeepsHolder(s, e);
  }

  lemma OwnBits(channel: Channel)
    ensures Has(CompleteBit(channel), CompleteBit(channel)) && Has(ErrorBit(channel), ErrorBit(channel))
    ensures !Has(ERR_BIT, CompleteBit(channel))
  {
  }

  lemma FinishLatches(s: State, success: bool, value: u16)
    requires Enabled(s, Finish(success, value))
    ensures var t := FinishStep(s, success, value);
            && CompleteLatched(t) == (CompleteLatched(s) || success)
            && ErrorLatched(t) == (ErrorLatched(s) || !success)
            && CompleteHeld(t) == CompleteHeld(s) && ErrorHeld(t) == ErrorHeld(s)
  {
    OwnBits(s.channel);
    hide Has;
    hide Raised;
    hide CompleteBit;
    hide ErrorBit;
    RaisedHas(s.irq.ifg, CompleteBit(s.channel), CompleteBit(s.channel));
    RaisedHas(s.irq.ifg, ERR_BIT, CompleteBit(s.channel));
    RaisedHas(s.irq.err, ErrorBit(s.channel), ErrorBit(s.channel));
  }

  lemma AnswerRaises(s: State, success: bool, value: u16)
    requires Enabled(s, Finish(success, value))
    ensures var irq := FinishStep(s, success, value).irq;
            && irq.ifg == Raised(s.irq.ifg, if success then CompleteBit(s.channel) else ERR_BIT)
            && irq.err == if success then s.irq.err else Raised(s.irq.err, ErrorBit(s.channel))
  {
    hide Raised;
    hide CompleteBit;
    hide ErrorBit;
  }

  lemma BitNumbers(channel: Channel)
    ensures CompleteBit(channel) == if channel.GencmdChannel? then 0x0020 else 0x0002
    ensures ErrorBit(channel) == if channel.GencmdChannel? then 0x0020 else 0x0002
  {
  }

  /** What the device latches for its answers, in register bits. */
  lemma AnswerBits(s: State, success: bool, value: u16)
    requires Enabled(s, Finish(success, value))
    ensures var irq, bit := FinishStep(s, success, value).irq, if s.channel.GencmdChannel? then 0x0020 else 0x0002;
            && irq.ifg == s.irq.ifg | (if success then bit else 0x0001)
            && irq.err == (if success then s.irq.err else s.irq.err | bit)
  {
    hide FinishStep;
    hide Enabled;
    hide CompleteBit;
    hide ErrorBit;
    AnswerRaises(s, success, value);
    BitNumbers(s.channel);
  }

  function Other(channel: Channel): Channel {
    if channel.GencmdChannel? then FlashChannel else GencmdChannel
  }

  lemma StepKeepsIrq(s: State, ok: bool)
    requires Enabled(s, Step(ok))
    ensures HolderStep(s, ok).irq == s.irq && HolderStep(s, ok).dropped == s.dropped
    ensures HolderStep(s, ok).channel == s.channel
  {
    match Holder(s).pc
    case Checking =>
    case Starting =>
    case Addressing =>
    case Triggering =>
    case Settling(_) =>
    case Reading =>
    case _ =>
  }

  /** What an event of the instance `o` is for the instance that shares the registers and the thread with it. */
  function Seen(o: State, e: Event): Option<Event> {
    match e
    case Finish(success, _) =>
      Some(if success then Noise(CompleteBit(o.channel), 0) else Noise(ERR_BIT, ErrorBit(o.channel)))
    case ReadIfg(_, _) => Some(e)
    case ReadErr(_, _) => Some(e)
    case RunLine => Some(e)
    case SetMask(_, _) => Some(e)
    case Noise(_, _) => Some(e)
    case _ => None
  }

  lemma FinishIsNoise(s: State, o: State, success: bool, value: u16)
    requires o.channel == Other(s.channel) && o.irq == s.irq && Enabled(o, Finish(success, value))
    ensures var e := Seen(o, Finish(success, value)).value;
            Enabled(s, e) && Next(s, e).irq == FinishStep(o, success, value).irq
  {
    OwnBits(s.channel);
    ZeroBits(s.irq.err);
    ZeroBits(ErrorBit(s.channel));
    assert !Has(CompleteBit(o.channel), CompleteBit(s.channel)) && !Has(ErrorBit(o.channel), ErrorBit(s.channel));
    hide Has;
    hide Raised;
    hide CompleteBit;
    hide ErrorBit;
  }

  lemma ReadIsShared(s: State, o: State, e: Event)
    requires o.channel == Other(s.channel) && o.irq == s.irq && Enabled(o, e) && (e.ReadIfg? || e.ReadErr?)
    ensures Enabled(s, e) && Next(s, e).irq == Next(o, e).irq
  {
    hide Has;
  }

  lemma LineIsShared(s: State, o: State)
    requires o.channel == Other(s.channel) && o.irq == s.irq && Enabled(o, RunLine)
    ensures Enabled(s, RunLine) && LineStep(s).irq == LineStep(o).irq
  {
    hide Fires;
    hide OwnLine;
  }

  /**
   The two instances share IFG, ERR, the mask and the thread. Whatever the other instance does to
   them is a step of this instance too, and the other device's answers are unrelated causes here.
   */
  lemma OtherInstanceIsNoise(s: State, o: State, e: Event)
    requires o.channel == Other(s.channel) && o.irq == s.irq && Enabled(o, e) && (e.Noise? ==> Enabled(s, e))
    ensures match Seen(o, e)
            case None => Next(o, e).irq == s.irq
            case Some(seen) => Enabled(s, seen) && Next(s, seen).irq == Next(o, e).irq
  {
    hide HolderStep;
    hide FinishStep;
    hide ReadIfgStep;
    hide ReadErrStep;
    hide LineStep;
    hide Has;
    hide Raised;
    match e
    case Step(ok) => StepKeepsIrq(o, ok);
    case Finish(success, value) => FinishIsNoise(s, o, success, value);
    case ReadIfg(_, _) => ReadIsShared(s, o, e);
    case ReadErr(_, _) => ReadIsShared(s, o, e);
    case RunLine => LineIsShared(s, o);
    case _ =>
  }

  /** The job turns into exactly one latched cause. */
  lemma FinishConserves(f: Flash, s: State, success: bool, value: u16)
    requires Matched(f, s) && Enabled(s, Finish(success, value))
    ensures Conserved(FinishStep(s, success, value))
    ensures success ==> CompleteLatched(FinishStep(s, success, value)) && !ErrorLatched(FinishStep(s, success, value))
    ensures !success ==> !CompleteLatched(FinishStep(s, success, value)) && ErrorLatched(FinishStep(s, success, value))
  {
    FinishLatches(s, success, value);
    hide CompleteLatched;
    hide ErrorLatched;
    hide CompleteHeld;
    hide ErrorHeld;
  }

  /** What the device does for the holder's command is what its request asks of the memory. */
  lemma PerformedIsAtomic(f: Flash, req: Req, success: bool, value: u16)
    requires Waits(req) && ModeFits(f, req) && (success ==> Permits(f, Wanted(req)))
    ensures Atomic(f, req, if success then Success(value) else Rejected)
         == Some(if success then Performed(f, Wanted(req)) else f)
  {
  }

  lemma FinishKeepsHistory(f: Flash, s: State, success: bool, value: u16)
    requires Matched(f, s) && Enabled(s, Finish(success, value))
    ensures var t := FinishStep(s, success, value);
            HistoryFits(t) && ResultsFit(t) && Replay(f, t.log) == Some(t.dev.flash)
  {
    hide Safe;
    hide Conserved;
    hide Atomic;
    hide Raised;
    var t := FinishStep(s, success, value);
    PerformedIsAtomic(s.dev.flash, Holder(s).req, success, value);
    LoggedKeepsHistory(s, t, s.lock.value, t.log[|s.log|]);
    ReplayAppend(f, s.log, t.log[|s.log|]);
  }

  lemma FinishKeepsMatched(f: Flash, s: State, success: bool, value: u16)
    requires Matched(f, s) && Enabled(s, Finish(success, value))
    ensures Matched(f, FinishStep(s, success, value))
  {
    hide Safe;
    hide HistoryFits;
    hide ResultsFit;
    hide Replay;
    hide Raised;
    var t := FinishStep(s, success, value);
    FinishConserves(f, s, success, value);
    FinishKeepsHistory(f, s, success, value);
    OutsideKeepsSafe(s, t);
    FinishLatches(s, success, value);
  }

  /** A step of the interrupt thread or of unrelated causes. */
  lemma IrqKeepsMatched(f: Flash, s: State, t: State)
    requires Matched(f, s)
    requires t == s.(irq := t.irq, dropped := t.dropped, word := t.word)
    requires t.word == s.word || (s.word == Pending && t.word == Handled(Pending, true) && CompleteHeld(s))
                              || (s.word == Pending && t.word == Handled(Pending, false) && ErrorHeld(s))
    requires Conserved(t)
    requires CompleteLatched(t) || CompleteHeld(t) ==> CompleteLatched(s) || CompleteHeld(s)
    requires ErrorLatched(t) || ErrorHeld(t) ==> ErrorLatched(s) || ErrorHeld(s)
    ensures Matched(f, t)
  {
    OutsideKeepsSafe(s, t);
  }

  /** One line of a pass moves its own token into the word, or drops it. */
  lemma LineTokens(s: State)
    requires Enabled(s, RunLine)
    ensures var t := LineStep(s);
            var line, hit := s.irq.pass.line, Fires(s.irq.pass.line, s.irq.pass.ifgValue, s.irq.pass.errValue);
            var complete, error := line == CompleteLine(s.channel) && hit, line == ErrorLine(s.channel) && hit;
            && t == s.(irq := t.irq, dropped := t.dropped, word := t.word)
            && CompleteLatched(t) == CompleteLatched(s) && ErrorLatched(t) == ErrorLatched(s)
            && CompleteHeld(t) == (CompleteHeld(s) && !complete) && ErrorHeld(t) == (ErrorHeld(s) && !error)
            && (complete ==> CompleteHeld(s)) && (error ==> ErrorHeld(s)) && !(complete && error)
            && t.dropped == s.dropped + Count((complete || error) && !s.irq.mask[line])
            && t.word == if (complete || error) && s.irq.mask[line] then Handled(s.word, complete) else s.word
  {
  }

  lemma LineKeepsMatched(f: Flash, s: State)
    requires Matched(f, s) && Enabled(s, RunLine)
    ensures Matched(f, LineStep(s))
  {
    LineTokens(s);
    var t := LineStep(s);
    hide CompleteLatched;
    hide ErrorLatched;
    hide CompleteHeld;
    hide ErrorHeld;
    hide LineStep;
    hide Fires;
    IrqKeepsMatched(f, s, t);
  }

  lemma ReadsKeepMatched(f: Flash, s: State, e: Event)
    requires Matched(f, s) && Enabled(s, e) && (e.ReadIfg? || e.ReadErr?)
    ensures Matched(f, Next(s, e))
  {
    hide Safe;
    hide HistoryFits;
    hide ResultsFit;
    hide Replay;
    hide HolderFits;
    IrqKeepsMatched(f, s, Next(s, e));
  }

  lemma NoiseLeavesTokens(s: State, i: bv16, r: bv16)
    requires Enabled(s, Noise(i, r))
    ensures var t := Next(s, Noise(i, r));
            && CompleteLatched(t) == CompleteLatched(s) && ErrorLatched(t) == ErrorLatched(s)
            && CompleteHeld(t) == CompleteHeld(s) && ErrorHeld(t) == ErrorHeld(s)
  {
    hide Has;
    hide Raised;
    RaisedHas(s.irq.ifg, i, CompleteBit(s.channel));
    RaisedHas(s.irq.err, r, ErrorBit(s.channel));
  }

  lemma NoiseKeepsMatched(f: Flash, s: State, i: bv16, r: bv16)
    requires Matched(f, s) && Enabled(s, Noise(i, r))
    ensures Matched(f, Next(s, Noise(i, r)))
  {
    NoiseLeavesTokens(s, i, r);
    hide CompleteLatched;
    hide ErrorLatched;
    hide CompleteHeld;
    hide ErrorHeld;
    IrqKeepsMatched(f, s, Next(s, Noise(i, r)));
  }

  lemma NextKeepsMatched(f: Flash, s: State, e: Event)
    requires Matched(f, s) && Enabled(s, e) && !e.Spurious?
    ensures Matched(f, Next(s, e))
  {
    if e.SetMask? {
      IrqKeepsMatched(f, s, Next(s, e));
    } else {
      hide Matched;
      match e
      case NewCall(_) => ArrivalKeepsMatched(f, s, e);
      case Interrupted(_) => ArrivalKeepsMatched(f, s, e);
      case Acquire(_) => ArrivalKeepsMatched(f, s, e);
      case Step(ok) => StepKeepsMatched(f, s, ok);
      case Finish(success, value) => FinishKeepsMatched(f, s, success, value);
      case ReadIfg(_, _) => ReadsKeepMatched(f, s, e);
      case ReadErr(_, _) => ReadsKeepMatched(f, s, e);
      case RunLine => LineKeepsMatched(f, s);
      case Noise(i, r) => NoiseKeepsMatched(f, s, i, r);
    }
  }

  // Runs

  /** Interrupts come only from the device. */
  predicate Genuine(es: seq<Event>) {
    forall i :: 0 <= i < |es| ==> !es[i].Spurious?
  }

  lemma {:induction false} RunKeepsMatched(f: Flash, s: State, es: seq<Event>)
    requires Matched(f, s) && Possible(s, es) && Genuine(es)
    ensures Matched(f, Exec(s, es))
    decreases |es|
  {
    hide Matched;
    hide Next;
    if es != [] {
      NextKeepsMatched(f, s, es[0]);
      RunKeepsMatched(f, Next(s, es[0]), es[1..]);
    }
  }

  /** The position of a call's operation in the history, found without looking at the call's slot. */
  ghost predicate AnsweredAt(c: Call, id: nat, log: seq<Entry>, k: nat) {
    k < |log| && log[k].id == id && Answers(c.req, log[k].resp, c.rc, c.out)
  }

  ghost predicate Absent(id: nat, log: seq<Entry>) {
    forall k :: 0 <= k < |log| ==> log[k].id != id
  }

  /**
   `log` is a sequential execution of the calls on one atomic memory that turns `before` into
   `after` and gives every finished call the result it returned.
   */
  ghost predicate Linearizes(before: Flash, after: Flash, calls: seq<Call>, log: seq<Entry>) {
    && Replay(before, log) == Some(after)
    && (forall k :: 0 <= k < |log| ==> log[k].id < |calls| && log[k].req == calls[log[k].id].req && CarriedOut(log[k]))
    && (forall j, k :: 0 <= j < k < |log| ==> log[j].id != log[k].id)
    && (forall id :: 0 <= id < |calls| && calls[id].pc == Returned ==>
          || (exists k :: AnsweredAt(calls[id], id, log, k))
          || (Absent(id, log) && NoEffect(calls[id].req, calls[id].rc) && calls[id].out == None))
  }

  lemma MatchedLinearizes(f: Flash, s: State)
    requires Matched(f, s)
    ensures Linearizes(f, s.dev.flash, s.calls, s.log)
  {
    forall j, k | 0 <= j < k < |s.log| ensures s.log[j].id != s.log[k].id {
      assert s.calls[s.log[j].id].slot == Some(j) && s.calls[s.log[k].id].slot == Some(k);
    }
    forall id | 0 <= id < |s.calls| && s.calls[id].pc == Returned
      ensures || (exists k :: AnsweredAt(s.calls[id], id, s.log, k))
              || (Absent(id, s.log) && NoEffect(s.calls[id].req, s.calls[id].rc) && s.calls[id].out == None)
    {
      assert ResultFits(s.calls[id], s.log);
      if s.calls[id].slot.Some? {
        assert AnsweredAt(s.calls[id], id, s.log, s.calls[id].slot.value);
      }
    }
  }

  /** Every interleaving of calls acts as some sequence of atomic operations, each on its own address. */
  lemma CallsLinearize(s: State, es: seq<Event>)
    requires Initial(s) && Possible(s, es) && Genuine(es)
    ensures Linearizes(s.dev.flash, Exec(s, es).dev.flash, Exec(s, es).calls, Exec(s, es).log)
  {
    hide Next;
    hide Matched;
    hide Linearizes;
    InitialIsMatched(s);
    RunKeepsMatched(s.dev.flash, s, es);
    MatchedLinearizes(s.dev.flash, Exec(s, es));
  }

  /**
   A general command that returned success with an output returned the device's answer to its own
   command and input; one that returned the command failure had its own command rejected.
   */
  lemma GencmdResponse(s: State, es: seq<Event>, id: nat) returns (k: nat)
    requires Initial(s) && Possible(s, es) && Genuine(es)
    requires id < |Exec(s, es).calls| && Exec(s, es).calls[id].pc == Returned && Exec(s, es).calls[id].req.Gencmd?
    requires Exec(s, es).calls[id].rc == Ok || Exec(s, es).calls[id].rc == EGencmdFail
    ensures var c, log := Exec(s, es).calls[id], Exec(s, es).log;
            && k < |log| && log[k].id == id
            && log[k].op == Some(Execute(c.req.cmd, c.req.input))
            && (c.rc == Ok ==> log[k].resp.Success? && (c.req.wantOutput ==> c.out == Some(log[k].resp.value)))
            && (c.rc == EGencmdFail ==> log[k].resp.Rejected?)
    ensures forall j :: 0 <= j < |Exec(s, es).log| && Exec(s, es).log[j].id == id ==> j == k
  {
    hide Next;
    var t := Exec(s, es);
    InitialIsMatched(s);
    RunKeepsMatched(s.dev.flash, s, es);
    assert ResultFits(t.calls[id], t.log);
    k := t.calls[id].slot.value;
    assert CarriedOut(t.log[k]);
  }

  ghost predicate Grows(s: State, t: State) {
    |s.calls| <= |t.calls| && s.log <= t.log
  }

  lemma NextGrows(s: State, e: Event)
    requires Enabled(s, e)
    ensures Grows(s, Next(s, e))
  {
    if e.Step? {
      match Holder(s).pc
      case Checking =>
      case Starting =>
      case Addressing =>
      case Triggering =>
      case Settling(_) =>
      case Reading =>
      case _ =>
    }
  }

  lemma {:induction false} RunGrows(s: State, es: seq<Event>)
    requires Possible(s, es)
    ensures Grows(s, Exec(s, es))
    decreases |es|
  {
    hide Next;
    if es != [] {
      NextGrows(s, es[0]);
      RunGrows(Next(s, es[0]), es[1..]);
    }
  }

  /** The sequential order respects real time: a call that returned precedes every call made afterwards. */
  lemma RealTimeOrder(s: State, es: seq<Event>, more: seq<Event>, j: nat, k: nat)
    requires Initial(s) && Possible(s, es) && Genuine(es)
    requires Possible(Exec(s, es), more) && Genuine(more)
    requires j < |Exec(Exec(s, es), more).log| && k < |Exec(Exec(s, es), more).log|
    requires var id := Exec(Exec(s, es), more).log[j].id;
             id < |Exec(s, es).calls| && Exec(s, es).calls[id].pc == Returned
    requires Exec(Exec(s, es), more).log[k].id >= |Exec(s, es).calls|
    ensures j < k
  {
    hide Next;
    hide Exec;
    var f, mid := s.dev.flash, Exec(s, es);
    var end := Exec(mid, more);
    InitialIsMatched(s);
    RunKeepsMatched(f, s, es);
    RunKeepsMatched(f, mid, more);
    RunGrows(mid, more);
    ReturnedIsFinal(f, mid, more, end.log[j].id);
  }

  predicate SameReturned(s: State, t: State, id: nat) {
    id < |s.calls| && id < |t.calls| && s.calls[id] == t.calls[id] && t.calls[id].pc == Returned
  }

  lemma ReturnedStays(s: State, e: Event, id: nat)
    requires Enabled(s, e) && id < |s.calls| && s.calls[id].pc == Returned
    requires s.lock != Some(id) && (s.dev.job.Some? ==> s.dev.job.value.owner != id)
    ensures SameReturned(s, Next(s, e), id)
  {
    if e.Step? {
      match Holder(s).pc
      case Checking =>
      case Starting =>
      case Addressing =>
      case Triggering =>
      case Settling(_) =>
      case Reading =>
      case _ =>
    }
  }

  /** A returned call never changes again. */
  lemma {:induction false} ReturnedIsFinal(f: Flash, s: State, es: seq<Event>, id: nat)
    requires Matched(f, s) && Possible(s, es) && Genuine(es) && id < |s.calls| && s.calls[id].pc == Returned
    ensures SameReturned(s, Exec(s, es), id)
    decreases |es|
  {
    assert s.lock != Some(id) && (s.dev.job.Some? ==> s.dev.job.value.owner != id);
    hide Matched;
    hide Next;
    if es != [] {
      NextKeepsMatched(f, s, es[0]);
      ReturnedStays(s, es[0], id);
      ReturnedIsFinal(f, Next(s, es[0]), es[1..], id);
    }
  }
}
