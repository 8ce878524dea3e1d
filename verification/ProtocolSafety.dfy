/**
 What the handshake keeps under any interrupts, spurious and duplicate ones included, and
 under any bus failure.
 */
module ProtocolSafety {
  import opened Common
  import opened IrqLines
  import opened Protocol
  import opened Words

  /** A request has been started and not settled yet. */
  predicate Open(s: State) {
    && Held(s) && Waits(Holder(s).req)
    && match Holder(s).pc {
         case Addressing => true
         case Triggering => true
         case RollingBack => true
         case Waiting => true
         case Sampling => true
         case Settling(_) => true
         case _ => false
       }
  }

  predicate PcFits(req: Req, pc: Pc) {
    match pc
    case Checking => req.InfoRead? || req.SetMode? || req.Checksum?
    case Starting => Waits(req)
    case Addressing => !req.SetMode? && !req.Checksum? && !req.GetMode? && !req.WriteEnable?
    case Triggering => Waits(req) || req.WriteEnable?
    case RollingBack => Waits(req)
    case Waiting => Waits(req)
    case Sampling => Waits(req)
    case Settling(_) => Waits(req)
    case Reading => (req.Gencmd? && req.wantOutput) || (!Waits(req) && !req.WriteEnable?)
    case _ => true
  }

  /** The mutex is held by exactly the one call that is inside the critical section. */
  ghost predicate Exclusive(s: State) {
    && (s.lock.Some? ==> s.lock.value < |s.calls| && Holder(s).pc != Entering && Holder(s).pc != Returned)
    && forall id :: 0 <= id < |s.calls| && s.lock != Some(id) ==>
         s.calls[id].pc == Entering || s.calls[id].pc == Returned
  }

  /** What the position of the lock holder says about the state word. */
  predicate WordFits(s: State) {
    && (Open(s) ==> s.word != Idle)
    && (!Open(s) ==> s.word != Pending)
    && (Held(s) && Holder(s).pc == Sampling ==> s.word == Done || s.word == Failed)
    && (Held(s) && Holder(s).pc.Settling? ==> s.word == Holder(s).pc.seen && (s.word == Done || s.word == Failed))
    && (Held(s) && Holder(s).pc == Reading && Holder(s).req.Gencmd? ==> s.word == Idle)
  }

  ghost predicate Safe(s: State) {
    && Exclusive(s)
    && (Held(s) ==> PcFits(Holder(s).req, Holder(s).pc) && ReqChannel(Holder(s).req) == s.channel)
    && (forall id :: 0 <= id < |s.calls| ==> ReqChannel(s.calls[id].req) == s.channel)
    && WordFits(s)
  }

  /** A step that only moves the lock holder, inside the critical section. */
  lemma MovedKeepsSafe(s: State, t: State)
    requires Safe(s) && Held(s)
    requires t.channel == s.channel && t.lock == s.lock && |t.calls| == |s.calls|
    requires forall id :: 0 <= id < |s.calls| && id != s.lock.value ==> t.calls[id] == s.calls[id]
    requires Holder(t).req == Holder(s).req && Holder(t).pc != Entering && Holder(t).pc != Returned
    requires PcFits(Holder(t).req, Holder(t).pc) && WordFits(t)
    ensures Safe(t)
  {
  }

  lemma CheckKeepsSafe(s: State, ok: bool)
    requires Safe(s) && Held(s) && Holder(s).pc == Checking
    ensures Safe(CheckStep(s, ok))
  {
    MovedKeepsSafe(s, CheckStep(s, ok));
  }

  lemma StartKeepsSafe(s: State)
    requires Safe(s) && Held(s) && Holder(s).pc == Starting
    ensures Safe(StartStep(s))
  {
    MovedKeepsSafe(s, StartStep(s));
  }

  lemma AddressKeepsSafe(s: State, ok: bool)
    requires Safe(s) && Held(s) && Holder(s).pc == Addressing
    ensures Safe(AddressStep(s, ok))
  {
    MovedKeepsSafe(s, AddressStep(s, ok));
  }

  lemma TriggerKeepsSafe(s: State, ok: bool)
    requires Safe(s) && Held(s) && Holder(s).pc == Triggering
    ensures Safe(TriggerStep(s, ok))
  {
    MovedKeepsSafe(s, TriggerStep(s, ok));
  }

  lemma RollbackKeepsSafe(s: State)
    requires Safe(s) && Held(s) && Holder(s).pc == RollingBack
    ensures Safe(RollbackStep(s))
  {
    MovedKeepsSafe(s, RollbackStep(s));
  }

  lemma SettleKeepsSafe(s: State)
    requires Safe(s) && Held(s) && Holder(s).pc.Settling?
    ensures Safe(SettleStep(s, Holder(s).pc.seen))
  {
    MovedKeepsSafe(s, SettleStep(s, Holder(s).pc.seen));
  }

  lemma ReadKeepsSafe(s: State, ok: bool)
    requires Safe(s) && Held(s) && Holder(s).pc == Reading
    ensures Safe(ReadStep(s, ok))
  {
    MovedKeepsSafe(s, ReadStep(s, ok));
  }

  lemma WaitKeepsSafe(s: State)
    requires Safe(s) && Held(s) && (Holder(s).pc == Sampling || (Holder(s).pc == Waiting && s.word != Pending))
    ensures Safe(HolderStep(s, true))
  {
    MovedKeepsSafe(s, HolderStep(s, true));
  }

  lemma LeaveKeepsSafe(s: State)
    requires Safe(s) && Held(s) && Holder(s).pc == Leaving
    ensures Safe(HolderStep(s, true))
  {
  }

  lemma StepKeepsSafe(s: State, ok: bool)
    requires Safe(s) && Enabled(s, Step(ok))
    ensures Safe(HolderStep(s, ok))
  {
    assert Holder(s).pc != Entering && Holder(s).pc != Returned;
    hide Safe;
    match Holder(s).pc
    case Checking => CheckKeepsSafe(s, ok);
    case Starting => StartKeepsSafe(s);
    case Addressing => AddressKeepsSafe(s, ok);
    case Triggering => TriggerKeepsSafe(s, ok);
    case RollingBack => RollbackKeepsSafe(s);
    case Waiting => WaitKeepsSafe(s);
    case Sampling => WaitKeepsSafe(s);
    case Settling(_) => SettleKeepsSafe(s);
    case Reading => ReadKeepsSafe(s, ok);
    case Leaving => LeaveKeepsSafe(s);
  }

  /** Calls outside the critical section, and the one that enters it. */
  lemma ArrivalKeepsSafe(s: State, e: Event)
    requires Safe(s) && Enabled(s, e) && (e.NewCall? || e.Interrupted? || e.Acquire?)
    ensures Safe(Next(s, e))
  {
  }

  /** A step that leaves the calls and the mutex alone and moves the word only out of Pending. */
  lemma OutsideKeepsSafe(s: State, t: State)
    requires Safe(s) && t.channel == s.channel && t.lock == s.lock
    requires t.word == s.word || (s.word == Pending && (t.word == Done || t.word == Failed))
    requires |t.calls| == |s.calls|
    requires forall id :: 0 <= id < |s.calls| ==> t.calls[id].req == s.calls[id].req && t.calls[id].pc == s.calls[id].pc
    ensures Safe(t)
  {
  }

  lemma NextKeepsSafe(s: State, e: Event)
    requires Safe(s) && Enabled(s, e)
    ensures Safe(Next(s, e))
  {
    hide Safe;
    if e.Step? {
      StepKeepsSafe(s, e.busOk);
    } else if e.NewCall? || e.Interrupted? || e.Acquire? {
      ArrivalKeepsSafe(s, e);
    } else {
      OutsideKeepsSafe(s, Next(s, e));
    }
  }

  lemma {:induction false} RunKeepsSafe(s: State, es: seq<Event>)
    requires Safe(s) && Possible(s, es)
    ensures Safe(Exec(s, es))
    decreases |es|
  {
    hide Safe;
    hide Next;
    if es != [] {
      NextKeepsSafe(s, es[0]);
      RunKeepsSafe(Next(s, es[0]), es[1..]);
    }
  }

  lemma InitialIsSafe(s: State)
    requires Initial(s)
    ensures Safe(s)
  {
  }

  /** Who moves the state word, and between which values. */
  ghost predicate WordMove(s: State, e: Event, t: State) {
    && (s.word != t.word && !e.Step? ==>
          (e.RunLine? || e.Spurious?) && s.word == Pending && (t.word == Done || t.word == Failed))
    && (s.word != t.word && e.Step? ==>
          && Held(s)
          && match Holder(s).pc {
               case Starting => s.word == Idle && t.word == Pending
               case RollingBack => s.word == Pending && t.word == Idle
               case Settling(seen) => (s.word == Done || s.word == Failed) && seen == s.word && t.word == Idle
               case _ => false
             })
  }

  lemma EveryMoveFits(s: State, e: Event)
    requires Safe(s) && Enabled(s, e)
    ensures WordMove(s, e, Next(s, e))
  {
    if e.Step? {
      match Holder(s).pc
      case Checking =>
      case Starting =>
      case Addressing =>
      case Triggering =>
      case RollingBack =>
      case Waiting =>
      case Sampling =>
      case Settling(_) =>
      case Reading =>
      case Leaving =>
    }
  }

  /** Whatever interrupts arrived, in every run each step of the word has a fixed owner. */
  lemma WordMovesInEveryRun(s: State, es: seq<Event>, e: Event)
    requires Initial(s) && Possible(s, es) && Enabled(Exec(s, es), e)
    ensures WordMove(Exec(s, es), e, Next(Exec(s, es), e))
  {
    hide WordMove;
    hide Next;
    hide Safe;
    InitialIsSafe(s);
    RunKeepsSafe(s, es);
    EveryMoveFits(Exec(s, es), e);
  }

  /** What a call gets when its wait is over. */
  ghost predicate SettledWell(s: State, t: State)
    requires Held(s) && Held(t)
  {
    var req := Holder(s).req;
    && t.word == Idle
    && (s.word == Done || s.word == Failed)
    && (s.word == Done && req.Gencmd? && req.wantOutput ==> Holder(t).pc == Reading)
    && (s.word == Done && !(req.Gencmd? && req.wantOutput) ==> Holder(t).pc == Leaving && Holder(t).rc == Ok)
    && (s.word == Failed ==> Holder(t).pc == Leaving && Holder(t).rc == FailureRc(req))
  }

  /** The compare-and-swap out of Done or Failed succeeds and no "execution error" branch is taken. */
  lemma NoExecutionError(s: State, es: seq<Event>, ok: bool)
    requires Initial(s) && Possible(s, es)
    requires Held(Exec(s, es)) && Holder(Exec(s, es)).pc.Settling?
    ensures Held(HolderStep(Exec(s, es), ok)) && SettledWell(Exec(s, es), HolderStep(Exec(s, es), ok))
  {
    InitialIsSafe(s);
    RunKeepsSafe(s, es);
  }

  /** The branch that is never taken returns the I/O error for an erase and the internal error for the others. */
  lemma UnexpectedWord(s: State, seen: OpState)
    requires Held(s) && (seen == Idle || seen == Pending)
    ensures Holder(SettleStep(s, seen)).rc == (if Holder(s).req.FlashErase? then EIo else EInternal)
    ensures SettleStep(s, seen).word == s.word && Holder(SettleStep(s, seen)).pc == Leaving
  {
  }

  // The word when no request is open

  predicate Stuck(s: State) {
    !Open(s) && s.word != Idle
  }

  /** A rollback after a failed bus write finds that an interrupt has already moved the word. */
  predicate Poisons(s: State, e: Event) {
    e.Step? && Held(s) && Holder(s).pc == RollingBack && s.word != Pending
  }

  predicate Poisoned(s: State, es: seq<Event>)
    requires Possible(s, es)
    decreases |es|
  {
    es != [] && (Poisons(s, es[0]) || Poisoned(Next(s, es[0]), es[1..]))
  }

  /** A step of the holder that leaves the word stuck exactly if it was. */
  predicate SameStuck(s: State, t: State) {
    Stuck(t) <==> Stuck(s)
  }

  lemma CheckKeepsStuck(s: State, ok: bool)
    requires Safe(s) && Held(s) && Holder(s).pc == Checking
    ensures SameStuck(s, CheckStep(s, ok))
  {
  }

  lemma StartKeepsStuck(s: State)
    requires Safe(s) && Held(s) && Holder(s).pc == Starting
    ensures SameStuck(s, StartStep(s))
  {
  }

  lemma AddressKeepsStuck(s: State, ok: bool)
    requires Safe(s) && Held(s) && Holder(s).pc == Addressing
    ensures SameStuck(s, AddressStep(s, ok))
  {
  }

  lemma TriggerKeepsStuck(s: State, ok: bool)
    requires Safe(s) && Held(s) && Holder(s).pc == Triggering
    ensures SameStuck(s, TriggerStep(s, ok))
  {
  }

  lemma RollbackStuckIff(s: State)
    requires Safe(s) && Held(s) && Holder(s).pc == RollingBack
    ensures !Stuck(s) && (Stuck(RollbackStep(s)) <==> s.word != Pending)
  {
  }

  lemma SettleKeepsStuck(s: State)
    requires Safe(s) && Held(s) && Holder(s).pc.Settling?
    ensures SameStuck(s, SettleStep(s, Holder(s).pc.seen))
  {
  }

  lemma ReadKeepsStuck(s: State, ok: bool)
    requires Safe(s) && Held(s) && Holder(s).pc == Reading
    ensures SameStuck(s, ReadStep(s, ok))
  {
  }

  lemma MoveKeepsStuck(s: State, ok: bool)
    requires Safe(s) && Held(s) && (Holder(s).pc == Waiting || Holder(s).pc == Sampling || Holder(s).pc == Leaving)
    ensures SameStuck(s, HolderStep(s, ok))
  {
  }

  lemma HolderStuckStep(s: State, ok: bool)
    requires Safe(s) && Enabled(s, Step(ok))
    ensures Stuck(HolderStep(s, ok)) <==> Stuck(s) || Poisons(s, Step(ok))
  {
    hide Safe;
    hide Stuck;
    HolderInside(s);
    match Holder(s).pc
    case Checking => CheckKeepsStuck(s, ok);
    case Starting => StartKeepsStuck(s);
    case Addressing => AddressKeepsStuck(s, ok);
    case Triggering => TriggerKeepsStuck(s, ok);
    case RollingBack => RollbackStuckIff(s);
    case Settling(_) => SettleKeepsStuck(s);
    case Reading => ReadKeepsStuck(s, ok);
    case _ => MoveKeepsStuck(s, ok);
  }

  lemma HolderInside(s: State)
    requires Safe(s) && Held(s)
    ensures Holder(s).pc != Entering && Holder(s).pc != Returned && PcFits(Holder(s).req, Holder(s).pc)
  {
  }

  lemma ArrivalKeepsStuck(s: State, e: Event)
    requires Safe(s) && Enabled(s, e) && (e.NewCall? || e.Interrupted? || e.Acquire?)
    ensures SameStuck(s, Next(s, e))
  {
  }

  lemma OutsideKeepsStuck(s: State, t: State)
    requires Safe(s) && t.lock == s.lock && |t.calls| == |s.calls|
    requires t.word == s.word || (s.word == Pending && (t.word == Done || t.word == Failed))
    requires forall id :: 0 <= id < |s.calls| ==> t.calls[id].req == s.calls[id].req && t.calls[id].pc == s.calls[id].pc
    ensures SameStuck(s, t)
  {
  }

  lemma StuckStep(s: State, e: Event)
    requires Safe(s) && Enabled(s, e)
    ensures Stuck(Next(s, e)) <==> Stuck(s) || Poisons(s, e)
  {
    hide Safe;
    hide Stuck;
    if e.Step? {
      HolderStuckStep(s, e.busOk);
    } else if e.NewCall? || e.Interrupted? || e.Acquire? {
      ArrivalKeepsStuck(s, e);
    } else {
      OutsideKeepsStuck(s, Next(s, e));
    }
  }

  lemma {:induction false} StuckIffPoisoned(s: State, es: seq<Event>)
    requires Safe(s) && Possible(s, es)
    ensures Stuck(Exec(s, es)) <==> Stuck(s) || Poisoned(s, es)
    decreases |es|
  {
    hide Safe;
    hide Next;
    hide Stuck;
    hide Poisons;
    if es != [] {
      NextKeepsSafe(s, es[0]);
      StuckStep(s, es[0]);
      StuckIffPoisoned(Next(s, es[0]), es[1..]);
    }
  }

  /** With the mutex free the word is Idle exactly when no rollback lost its race in the run. */
  lemma LockFreeIdleIff(s: State, es: seq<Event>)
    requires Initial(s) && Possible(s, es) && Exec(s, es).lock == None
    ensures Exec(s, es).word == Idle <==> !Poisoned(s, es)
  {
    hide Next;
    InitialIsSafe(s);
    StuckIffPoisoned(s, es);
  }

  /** The start of a request, an interrupt, and the bus write that fails. */
  function PoisoningEvents(): seq<Event> {
    [NewCall(Gencmd(0, 0, false)), Acquire(0), Step(true), Spurious(true), Step(false), Step(true), Step(true)]
  }

  lemma StartedFirst(s: State)
    requires Initial(s) && s.channel == GencmdChannel
    ensures Possible(s, PoisoningEvents()[..3])
    ensures var t := Exec(s, PoisoningEvents()[..3]);
            Held(t) && Holder(t).pc == Addressing && Waits(Holder(t).req) && t.word == Pending
  {
    var s1 := Next(s, NewCall(Gencmd(0, 0, false)));
    var s2 := Next(s1, Acquire(0));
    ExecPrepend(s2, Step(true), []);
    ExecPrepend(s1, Acquire(0), [Step(true)]);
    ExecPrepend(s, NewCall(Gencmd(0, 0, false)), [Acquire(0), Step(true)]);
    assert PoisoningEvents()[..3] == [NewCall(Gencmd(0, 0, false))] + [Acquire(0), Step(true)];
  }

  lemma RacedLast(s: State)
    requires Held(s) && Holder(s).pc == Addressing && Waits(Holder(s).req) && s.word == Pending
    ensures Possible(s, PoisoningEvents()[3..])
    ensures var t := Exec(s, PoisoningEvents()[3..]); t.lock == None && t.word == Done
  {
    var s4 := Next(s, Spurious(true));
    var s5 := Next(s4, Step(false));
    var s6 := Next(s5, Step(true));
    assert Holder(s6).pc == Leaving && s6.word == Done && Holder(s5).pc == RollingBack && Holder(s4).pc == Addressing;
    assert Enabled(s, Spurious(true)) && Enabled(s4, Step(false)) && Enabled(s5, Step(true));
    LeavesDone(s6);
    hide Next;
    hide Enabled;
    ExecPrepend(s6, Step(true), []);
    ExecPrepend(s5, Step(true), [Step(true)]);
    ExecPrepend(s4, Step(false), [Step(true), Step(true)]);
    ExecPrepend(s, Spurious(true), [Step(false), Step(true), Step(true)]);
    assert PoisoningEvents()[3..] == [Spurious(true)] + [Step(false), Step(true), Step(true)];
  }

  /** A run that leaves the word Done with the mutex free: the interrupt comes before the bus write fails. */
  lemma PoisonedRun(s: State) returns (es: seq<Event>)
    requires Initial(s) && s.channel == GencmdChannel
    ensures Possible(s, es) && Exec(s, es).lock == None && Exec(s, es).word == Done
  {
    hide Next;
    hide Enabled;
    es := PoisoningEvents();
    StartedFirst(s);
    RacedLast(Exec(s, es[..3]));
    ExecAppend(s, es[..3], es[3..]);
    assert es == es[..3] + es[3..];
  }

  lemma LeavesDone(s: State)
    requires Held(s) && Holder(s).pc == Leaving && s.word == Done
    ensures Enabled(s, Step(true)) && Next(s, Step(true)).lock == None && Next(s, Step(true)).word == Done
  {
  }

  /** A call in progress can take the mutex or a step, unless the holder waits in Pending. */
  lemma NoDeadlock(s: State, es: seq<Event>, id: nat)
    requires Initial(s) && Possible(s, es) && id < |Exec(s, es).calls| && Exec(s, es).calls[id].pc != Returned
    ensures var t := Exec(s, es);
            || Enabled(t, Acquire(id))
            || Enabled(t, Step(true))
            || (Held(t) && Holder(t).pc == Waiting && t.word == Pending && Waits(Holder(t).req))
  {
    hide Next;
    InitialIsSafe(s);
    RunKeepsSafe(s, es);
  }

  /** What the others can do in any state: nothing that the driver does keeps them from it. */
  lemma OthersAreFree(s: State, line: Line, on: bool, success: bool, ifg: bv16, err: bv16, req: Req, id: nat)
    ensures Enabled(s, SetMask(line, on)) && Enabled(s, Spurious(success))
    ensures ReqChannel(req) == s.channel ==> Enabled(s, NewCall(req))
    ensures id < |s.calls| && s.calls[id].pc == Entering ==>
              Enabled(s, Interrupted(id)) && (s.lock == None ==> Enabled(s, Acquire(id)))
    ensures s.irq.pass == NoPass ==> Enabled(s, ReadIfg(on, success))
    ensures s.dev.job.Some? && s.dev.job.value.owner < |s.calls| ==> Enabled(s, Finish(false, 0))
    ensures !Has(ifg, CompleteBit(s.channel)) && !Has(err, ErrorBit(s.channel)) ==> Enabled(s, Noise(ifg, err))
  {
    hide Has;
    hide CompleteBit;
    hide ErrorBit;
  }

  // The race between the start of a request and its rollback

  /** The request is started but the device has not been told, or telling it has failed. */
  predicate InWindow(s: State) {
    && Held(s) && Waits(Holder(s).req)
    && (Holder(s).pc == Addressing || Holder(s).pc == Triggering || Holder(s).pc == RollingBack)
  }

  predicate HandlerRuns(s: State, e: Event) {
    e.Spurious?
    || (e.RunLine? && s.irq.pass.Dispatch?
        && var Dispatch(line, i, r) := s.irq.pass; Fires(line, i, r) && OwnLine(s.channel, line) && s.irq.mask[line])
  }

  predicate StaysInWindow(s: State, es: seq<Event>)
    requires Possible(s, es)
    decreases |es|
  {
    InWindow(s) && (es == [] || StaysInWindow(Next(s, es[0]), es[1..]))
  }

  predicate AnyHandler(s: State, es: seq<Event>)
    requires Possible(s, es)
    decreases |es|
  {
    es != [] && (HandlerRuns(s, es[0]) || AnyHandler(Next(s, es[0]), es[1..]))
  }

  lemma WindowStep(s: State, e: Event)
    requires Safe(s) && Enabled(s, e) && InWindow(s) && InWindow(Next(s, e))
    ensures Next(s, e).word == Pending <==> s.word == Pending && !HandlerRuns(s, e)
  {
    if e.Step? {
      match Holder(s).pc
      case Addressing =>
      case Triggering =>
      case RollingBack =>
    }
  }

  /** Inside the window the word is still Pending exactly when no interrupt handler has run. */
  lemma {:induction false} WindowRace(s: State, es: seq<Event>)
    requires Safe(s) && Possible(s, es) && StaysInWindow(s, es)
    ensures Exec(s, es).word == Pending <==> s.word == Pending && !AnyHandler(s, es)
    decreases |es|
  {
    hide Safe;
    hide Next;
    hide HandlerRuns;
    if es != [] {
      NextKeepsSafe(s, es[0]);
      assert InWindow(Next(s, es[0])) by { assert StaysInWindow(Next(s, es[0]), es[1..]); }
      hide InWindow;
      WindowStep(s, es[0]);
      WindowRace(Next(s, es[0]), es[1..]);
    }
  }

  lemma HolderOpensPending(s: State, ok: bool)
    requires Safe(s) && Enabled(s, Step(ok)) && !InWindow(s) && InWindow(HolderStep(s, ok))
    ensures HolderStep(s, ok).word == Pending
  {
    hide Safe;
    HolderInside(s);
    match Holder(s).pc
    case Checking =>
    case Starting =>
    case Settling(_) =>
    case Reading =>
    case _ =>
  }

  lemma ArrivalOpensNothing(s: State, e: Event)
    requires Safe(s) && Enabled(s, e) && !e.Step? && !InWindow(s)
    ensures !InWindow(Next(s, e))
  {
  }

  lemma WindowOpensPending(s: State, e: Event)
    requires Safe(s) && Enabled(s, e) && !InWindow(s) && InWindow(Next(s, e))
    ensures Next(s, e).word == Pending
  {
    hide Safe;
    hide InWindow;
    if e.Step? {
      HolderOpensPending(s, e.busOk);
    } else {
      ArrivalOpensNothing(s, e);
    }
  }

  /** Whether a handler has run since the start of the request that is still in its window after `e`. */
  predicate HandledSince(s: State, e: Event, handled: bool)
    requires Enabled(s, e)
  {
    InWindow(s) && InWindow(Next(s, e)) && (handled || HandlerRuns(s, e))
  }

  /**
   Some request of the run has to be rolled back after a handler ran since its start; `handled` says
   whether one has run since the start of the request that is in its window now.
   */
  predicate RaceLost(s: State, es: seq<Event>, handled: bool)
    requires Possible(s, es)
    decreases |es|
  {
    && es != []
    && (|| (handled && es[0].Step? && Held(s) && Holder(s).pc == RollingBack)
        || RaceLost(Next(s, es[0]), es[1..], HandledSince(s, es[0], handled)))
  }

  /** Inside the window the word has left Pending exactly when a handler has run. */
  predicate Witnessed(s: State, handled: bool) {
    InWindow(s) ==> (s.word != Pending <==> handled)
  }

  lemma WitnessedStep(s: State, e: Event, handled: bool)
    requires Safe(s) && Enabled(s, e) && Witnessed(s, handled)
    ensures Witnessed(Next(s, e), HandledSince(s, e, handled))
    ensures Poisons(s, e) <==> handled && e.Step? && Held(s) && Holder(s).pc == RollingBack
  {
    hide HandlerRuns;
    hide Next;
    hide Enabled;
    RollbackIsInWindow(s);
    if InWindow(Next(s, e)) {
      if InWindow(s) {
        WindowStep(s, e);
      } else {
        WindowOpensPending(s, e);
      }
    }
  }

  lemma RollbackIsInWindow(s: State)
    requires Safe(s)
    ensures Held(s) && Holder(s).pc == RollingBack ==> InWindow(s)
  {
  }

  lemma {:induction false} PoisonedIffRaceLost(s: State, es: seq<Event>, handled: bool)
    requires Safe(s) && Possible(s, es) && Witnessed(s, handled)
    ensures Poisoned(s, es) <==> RaceLost(s, es, handled)
    decreases |es|
  {
    hide Safe;
    hide Next;
    hide Enabled;
    hide Poisons;
    hide Witnessed;
    hide HandledSince;
    if es != [] {
      NextKeepsSafe(s, es[0]);
      WitnessedStep(s, es[0], handled);
      PoisonedIffRaceLost(Next(s, es[0]), es[1..], HandledSince(s, es[0], handled));
    }
  }

  /** With the mutex free the word is Idle exactly when no handler ran between a start and its own rollback. */
  lemma LockFreeIdleUnlessRaced(s: State, es: seq<Event>)
    requires Initial(s) && Possible(s, es) && Exec(s, es).lock == None
    ensures Exec(s, es).word == Idle <==> !RaceLost(s, es, false)
  {
    InitialIsSafe(s);
    hide Next;
    hide Safe;
    hide Poisoned;
    hide RaceLost;
    PoisonedIffRaceLost(s, es, false);
    LockFreeIdleIff(s, es);
  }

  // After the race is lost

  /** `id` had not taken the mutex in `base`, or is a call made since. */
  predicate Later(base: State, id: nat) {
    id >= |base.calls| || base.calls[id].pc == Entering
  }

  /** What the checks before the start make of a mode request: they let it go on to the start. */
  predicate ChecksPass(base: State, req: Req) {
    (req.SetMode? || req.Checksum?) ==>
      ValidMode(req.mode) && (base.dev.job == None ==> base.dev.flash.mode != ModeOf(req.mode))
  }

  /** How a waiting request that finds the word stuck ends: by its own checks, or at the start. */
  predicate Refused(base: State, req: Req, rc: Rc) {
    if req.SetMode? || req.Checksum? then
      || (rc == EInval && !ValidMode(req.mode))
      || (rc == EIo && ValidMode(req.mode))
      || (rc == (if req.SetMode? then Ok else EBadMode) && ValidMode(req.mode)
          && (base.dev.job == None ==> base.dev.flash.mode == ModeOf(req.mode)))
      || (rc == EInternal && ChecksPass(base, req))
    else rc == EInternal
  }

  /** A waiting request that can only be turned away. */
  predicate TurnedAway(base: State, c: Call) {
    Waits(c.req) ==>
      match c.pc
      case Entering => true
      case Checking => true
      case Starting => ChecksPass(base, c.req)
      case Leaving => Refused(base, c.req, c.rc)
      case Returned => c.rc == EIntr || Refused(base, c.req, c.rc)
      case _ => false
  }

  /** With no operation in progress the memory and the mode stay what they were. */
  predicate SameMemory(base: Device, dev: Device) {
    base.job == None ==>
      dev.job == None && dev.flash.cells == base.flash.cells && dev.flash.info == base.flash.info
      && dev.flash.mode == base.flash.mode
  }

  ghost predicate StuckSince(base: State, s: State) {
    && Safe(s) && Stuck(s) && s.word == base.word && s.channel == base.channel
    && |base.calls| <= |s.calls|
    && (forall id :: 0 <= id < |s.calls| && Later(base, id) ==> TurnedAway(base, s.calls[id]))
    && (base.channel == GencmdChannel ==> s.busWrites == base.busWrites)
    && SameMemory(base.dev, s.dev)
  }

  lemma StuckSinceMoved(base: State, s: State, t: State)
    requires StuckSince(base, s) && Held(s) && Safe(t) && Stuck(t)
    requires t.channel == s.channel && t.word == s.word && |t.calls| == |s.calls|
    requires forall id :: 0 <= id < |s.calls| && id != s.lock.value ==> t.calls[id] == s.calls[id]
    requires TurnedAway(base, s.calls[s.lock.value]) ==> TurnedAway(base, t.calls[s.lock.value])
    requires s.channel == GencmdChannel ==> t.busWrites == s.busWrites
    requires SameMemory(base.dev, t.dev)
    ensures StuckSince(base, t)
  {
  }

  /** A stuck holder is before the start of a request, after its end, or has no device operation to start. */
  lemma StuckSinceEarly(base: State, s: State, ok: bool)
    requires StuckSince(base, s) && Held(s) && (Holder(s).pc == Checking || Holder(s).pc == Starting)
    ensures StuckSince(base, HolderStep(s, ok))
  {
    StepKeepsSafe(s, ok);
    StuckSinceMoved(base, s, HolderStep(s, ok));
  }

  lemma StuckSinceDirect(base: State, s: State, ok: bool)
    requires StuckSince(base, s) && Held(s)
    requires Holder(s).pc == Addressing || Holder(s).pc == Triggering || Holder(s).pc == Reading
    ensures StuckSince(base, HolderStep(s, ok))
  {
    StepKeepsSafe(s, ok);
    StuckSinceMoved(base, s, HolderStep(s, ok));
  }

  lemma StuckSinceLeaving(base: State, s: State, ok: bool)
    requires StuckSince(base, s) && Held(s) && Holder(s).pc == Leaving
    ensures StuckSince(base, HolderStep(s, ok))
  {
    StepKeepsSafe(s, ok);
  }

  lemma StuckSinceStep(base: State, s: State, ok: bool)
    requires StuckSince(base, s) && Enabled(s, Step(ok))
    ensures StuckSince(base, HolderStep(s, ok))
  {
    assert !Open(s) && Holder(s).pc != Entering && Holder(s).pc != Returned && PcFits(Holder(s).req, Holder(s).pc);
    hide StuckSince;
    match Holder(s).pc
    case Checking => StuckSinceEarly(base, s, ok);
    case Starting => StuckSinceEarly(base, s, ok);
    case Leaving => StuckSinceLeaving(base, s, ok);
    case _ => StuckSinceDirect(base, s, ok);
  }

  lemma StuckSinceArrival(base: State, s: State, e: Event)
    requires StuckSince(base, s) && Enabled(s, e) && (e.NewCall? || e.Interrupted? || e.Acquire?)
    requires Safe(Next(s, e)) && Stuck(Next(s, e))
    ensures StuckSince(base, Next(s, e))
  {
    hide Safe;
    hide Stuck;
    hide SameMemory;
    hide Refused;
  }

  /** A step that leaves the calls' results and the mutex alone. */
  lemma StuckSinceOutside(base: State, s: State, t: State)
    requires StuckSince(base, s) && Safe(t) && Stuck(t)
    requires t.channel == s.channel && t.word == s.word && t.busWrites == s.busWrites && |t.calls| == |s.calls|
    requires forall id :: 0 <= id < |s.calls| ==>
               && t.calls[id].req == s.calls[id].req && t.calls[id].pc == s.calls[id].pc
               && t.calls[id].rc == s.calls[id].rc
    requires SameMemory(base.dev, t.dev)
    ensures StuckSince(base, t)
  {
    hide Safe;
    hide Stuck;
    hide SameMemory;
    hide Refused;
    hide ChecksPass;
  }

  lemma NotPendingStays(s: State, e: Event)
    requires Safe(s) && Stuck(s) && Enabled(s, e) && !e.Step?
    ensures Next(s, e).word == s.word
  {
  }

  lemma StuckSinceNext(base: State, s: State, e: Event)
    requires StuckSince(base, s) && Enabled(s, e)
    ensures StuckSince(base, Next(s, e))
  {
    hide Safe;
    hide Stuck;
    hide TurnedAway;
    hide HolderStep;
    if e.Step? {
      StuckSinceStep(base, s, e.busOk);
    } else {
      NextKeepsSafe(s, e);
      StuckStep(s, e);
      NotPendingStays(s, e);
      if e.NewCall? || e.Interrupted? || e.Acquire? {
        StuckSinceArrival(base, s, e);
      } else {
        StuckSinceOutside(base, s, Next(s, e));
      }
    }
  }

  /** Once stuck, the handshake turns every later waiting request away, for ever. */
  lemma {:induction false} StuckForever(base: State, s: State, es: seq<Event>)
    requires StuckSince(base, s) && Possible(s, es)
    ensures StuckSince(base, Exec(s, es))
    decreases |es|
  {
    hide StuckSince;
    hide Next;
    if es != [] {
      StuckSinceNext(base, s, es[0]);
      StuckForever(base, Next(s, es[0]), es[1..]);
    }
  }

  /** The lock holder writes a register. */
  predicate WritesBus(s: State, e: Event) {
    e.Step? && Held(s) && (Holder(s).pc == Addressing || Holder(s).pc == Triggering)
  }

  function WritesIn(s: State, es: seq<Event>): nat
    requires Possible(s, es)
    decreases |es|
  {
    if es == [] then 0 else Count(WritesBus(s, es[0])) + WritesIn(Next(s, es[0]), es[1..])
  }

  lemma WriteCounted(s: State, e: Event)
    requires Enabled(s, e)
    ensures Next(s, e).busWrites == s.busWrites + Count(WritesBus(s, e))
  {
    if e.Step? {
      match Holder(s).pc
      case Checking =>
      case Starting =>
      case Addressing =>
      case Triggering =>
      case Settling(_) =>
      case Reading =>
      case _ =>
    }
  }

  /** The counter of bus writes counts the holder's register writes. */
  lemma {:induction false} WritesCounted(s: State, es: seq<Event>)
    requires Possible(s, es)
    ensures Exec(s, es).busWrites == s.busWrites + WritesIn(s, es)
    decreases |es|
  {
    hide Next;
    hide Enabled;
    hide WritesBus;
    if es != [] {
      WriteCounted(s, es[0]);
      WritesCounted(Next(s, es[0]), es[1..]);
    }
  }

  /** No later general command is written to the bus, and each returns the internal error. */
  lemma StuckGencmdFails(s: State, es: seq<Event>, id: nat)
    requires Safe(s) && Stuck(s) && s.channel == GencmdChannel && Possible(s, es)
    requires id < |Exec(s, es).calls| && Later(s, id) && Exec(s, es).calls[id].pc == Returned
    ensures Exec(s, es).calls[id].rc == EIntr || Exec(s, es).calls[id].rc == EInternal
    ensures WritesIn(s, es) == 0 && Exec(s, es).word == s.word
  {
    assert StuckSince(s, s);
    StuckForever(s, s, es);
    WritesCounted(s, es);
  }

  /**
   No later flash operation is started: writes and erases return the internal error, mode switches and
   checksum checks what their checks say or the internal error, and the memory keeps its contents.
   */
  lemma StuckFlashFails(s: State, es: seq<Event>, id: nat)
    requires Safe(s) && Stuck(s) && s.channel == FlashChannel && Possible(s, es)
    requires id < |Exec(s, es).calls| && Later(s, id) && Exec(s, es).calls[id].pc == Returned
    requires Waits(Exec(s, es).calls[id].req)
    ensures var c := Exec(s, es).calls[id];
            && (c.rc == EIntr || Refused(s, c.req, c.rc))
            && (c.req.FlashWrite? || c.req.FlashErase? ==> c.rc == EIntr || c.rc == EInternal)
    ensures Exec(s, es).word == s.word && SameMemory(s.dev, Exec(s, es).dev)
  {
    assert StuckSince(s, s);
    StuckForever(s, s, es);
  }
}
