/**
 Why a call returned what it returned: the error codes of a call are tied to what happened in the run
 to that very call, in every run and under any interrupts.
 */
module ProtocolResults {
  import opened Common
  import opened Protocol
  import opened ProtocolSafety
  import opened ProtocolMatching

  // What can happen to a call

  /** A request that is refused for its arguments. */
  predicate Invalid(req: Req) {
    match req
    case InfoRead(a) => a >= 64
    case SetMode(m) => m != 1 && m != 2
    case Checksum(m) => m != 1 && m != 2
    case _ => false
  }

  /** The statement at `pc` makes one access to the bus. */
  predicate UsesBus(req: Req, pc: Pc) {
    match pc
    case Checking => !req.InfoRead? && !Invalid(req)
    case Addressing => true
    case Triggering => true
    case Reading => true
    case _ => false
  }

  predicate OwnStep(s: State, e: Event, id: nat) {
    e.Step? && Held(s) && s.lock == Some(id)
  }

  /** A bus access of call `id` fails. */
  predicate AccessFails(s: State, e: Event, id: nat) {
    OwnStep(s, e, id) && !e.busOk && UsesBus(Holder(s).req, Holder(s).pc)
  }

  /** Call `id` rolls back its request after a handler ran since its start, as `handled` says. */
  predicate LosesRollback(s: State, e: Event, id: nat, handled: bool) {
    handled && OwnStep(s, e, id) && Holder(s).pc == RollingBack
  }

  /** Call `id` finds the word not Idle when it is to start its request. */
  predicate IsRefused(s: State, e: Event, id: nat) {
    OwnStep(s, e, id) && Holder(s).pc == Starting && s.word != Idle
  }

  predicate AnyAccessFailed(s: State, es: seq<Event>, id: nat)
    requires Possible(s, es)
    decreases |es|
  {
    es != [] && (AccessFails(s, es[0], id) || AnyAccessFailed(Next(s, es[0]), es[1..], id))
  }

  /** `handled` says whether a handler has run since the start of the request that is in its window now. */
  predicate RollbackLost(s: State, es: seq<Event>, id: nat, handled: bool)
    requires Possible(s, es)
    decreases |es|
  {
    es != [] && (LosesRollback(s, es[0], id, handled)
                 || RollbackLost(Next(s, es[0]), es[1..], id, HandledSince(s, es[0], handled)))
  }

  predicate StartRefused(s: State, es: seq<Event>, id: nat)
    requires Possible(s, es)
    decreases |es|
  {
    es != [] && (IsRefused(s, es[0], id) || StartRefused(Next(s, es[0]), es[1..], id))
  }

  /** What has happened to one call. */
  datatype Past = Past(interrupted: bool, failed: bool, lost: bool, refused: bool)

  const NOTHING: Past := Past(false, false, false, false)

  function Joined(p: Past, q: Past): Past {
    Past(p.interrupted || q.interrupted, p.failed || q.failed, p.lost || q.lost, p.refused || q.refused)
  }

  function PastOf(s: State, es: seq<Event>, id: nat, handled: bool): Past
    requires Possible(s, es)
  {
    Past(Interrupted(id) in es, AnyAccessFailed(s, es, id), RollbackLost(s, es, id, handled), StartRefused(s, es, id))
  }

  /** What a call returns when this has happened to it. */
  predicate Explains(req: Req, past: Past, rc: Rc, out: Option<u16>) {
    && (rc == EIntr <==> past.interrupted)
    && (rc == EIo <==> past.failed && !past.lost)
    && (rc == EInternal <==> past.lost || past.refused)
    && (rc == EInval <==> Invalid(req) && !past.interrupted)
    && (past.interrupted ==> !past.failed && !past.lost && !past.refused)
    && (past.lost ==> past.failed)
    && (past.refused ==> !past.failed)
    && (past.lost || past.refused ==> Waits(req))
    && (past == NOTHING && !Invalid(req) && !Waits(req) ==> rc == Ok && out.Some? == !req.WriteEnable?)
    && (past != NOTHING || Invalid(req) ==> out == None)
  }

  /** Where a call stands fits what has happened to it. */
  predicate Fits(c: Call, past: Past) {
    match c.pc
    case Entering => past == NOTHING && c.out == None
    case Checking => past == NOTHING && c.out == None
    case RollingBack => past == NOTHING.(failed := true) && !Invalid(c.req) && c.out == None
    case Leaving => Explains(c.req, past, c.rc, c.out)
    case Returned => Explains(c.req, past, c.rc, c.out)
    case _ => past == NOTHING && !Invalid(c.req) && c.out == None
  }

  predicate CallFits(s: State, id: nat, past: Past) {
    if id < |s.calls| then Fits(s.calls[id], past) else past == NOTHING
  }

  // One event

  function PastStep(s: State, e: Event, id: nat, handled: bool): Past {
    Past(e == Interrupted(id), AccessFails(s, e, id), LosesRollback(s, e, id, handled), IsRefused(s, e, id))
  }

  /** What the holder's step must keep. */
  predicate HolderFitsAfter(s: State, t: State, past: Past, more: Past) {
    && Held(s) && s.lock.value < |t.calls|
    && (Fits(Holder(s), past) ==> Fits(t.calls[s.lock.value], Joined(past, more)))
  }

  lemma CheckFits(s: State, ok: bool, past: Past)
    requires Safe(s) && Held(s) && Holder(s).pc == Checking
    ensures HolderFitsAfter(s, CheckStep(s, ok), past, PastStep(s, Step(ok), s.lock.value, false))
  {
  }

  lemma StartFits(s: State, ok: bool, past: Past)
    requires Safe(s) && Held(s) && Holder(s).pc == Starting
    ensures HolderFitsAfter(s, StartStep(s), past, PastStep(s, Step(ok), s.lock.value, false))
  {
  }

  lemma AddressFits(s: State, ok: bool, past: Past)
    requires Safe(s) && Held(s) && Holder(s).pc == Addressing
    ensures HolderFitsAfter(s, AddressStep(s, ok), past, PastStep(s, Step(ok), s.lock.value, false))
  {
  }

  lemma TriggerFits(s: State, ok: bool, past: Past)
    requires Safe(s) && Held(s) && Holder(s).pc == Triggering
    ensures HolderFitsAfter(s, TriggerStep(s, ok), past, PastStep(s, Step(ok), s.lock.value, false))
  {
  }

  lemma RollbackFits(s: State, ok: bool, past: Past, handled: bool)
    requires Safe(s) && Held(s) && Holder(s).pc == RollingBack && Witnessed(s, handled)
    ensures HolderFitsAfter(s, RollbackStep(s), past, PastStep(s, Step(ok), s.lock.value, handled))
  {
  }

  lemma SettleFits(s: State, ok: bool, past: Past)
    requires Safe(s) && Held(s) && Holder(s).pc.Settling?
    ensures HolderFitsAfter(s, SettleStep(s, Holder(s).pc.seen), past, PastStep(s, Step(ok), s.lock.value, false))
  {
  }

  lemma ReadFits(s: State, ok: bool, past: Past)
    requires Safe(s) && Held(s) && Holder(s).pc == Reading
    ensures HolderFitsAfter(s, ReadStep(s, ok), past, PastStep(s, Step(ok), s.lock.value, false))
  {
  }

  lemma MoveFits(s: State, ok: bool, past: Past)
    requires Safe(s) && Held(s) && (Holder(s).pc == Waiting || Holder(s).pc == Sampling || Holder(s).pc == Leaving)
    ensures HolderFitsAfter(s, HolderStep(s, ok), past, PastStep(s, Step(ok), s.lock.value, false))
  {
  }

  /** Losing a rollback is a matter of the rollback only. */
  lemma OnlyRollbackLoses(s: State, e: Event, id: nat, handled: bool)
    requires Held(s) && Holder(s).pc != RollingBack
    ensures PastStep(s, e, id, handled) == PastStep(s, e, id, false)
  {
  }

  lemma StepFits(s: State, ok: bool, past: Past, handled: bool)
    requires Safe(s) && Enabled(s, Step(ok)) && Witnessed(s, handled)
    ensures HolderFitsAfter(s, HolderStep(s, ok), past, PastStep(s, Step(ok), s.lock.value, handled))
  {
    hide Safe;
    hide HolderFitsAfter;
    hide PastStep;
    hide Witnessed;
    HolderInside(s);
    if Holder(s).pc != RollingBack {
      OnlyRollbackLoses(s, Step(ok), s.lock.value, handled);
    }
    match Holder(s).pc
    case Checking => CheckFits(s, ok, past);
    case Starting => StartFits(s, ok, past);
    case Addressing => AddressFits(s, ok, past);
    case Triggering => TriggerFits(s, ok, past);
    case RollingBack => RollbackFits(s, ok, past, handled);
    case Settling(_) => SettleFits(s, ok, past);
    case Reading => ReadFits(s, ok, past);
    case _ => MoveFits(s, ok, past);
  }

  /** The holder's step is no step of any other call. */
  lemma OthersStand(s: State, ok: bool, id: nat)
    requires Enabled(s, Step(ok)) && s.lock != Some(id) && id < |s.calls|
    ensures id < |HolderStep(s, ok).calls| && HolderStep(s, ok).calls[id] == s.calls[id]
  {
    match Holder(s).pc
    case Checking =>
    case Starting =>
    case Addressing =>
    case Triggering =>
    case Settling(_) =>
    case Reading =>
    case _ =>
  }

  lemma StepKeepsCount(s: State, ok: bool)
    requires Enabled(s, Step(ok))
    ensures |HolderStep(s, ok).calls| == |s.calls|
  {
    match Holder(s).pc
    case Checking =>
    case Starting =>
    case Addressing =>
    case Triggering =>
    case Settling(_) =>
    case Reading =>
    case _ =>
  }

  /** Calls that are made, interrupted or let in. */
  lemma ArrivalFits(s: State, e: Event, id: nat, past: Past, handled: bool)
    requires Safe(s) && Enabled(s, e) && (e.NewCall? || e.Interrupted? || e.Acquire?)
    requires CallFits(s, id, past)
    ensures CallFits(Next(s, e), id, Joined(past, PastStep(s, e, id, handled)))
  {
    hide Safe;
  }

  lemma OutsideFits(s: State, e: Event, id: nat, past: Past, handled: bool)
    requires Enabled(s, e) && !e.Step? && !e.NewCall? && !e.Interrupted? && !e.Acquire?
    requires CallFits(s, id, past)
    ensures CallFits(Next(s, e), id, Joined(past, PastStep(s, e, id, handled)))
  {
    hide Explains;
  }

  lemma HolderStepFits(s: State, ok: bool, id: nat, past: Past, handled: bool)
    requires Safe(s) && Enabled(s, Step(ok)) && Witnessed(s, handled) && CallFits(s, id, past)
    ensures CallFits(HolderStep(s, ok), id, Joined(past, PastStep(s, Step(ok), id, handled)))
  {
    hide Safe;
    hide Witnessed;
    hide HolderStep;
    hide Fits;
    StepKeepsCount(s, ok);
    if s.lock == Some(id) {
      StepFits(s, ok, past, handled);
    } else if id < |s.calls| {
      OthersStand(s, ok, id);
    }
  }

  lemma NextFits(s: State, e: Event, id: nat, past: Past, handled: bool)
    requires Safe(s) && Enabled(s, e) && Witnessed(s, handled) && CallFits(s, id, past)
    ensures CallFits(Next(s, e), id, Joined(past, PastStep(s, e, id, handled)))
  {
    hide Safe;
    hide Witnessed;
    hide CallFits;
    hide PastStep;
    hide HolderStep;
    if e.Step? {
      HolderStepFits(s, e.busOk, id, past, handled);
    } else if e.NewCall? || e.Interrupted? || e.Acquire? {
      ArrivalFits(s, e, id, past, handled);
    } else {
      OutsideFits(s, e, id, past, handled);
    }
  }

  // Runs

  lemma PastFirst(s: State, es: seq<Event>, id: nat, handled: bool)
    requires es != [] && Possible(s, es)
    ensures PastOf(s, es, id, handled)
         == Joined(PastStep(s, es[0], id, handled),
                   PastOf(Next(s, es[0]), es[1..], id, HandledSince(s, es[0], handled)))
  {
    hide Next;
    hide Enabled;
    hide AccessFails;
    hide LosesRollback;
    hide IsRefused;
    assert Interrupted(id) in es <==> es[0] == Interrupted(id) || Interrupted(id) in es[1..] by {
      assert es == [es[0]] + es[1..];
    }
  }

  lemma JoinedAssociates(a: Past, b: Past, c: Past)
    ensures Joined(Joined(a, b), c) == Joined(a, Joined(b, c))
  {
  }

  lemma {:induction false} RunFits(s: State, es: seq<Event>, id: nat, past: Past, handled: bool)
    requires Safe(s) && Possible(s, es) && Witnessed(s, handled) && CallFits(s, id, past)
    ensures CallFits(Exec(s, es), id, Joined(past, PastOf(s, es, id, handled)))
    decreases |es|
  {
    hide Safe;
    hide Next;
    hide Enabled;
    hide Witnessed;
    hide CallFits;
    hide PastStep;
    hide HandledSince;
    if es == [] {
      assert Joined(past, PastOf(s, es, id, handled)) == past;
    } else {
      var one, rest := PastStep(s, es[0], id, handled), HandledSince(s, es[0], handled);
      NextKeepsSafe(s, es[0]);
      WitnessedStep(s, es[0], handled);
      NextFits(s, es[0], id, past, handled);
      RunFits(Next(s, es[0]), es[1..], id, Joined(past, one), rest);
      PastFirst(s, es, id, handled);
      JoinedAssociates(past, one, PastOf(Next(s, es[0]), es[1..], id, rest));
    }
  }

  lemma InitialFits(s: State, id: nat)
    requires Initial(s)
    ensures Safe(s) && Witnessed(s, false) && CallFits(s, id, NOTHING)
  {
  }

  /**
   In any run, whatever interrupts there are: a returned call was interrupted at the mutex exactly if it
   says so; it has the I/O error exactly if one of its own bus accesses failed and no handler ran between
   its start and its rollback; the internal error exactly if one did, or if it found the word stuck; and
   the argument error exactly if its arguments are wrong. A read with none of this succeeds.
   */
  lemma ResultExplained(s: State, es: seq<Event>, id: nat)
    requires Initial(s) && Possible(s, es) && id < |Exec(s, es).calls| && Exec(s, es).calls[id].pc == Returned
    ensures var c := Exec(s, es).calls[id];
            Explains(c.req, PastOf(s, es, id, false), c.rc, c.out)
  {
    hide Safe;
    hide Next;
    hide Witnessed;
    hide Explains;
    InitialFits(s, id);
    RunFits(s, es, id, NOTHING, false);
  }

  /** A call one of whose bus accesses failed does not return Ok, whatever interrupts there are. */
  lemma FailedIsNotOk(s: State, es: seq<Event>, id: nat)
    requires Initial(s) && Possible(s, es) && id < |Exec(s, es).calls| && Exec(s, es).calls[id].pc == Returned
    requires AnyAccessFailed(s, es, id)
    ensures var c := Exec(s, es).calls[id];
            c.rc == (if RollbackLost(s, es, id, false) then EInternal else EIo) && c.out == None
  {
    hide Safe;
    hide Next;
    ResultExplained(s, es, id);
  }

  /**
   With interrupts from the device only: a returned call has the I/O error exactly if one of its own bus
   accesses failed, and never the internal error.
   */
  lemma IoErrorIff(s: State, es: seq<Event>, id: nat)
    requires Initial(s) && Possible(s, es) && Genuine(es)
    requires id < |Exec(s, es).calls| && Exec(s, es).calls[id].pc == Returned
    ensures var c := Exec(s, es).calls[id];
            (c.rc == EIo <==> AnyAccessFailed(s, es, id)) && c.rc != EInternal
  {
    hide Safe;
    hide Next;
    ResultExplained(s, es, id);
    InitialIsMatched(s);
    RunKeepsMatched(s.dev.flash, s, es);
    assert ResultFits(Exec(s, es).calls[id], Exec(s, es).log);
  }

  /** With interrupts from the device only, a valid call without interruption or failed access is answered. */
  lemma WorkingIsAnswered(s: State, es: seq<Event>, id: nat) returns (k: nat)
    requires Initial(s) && Possible(s, es) && Genuine(es)
    requires id < |Exec(s, es).calls| && Exec(s, es).calls[id].pc == Returned
    requires !AnyAccessFailed(s, es, id) && Interrupted(id) !in es && !Invalid(Exec(s, es).calls[id].req)
    ensures var c, log := Exec(s, es).calls[id], Exec(s, es).log;
            AnsweredAt(c, id, log, k) && (!Waits(c.req) ==> c.rc == Ok && c.out.Some? == !c.req.WriteEnable?)
  {
    hide Safe;
    hide Next;
    var t := Exec(s, es);
    ResultExplained(s, es, id);
    IoErrorIff(s, es, id);
    InitialIsMatched(s);
    RunKeepsMatched(s.dev.flash, s, es);
    assert ResultFits(t.calls[id], t.log);
    k := t.calls[id].slot.value;
  }
}
