/**
 Every call comes to an end: with working register reads and enabled lines the completion of the
 open request always reaches its handler, within a bounded number of steps of the lock holder, the
 device and the interrupt thread. In general a call can still end exactly when its completion has
 been neither dropped nor left behind in ERR without an announcement.
 */
module ProtocolProgress {
  import opened Common
  import opened IrqLines
  import opened Words
  import opened Protocol
  import opened ProtocolSafety
  import opened ProtocolMatching

  // The completion on its way to the handler

  /** The interrupt thread's reads succeed and neither line of the handshake is turned off. */
  predicate Clean(channel: Channel, e: Event) {
    match e
    case Spurious(_) => false
    case ReadIfg(ok, _) => ok
    case ReadErr(ok, _) => ok
    case SetMask(line, on) => OwnLine(channel, line) ==> on
    case _ => true
  }

  predicate AllClean(channel: Channel, es: seq<Event>) {
    forall i :: 0 <= i < |es| ==> Clean(channel, es[i])
  }

  predicate LinesOn(s: State) {
    s.irq.mask[CompleteLine(s.channel)] && s.irq.mask[ErrorLine(s.channel)]
  }

  /** A latched error cause is announced in IFG, or a pass is about to read ERR. */
  predicate Announced(s: State) {
    ErrorLatched(s) ==> Has(s.irq.ifg, ERR_BIT) || s.irq.pass.AwaitErr?
  }

  predicate Healthy(s: State) {
    LinesOn(s) && s.dropped == 0 && Announced(s)
  }

  lemma InitialIsHealthy(s: State)
    requires Initial(s) && LinesOn(s)
    ensures Healthy(s)
  {
  }

  lemma FinishKeepsHealthy(s: State, success: bool, value: u16)
    requires Healthy(s) && Enabled(s, Finish(success, value))
    ensures Healthy(FinishStep(s, success, value))
  {
    assert Has(ERR_BIT, ERR_BIT);
    RaisedHas(s.irq.ifg, CompleteBit(s.channel), ERR_BIT);
    RaisedHas(s.irq.ifg, ERR_BIT, ERR_BIT);
    hide Has;
    hide Raised;
    hide CompleteBit;
    hide ErrorBit;
  }

  lemma NoiseKeepsHealthy(s: State, i: bv16, r: bv16)
    requires Healthy(s) && Enabled(s, Noise(i, r))
    ensures Healthy(Next(s, Noise(i, r)))
  {
    RaisedHas(s.irq.ifg, i, ERR_BIT);
    RaisedHas(s.irq.err, r, ErrorBit(s.channel));
    hide Has;
    hide Raised;
    hide CompleteBit;
    hide ErrorBit;
  }

  lemma NextKeepsHealthy(s: State, e: Event)
    requires Healthy(s) && Enabled(s, e) && Clean(s.channel, e)
    ensures Healthy(Next(s, e)) && Next(s, e).channel == s.channel
  {
    match e
    case Step(ok) => StepKeepsIrq(s, ok);
    case Finish(success, value) => FinishKeepsHealthy(s, success, value);
    case Noise(i, r) => NoiseKeepsHealthy(s, i, r);
    case _ =>
  }

  lemma {:induction false} RunKeepsHealthy(s: State, es: seq<Event>)
    requires Healthy(s) && Possible(s, es) && AllClean(s.channel, es)
    ensures Healthy(Exec(s, es)) && Exec(s, es).channel == s.channel
    decreases |es|
  {
    hide Healthy;
    hide Next;
    if es != [] {
      NextKeepsHealthy(s, es[0]);
      RunKeepsHealthy(Next(s, es[0]), es[1..]);
    }
  }

  /** Where the completion of the request somebody waits for is. */
  ghost predicate InFlight(s: State) {
    || s.dev.job.Some?
    || CompleteLatched(s)
    || (ErrorLatched(s) && (Has(s.irq.ifg, ERR_BIT) || s.irq.pass.AwaitErr?))
    || CompleteHeld(s)
    || ErrorHeld(s)
  }

  /** No completion is lost between the device, the two registers, the pass and the handlers. */
  lemma NoLostCompletion(s: State, es: seq<Event>)
    requires Initial(s) && LinesOn(s) && Possible(s, es) && AllClean(s.channel, es)
    ensures var t := Exec(s, es);
            && LinesOn(t)
            && (Outstanding(t) ==> InFlight(t) && Tokens(t) == 1 && t.dropped == 0)
            && (!Outstanding(t) ==> Tokens(t) == 0)
  {
    hide Next;
    hide Matched;
    InitialIsMatched(s);
    InitialIsHealthy(s);
    RunKeepsMatched(s.dev.flash, s, es);
    RunKeepsHealthy(s, es);
    MatchedParts(s.dev.flash, Exec(s, es));
    hide Has;
  }

  lemma MatchedParts(f: Flash, s: State)
    requires Matched(f, s)
    ensures Safe(s) && Conserved(s)
  {
  }

  // The measure

  function PassLeft(pass: Pass): nat {
    match pass
    case NoPass => 0
    case AwaitErr(_) => 6
    case Dispatch(line, _, _) => 5 - line
  }

  /** How far the completion is from its handler. */
  function Delivery(s: State): nat {
    if s.dev.job.Some? then 30
    else if CompleteHeld(s) || ErrorHeld(s) then PassLeft(s.irq.pass)
    else if ErrorLatched(s) && s.irq.pass.AwaitErr? then 8
    else 12 + PassLeft(s.irq.pass)
  }

  /** How far the lock holder is from giving the mutex back. */
  function Rank(s: State): nat {
    if !Held(s) then 0
    else
      match Holder(s).pc
      case Checking => 53
      case Starting => 52
      case Addressing => 51
      case Triggering => 50
      case RollingBack => 2
      case Waiting => if s.word == Pending then 6 + Delivery(s) else 5
      case Sampling => 4
      case Settling(_) => 3
      case Reading => 2
      case Leaving => 1
      case _ => 0
  }

  lemma DeliveryBound(s: State)
    ensures Delivery(s) <= 30
  {
    hide CompleteHeld;
    hide ErrorHeld;
    hide ErrorLatched;
  }

  lemma StepLowersRank(s: State, ok: bool)
    requires Enabled(s, Step(ok)) && PcFits(Holder(s).req, Holder(s).pc)
    requires Holder(s).pc != Entering && Holder(s).pc != Returned
    ensures Rank(HolderStep(s, ok)) < Rank(s)
  {
    hide Delivery;
    DeliveryBound(HolderStep(s, ok));
    match Holder(s).pc
    case Checking =>
    case Starting =>
    case Addressing =>
    case Triggering =>
    case RollingBack =>
    case Waiting =>
    case Sampling =>
    case Settling(_) =>
    case Reading =>
    case Leaving =>
  }

  /** A step of the device or of the interrupt thread that brings the completion closer. */
  predicate Delivers(s: State, e: Event) {
    Outstanding(s) && (e.Finish? || (s.dev.job == None && (e.ReadIfg? || e.ReadErr? || e.RunLine?)))
  }

  lemma FinishLowersRank(f: Flash, s: State, success: bool, value: u16)
    requires Matched(f, s) && Enabled(s, Finish(success, value))
    ensures Rank(FinishStep(s, success, value)) < Rank(s)
  {
    FinishLatches(s, success, value);
    hide CompleteLatched;
    hide ErrorLatched;
    hide CompleteHeld;
    hide ErrorHeld;
  }

  lemma ReadIfgLowersRank(f: Flash, s: State, cleared: bool)
    requires Matched(f, s) && Healthy(s) && Enabled(s, ReadIfg(true, cleared))
    ensures Rank(ReadIfgStep(s, true, cleared)) <= Rank(s)
    ensures Delivers(s, ReadIfg(true, cleared)) ==> Rank(ReadIfgStep(s, true, cleared)) < Rank(s)
  {
  }

  lemma ReadErrLowersRank(f: Flash, s: State, cleared: bool)
    requires Matched(f, s) && Healthy(s) && Enabled(s, ReadErr(true, cleared))
    ensures Rank(ReadErrStep(s, true, cleared)) <= Rank(s)
    ensures Delivers(s, ReadErr(true, cleared)) ==> Rank(ReadErrStep(s, true, cleared)) < Rank(s)
  {
  }

  lemma LinePass(s: State)
    requires Enabled(s, RunLine)
    ensures LineStep(s).irq.pass == if s.irq.pass.line + 1 == LINE_COUNT then NoPass
                                    else s.irq.pass.(line := s.irq.pass.line + 1)
  {
  }

  lemma LineKeepsDelivery(s: State)
    requires Enabled(s, RunLine)
    ensures !LineStep(s).irq.pass.AwaitErr? && PassLeft(LineStep(s).irq.pass) == PassLeft(s.irq.pass) - 1
  {
    LinePass(s);
    hide LineStep;
  }

  lemma LineLowersRank(s: State)
    requires LinesOn(s) && Enabled(s, RunLine)
    ensures Rank(LineStep(s)) <= Rank(s)
    ensures Delivers(s, RunLine) ==> Rank(LineStep(s)) < Rank(s)
  {
    hide CompleteLatched;
    hide ErrorLatched;
    hide CompleteHeld;
    hide ErrorHeld;
    hide Fires;
    hide LineStep;
    hide PassLeft;
    hide CompleteLine;
    hide ErrorLine;
    LineTokens(s);
    LineKeepsDelivery(s);
  }

  lemma NoiseKeepsRank(s: State, i: bv16, r: bv16)
    requires Enabled(s, Noise(i, r))
    ensures Rank(Next(s, Noise(i, r))) == Rank(s)
  {
    NoiseLeavesTokens(s, i, r);
    hide CompleteLatched;
    hide ErrorLatched;
    hide CompleteHeld;
    hide ErrorHeld;
  }

  lemma ArrivalKeepsRank(f: Flash, s: State, e: Event)
    requires Matched(f, s) && Held(s) && Enabled(s, e) && (e.NewCall? || e.Interrupted? || e.Acquire? || e.SetMask?)
    ensures Rank(Next(s, e)) == Rank(s)
  {
  }

  lemma HealthyIsOn(s: State)
    requires Healthy(s)
    ensures LinesOn(s)
  {
  }

  /** While the mutex is held no step takes its holder further from the end, and these bring it closer. */
  lemma RankFalls(f: Flash, s: State, e: Event)
    requires Matched(f, s) && Healthy(s) && Held(s) && Enabled(s, e) && Clean(s.channel, e)
    ensures Rank(Next(s, e)) <= Rank(s)
    ensures e.Step? || Delivers(s, e) ==> Rank(Next(s, e)) < Rank(s)
  {
    hide Matched;
    hide Healthy;
    hide Rank;
    hide Enabled;
    hide PcFits;
    hide Held;
    hide HolderStep;
    hide FinishStep;
    hide ReadIfgStep;
    hide ReadErrStep;
    hide LineStep;
    hide Announced;
    hide Safe;
    MatchedParts(f, s);
    HolderInside(s);
    assert LinesOn(s) by { HealthyIsOn(s); }
    match e
    case Step(ok) => StepLowersRank(s, ok);
    case Finish(success, value) => FinishLowersRank(f, s, success, value);
    case ReadIfg(_, cleared) => ReadIfgLowersRank(f, s, cleared);
    case ReadErr(_, cleared) => ReadErrLowersRank(f, s, cleared);
    case RunLine => LineLowersRank(s);
    case Noise(i, r) => NoiseKeepsRank(s, i, r);
    case _ => ArrivalKeepsRank(f, s, e);
  }

  /** A step that brings the lock holder closer to the end. */
  function Helpful(s: State): Event {
    if !Outstanding(s) then Step(true)
    else if s.dev.job.Some? then Finish(false, 0)
    else if s.irq.pass.NoPass? then ReadIfg(true, true)
    else if s.irq.pass.AwaitErr? then ReadErr(true, true)
    else RunLine
  }

  /** In every reachable state with a call in progress some step that brings it closer is possible. */
  lemma SomeStepHelps(f: Flash, s: State)
    requires Matched(f, s) && Healthy(s) && Held(s)
    ensures Enabled(s, Helpful(s)) && Clean(s.channel, Helpful(s))
    ensures Rank(Next(s, Helpful(s))) < Rank(s) && (Helpful(s).Step? || Delivers(s, Helpful(s)))
  {
    RankFalls(f, s, Helpful(s));
  }

  // Every continuation

  /** The mutex is held before each event. */
  predicate StaysHeld(s: State, es: seq<Event>)
    requires Possible(s, es)
    decreases |es|
  {
    es == [] || (Held(s) && StaysHeld(Next(s, es[0]), es[1..]))
  }

  /** How many events of a run are steps of the lock holder or bring the awaited completion closer. */
  function Useful(s: State, es: seq<Event>): nat
    requires Possible(s, es)
    decreases |es|
  {
    if es == [] then 0 else Count(es[0].Step? || Delivers(s, es[0])) + Useful(Next(s, es[0]), es[1..])
  }

  /** While the mutex stays held, useful steps use up the measure, and nothing restores it. */
  lemma {:induction false} UsefulStepsBounded(f: Flash, s: State, es: seq<Event>)
    requires Matched(f, s) && Healthy(s) && Possible(s, es) && AllClean(s.channel, es) && StaysHeld(s, es)
    ensures Useful(s, es) + Rank(Exec(s, es)) <= Rank(s)
    decreases |es|
  {
    hide Matched;
    hide Healthy;
    hide Next;
    hide Held;
    hide Rank;
    hide Delivers;
    if es != [] {
      NextKeepsMatched(f, s, es[0]);
      NextKeepsHealthy(s, es[0]);
      RankFalls(f, s, es[0]);
      UsefulStepsBounded(f, Next(s, es[0]), es[1..]);
    }
  }

  lemma RankRange(f: Flash, s: State)
    requires Matched(f, s)
    ensures Rank(s) <= 53 && (Rank(s) == 0 ==> s.lock == None && s.word == Idle)
  {
    hide CompleteHeld;
    hide ErrorHeld;
    hide ErrorLatched;
  }

  /**
   Every way a clean run goes on: while the mutex stays held there are at most 53 useful steps, and
   once they are used up the mutex is free and the word Idle.
   */
  lemma EveryHolderEnds(s: State, es: seq<Event>, more: seq<Event>)
    requires Initial(s) && LinesOn(s) && Possible(s, es) && AllClean(s.channel, es)
    requires Possible(Exec(s, es), more) && AllClean(s.channel, more) && StaysHeld(Exec(s, es), more)
    ensures var t := Exec(s, es);
            && Useful(t, more) <= Rank(t) <= 53
            && (Useful(t, more) == Rank(t) ==> Exec(t, more).lock == None && Exec(t, more).word == Idle)
  {
    hide Next;
    hide Matched;
    hide Healthy;
    hide Rank;
    var f, t := s.dev.flash, Exec(s, es);
    InitialIsMatched(s);
    InitialIsHealthy(s);
    RunKeepsMatched(f, s, es);
    RunKeepsHealthy(s, es);
    UsefulStepsBounded(f, t, more);
    RankRange(f, t);
    RunKeepsMatched(f, t, more);
    RankRange(f, Exec(t, more));
  }

  // Some continuation

  /** A step of the lock holder, the device or the interrupt thread. */
  predicate Own(e: Event) {
    e.Step? || e.Finish? || e.ReadIfg? || e.ReadErr? || e.RunLine?
  }

  predicate AllOwn(es: seq<Event>) {
    forall i :: 0 <= i < |es| ==> Own(es[i])
  }

  lemma OwnPrepend(s: State, e: Event, es: seq<Event>)
    requires Enabled(s, e) && Possible(Next(s, e), es)
    requires Own(e) && AllOwn(es) && Clean(s.channel, e) && AllClean(s.channel, es)
    ensures Possible(s, [e] + es) && Exec(s, [e] + es) == Exec(Next(s, e), es)
    ensures AllOwn([e] + es) && AllClean(s.channel, [e] + es)
  {
    hide Own;
    hide Clean;
    hide Next;
    hide Enabled;
    ExecPrepend(s, e, es);
  }

  /** From every healthy state the holder, the device and the thread can bring the call to its end. */
  lemma {:induction false} HolderCanEnd(f: Flash, s: State) returns (es: seq<Event>)
    requires Matched(f, s) && Healthy(s)
    ensures Possible(s, es) && AllOwn(es) && AllClean(s.channel, es) && Exec(s, es).lock == None
    decreases Rank(s)
  {
    if !Held(s) {
      assert s.lock == None;
      es := [];
    } else {
      var e := Helpful(s);
      assert Own(e);
      SomeStepHelps(f, s);
      hide Matched;
      hide Healthy;
      hide Next;
      hide Enabled;
      hide Own;
      hide Helpful;
      hide Rank;
      hide Clean;
      assert !e.Spurious? by { CleanIsGenuine(s.channel, e); }
      NextKeepsMatched(f, s, e);
      NextKeepsHealthy(s, e);
      es := HolderCanEnd(f, Next(s, e));
      OwnPrepend(s, e, es);
      es := [e] + es;
    }
  }

  lemma CleanIsGenuine(channel: Channel, e: Event)
    requires Clean(channel, e)
    ensures !e.Spurious?
  {
  }

  // When a completion has been dropped

  /**
   The completion is lost for good: a read of IFG or ERR fails after it has cleared the completion,
   a pass gives up the completion it has read because its read of ERR fails, or the line is off.
   */
  predicate Drops(s: State, e: Event) {
    match e
    case ReadIfg(ok, cleared) => !ok && cleared && CompleteLatched(s)
    case ReadErr(ok, cleared) => !ok && (CompleteHeld(s) || (cleared && ErrorLatched(s)))
    case RunLine =>
      && s.irq.pass.Dispatch?
      && var Dispatch(line, i, r) := s.irq.pass; Fires(line, i, r) && OwnLine(s.channel, line) && !s.irq.mask[line]
    case _ => false
  }

  predicate AnyDrop(s: State, es: seq<Event>)
    requires Possible(s, es)
    decreases |es|
  {
    es != [] && (Drops(s, es[0]) || AnyDrop(Next(s, es[0]), es[1..]))
  }

  lemma DropStep(s: State, e: Event)
    requires Enabled(s, e)
    ensures Next(s, e).dropped == 0 <==> s.dropped == 0 && !Drops(s, e)
  {
    hide Has;
    hide Fires;
    if e.Step? {
      StepKeepsIrq(s, e.busOk);
    }
  }

  lemma {:induction false} DroppedIff(s: State, es: seq<Event>)
    requires Possible(s, es)
    ensures Exec(s, es).dropped == 0 <==> s.dropped == 0 && !AnyDrop(s, es)
    decreases |es|
  {
    hide Next;
    hide Enabled;
    hide Drops;
    if es != [] {
      DropStep(s, es[0]);
      DroppedIff(Next(s, es[0]), es[1..]);
    }
  }

  lemma DroppedStays(f: Flash, s: State, e: Event)
    requires Matched(f, s) && Enabled(s, e) && s.dropped > 0
    ensures Next(s, e).dropped > 0 && s.lock.Some?
  {
    if e.Step? {
      StepKeepsIrq(s, e.busOk);
    }
  }

  lemma {:induction false} DroppedForever(f: Flash, s: State, es: seq<Event>)
    requires Matched(f, s) && s.dropped > 0 && Possible(s, es) && Genuine(es)
    ensures Exec(s, es).dropped > 0 && Exec(s, es).lock.Some?
    decreases |es|
  {
    if es == [] {
    } else {
      NextKeepsMatched(f, s, es[0]);
      DroppedStays(f, s, es[0]);
      hide Matched;
      hide Next;
      DroppedForever(f, Next(s, es[0]), es[1..]);
    }
  }

  // When an error has been left behind in ERR

  /**
   The announcement of a latched error is used up: the read of ERR fails before it clears the
   register, or the read of IFG fails after it has cleared the announcement.
   */
  predicate Strands(s: State, e: Event) {
    match e
    case ReadIfg(ok, cleared) => !ok && cleared && ErrorLatched(s)
    case ReadErr(ok, cleared) => !ok && !cleared && ErrorLatched(s) && !Has(s.irq.ifg, ERR_BIT)
    case _ => false
  }

  /** The device latches IFG.ERR. */
  predicate Announces(e: Event) {
    (e.Noise? && Has(e.ifgBits, ERR_BIT)) || (e.Finish? && !e.success)
  }

  predicate Unannounced(es: seq<Event>) {
    forall i :: 0 <= i < |es| ==> !Announces(es[i])
  }

  /** An event of the run strands an error, and no later one announces an error. */
  predicate Stranded(s: State, es: seq<Event>)
    requires Possible(s, es)
    decreases |es|
  {
    es != [] && ((Strands(s, es[0]) && Unannounced(es[1..])) || Stranded(Next(s, es[0]), es[1..]))
  }

  lemma StrandStep(s: State, e: Event)
    requires Enabled(s, e)
    ensures !Announced(Next(s, e)) <==> Strands(s, e) || (!Announced(s) && !Announces(e))
  {
    match e
    case Step(ok) => StepKeepsIrq(s, ok);
    case Finish(success, value) => FinishAnnounces(s, success, value);
    case Noise(i, r) => NoiseAnnounces(s, i, r);
    case ReadIfg(_, _) => ZeroBits(ERR_BIT);
    case ReadErr(_, _) => ZeroBits(ErrorBit(s.channel));
    case _ =>
  }

  lemma FinishAnnounces(s: State, success: bool, value: u16)
    requires Enabled(s, Finish(success, value))
    ensures Announced(FinishStep(s, success, value)) <==> Announced(s) || !success
  {
    FinishLatches(s, success, value);
    assert Has(ERR_BIT, ERR_BIT) && !Has(CompleteBit(s.channel), ERR_BIT);
    RaisedHas(s.irq.ifg, CompleteBit(s.channel), ERR_BIT);
    RaisedHas(s.irq.ifg, ERR_BIT, ERR_BIT);
    hide Has;
    hide Raised;
    hide CompleteBit;
    hide ErrorBit;
    hide CompleteHeld;
    hide ErrorHeld;
  }

  lemma NoiseAnnounces(s: State, i: bv16, r: bv16)
    requires Enabled(s, Noise(i, r))
    ensures Announced(Next(s, Noise(i, r))) <==> Announced(s) || Has(i, ERR_BIT)
  {
    NoiseLeavesTokens(s, i, r);
    RaisedHas(s.irq.ifg, i, ERR_BIT);
    hide Has;
    hide Raised;
    hide CompleteHeld;
    hide ErrorHeld;
  }

  lemma {:induction false} StrandedIff(s: State, es: seq<Event>)
    requires Possible(s, es)
    ensures !Announced(Exec(s, es)) <==> Stranded(s, es) || (!Announced(s) && Unannounced(es))
    decreases |es|
  {
    hide Next;
    hide Enabled;
    hide Strands;
    hide Announces;
    hide Announced;
    if es != [] {
      StrandStep(s, es[0]);
      StrandedIff(Next(s, es[0]), es[1..]);
      assert Unannounced(es) <==> !Announces(es[0]) && Unannounced(es[1..]) by {
        assert es == [es[0]] + es[1..];
      }
    }
  }

  lemma StrandedHolds(f: Flash, s: State)
    requires Matched(f, s) && !Announced(s)
    ensures s.lock.Some? && s.dev.job == None
  {
  }

  /** Until the device announces some other error, a stranded error keeps the mutex held. */
  lemma {:induction false} StrandedForever(f: Flash, s: State, es: seq<Event>)
    requires Matched(f, s) && !Announced(s) && Possible(s, es) && Genuine(es)
    requires forall i :: 0 <= i < |es| && es[i].Noise? ==> !Has(es[i].ifgBits, ERR_BIT)
    ensures !Announced(Exec(s, es)) && Exec(s, es).lock.Some?
    decreases |es|
  {
    StrandedHolds(f, s);
    hide Announced;
    hide Matched;
    if es != [] {
      NextKeepsMatched(f, s, es[0]);
      StrandStep(s, es[0]);
      assert !Announces(es[0]);
      hide Next;
      StrandedForever(f, Next(s, es[0]), es[1..]);
    }
  }

  // When the call can still end

  ghost predicate Ends(s: State, more: seq<Event>) {
    Possible(s, more) && AllOwn(more) && Exec(s, more).lock == None
  }

  lemma OwnIsGenuine(es: seq<Event>)
    requires AllOwn(es)
    ensures Genuine(es) && forall i :: 0 <= i < |es| ==> !es[i].Noise?
  {
  }

  /**
   In a run with interrupts from the device only, and with both lines on at its end, the holder, the
   device and the thread can bring the call to its end exactly when its completion was not dropped
   and no error is latched without its announcement.
   */
  lemma CanEndIff(s: State, es: seq<Event>)
    requires Initial(s) && Possible(s, es) && Genuine(es) && LinesOn(Exec(s, es))
    ensures (exists more :: Ends(Exec(s, es), more)) <==> Exec(s, es).dropped == 0 && Announced(Exec(s, es))
  {
    hide Next;
    hide Matched;
    hide Announced;
    hide LinesOn;
    hide Own;
    var f, t := s.dev.flash, Exec(s, es);
    InitialIsMatched(s);
    RunKeepsMatched(f, s, es);
    if t.dropped == 0 && Announced(t) {
      var more := HolderCanEnd(f, t);
      assert Ends(t, more);
    } else {
      forall more | Ends(t, more) ensures false {
        OwnIsGenuine(more);
        if t.dropped > 0 {
          DroppedForever(f, t, more);
        } else {
          StrandedForever(f, t, more);
        }
      }
    }
  }

  /** The same, as what must not have happened in the run. */
  lemma CanEndUnlessLost(s: State, es: seq<Event>)
    requires Initial(s) && Possible(s, es) && Genuine(es) && LinesOn(Exec(s, es))
    ensures (exists more :: Ends(Exec(s, es), more)) <==> !AnyDrop(s, es) && !Stranded(s, es)
  {
    hide Ends;
    hide Next;
    CanEndIff(s, es);
    DroppedIff(s, es);
    StrandedIff(s, es);
    InitialIsAnnounced(s);
  }

  lemma InitialIsAnnounced(s: State)
    requires Initial(s)
    ensures Announced(s) && s.dropped == 0
  {
  }

  // The two ways to wait for ever happen

  /** A general command is made, started and accepted by the device. */
  function Prologue(): seq<Event> {
    [NewCall(Gencmd(0, 0, false)), Acquire(0), Step(true), Step(true), Step(true)]
  }

  /** A call waits for the device, and nothing is latched. */
  predicate JustAccepted(s: State) {
    && s.lock == Some(0) && |s.calls| > 0 && s.dev.job.Some? && s.dev.job.value.owner == 0
    && !s.dev.job.value.op.Program? && !s.dev.job.value.op.EraseSegment?
    && s.irq.ifg == 0 && s.irq.err == 0 && s.irq.pass == NoPass && s.dropped == 0
  }

  lemma PrologueRun(s: State)
    requires Initial(s) && s.channel == GencmdChannel
    ensures Possible(s, Prologue()) && JustAccepted(Exec(s, Prologue()))
    ensures Exec(s, Prologue()).channel == s.channel && Exec(s, Prologue()).irq.mask == s.irq.mask
  {
    var s1 := Next(s, NewCall(Gencmd(0, 0, false)));
    var s2 := Next(s1, Acquire(0));
    var s3 := Next(s2, Step(true));
    var s4 := Next(s3, Step(true));
    var s5 := Next(s4, Step(true));
    assert Enabled(s4, Step(true)) && JustAccepted(s5) && s5.channel == s.channel && s5.irq.mask == s.irq.mask;
    assert Enabled(s, Prologue()[0]) && Enabled(s1, Acquire(0)) && Enabled(s2, Step(true)) && Enabled(s3, Step(true));
    hide Next;
    hide Enabled;
    ExecPrepend(s4, Step(true), []);
    ExecPrepend(s3, Step(true), [Step(true)]);
    ExecPrepend(s2, Step(true), [Step(true), Step(true)]);
    ExecPrepend(s1, Acquire(0), [Step(true), Step(true), Step(true)]);
    ExecPrepend(s, Prologue()[0], Prologue()[1..]);
  }

  /** The device completes the command and latches another error; the read of ERR then fails. */
  function DroppingEvents(): seq<Event> {
    [Finish(true, 0), Noise(ERR_BIT, 0), ReadIfg(true, true), ReadErr(false, false)]
  }

  lemma DroppingEnd(s: State)
    requires JustAccepted(s) && s.channel == GencmdChannel
    ensures Possible(s, DroppingEvents()) && Exec(s, DroppingEvents()).dropped == 1
    ensures Exec(s, DroppingEvents()).irq.mask == s.irq.mask && Exec(s, DroppingEvents()).channel == s.channel
  {
    var s1 := Next(s, Finish(true, 0));
    var s2 := Next(s1, Noise(ERR_BIT, 0));
    var s3 := Next(s2, ReadIfg(true, true));
    var s4 := Next(s3, ReadErr(false, false));
    assert s2.irq.ifg == 0x21 && s4.dropped == 1 && s4.irq.mask == s.irq.mask && s4.channel == s.channel;
    assert Enabled(s, Finish(true, 0)) && Enabled(s1, Noise(ERR_BIT, 0));
    assert Enabled(s2, ReadIfg(true, true)) && Enabled(s3, ReadErr(false, false));
    hide Next;
    hide Enabled;
    ExecPrepend(s3, ReadErr(false, false), []);
    ExecPrepend(s2, ReadIfg(true, true), [ReadErr(false, false)]);
    ExecPrepend(s1, Noise(ERR_BIT, 0), [ReadIfg(true, true), ReadErr(false, false)]);
    ExecPrepend(s, Finish(true, 0), DroppingEvents()[1..]);
  }

  /** The device rejects the command; the read of ERR fails and leaves ERR as it is. */
  function StrandingEvents(): seq<Event> {
    [Finish(false, 0), ReadIfg(true, true), ReadErr(false, false)]
  }

  lemma StrandingEnd(s: State)
    requires JustAccepted(s) && s.channel == GencmdChannel
    ensures Possible(s, StrandingEvents()) && Exec(s, StrandingEvents()).dropped == 0
    ensures !Announced(Exec(s, StrandingEvents()))
    ensures Exec(s, StrandingEvents()).irq.mask == s.irq.mask && Exec(s, StrandingEvents()).channel == s.channel
  {
    var s1 := Next(s, Finish(false, 0));
    var s2 := Next(s1, ReadIfg(true, true));
    var s3 := Next(s2, ReadErr(false, false));
    assert s1.irq.ifg == ERR_BIT && s1.irq.err == GCC_BIT && s3.dropped == 0 && !Announced(s3);
    assert s3.irq.mask == s.irq.mask && s3.channel == s.channel;
    assert Enabled(s, Finish(false, 0)) && Enabled(s1, ReadIfg(true, true)) && Enabled(s2, ReadErr(false, false));
    hide Next;
    hide Enabled;
    ExecPrepend(s2, ReadErr(false, false), []);
    ExecPrepend(s1, ReadIfg(true, true), [ReadErr(false, false)]);
    ExecPrepend(s, Finish(false, 0), StrandingEvents()[1..]);
  }

  lemma WitnessIsGenuine(es: seq<Event>)
    requires es == DroppingEvents() || es == StrandingEvents()
    ensures Genuine(Prologue() + es)
  {
  }

  /** A read of ERR that fails drops a completion that was read from IFG, and the call cannot end. */
  lemma DroppedRun(s: State) returns (es: seq<Event>)
    requires Initial(s) && LinesOn(s) && s.channel == GencmdChannel
    ensures Possible(s, es) && Genuine(es) && LinesOn(Exec(s, es)) && Exec(s, es).dropped == 1
    ensures !exists more :: Ends(Exec(s, es), more)
  {
    hide Ends;
    hide Next;
    es := Prologue() + DroppingEvents();
    PrologueRun(s);
    DroppingEnd(Exec(s, Prologue()));
    WitnessIsGenuine(DroppingEvents());
    hide Prologue;
    hide DroppingEvents;
    ExecAppend(s, Prologue(), DroppingEvents());
    CanEndIff(s, es);
  }

  /** A read of ERR that fails without clearing it strands the error in ERR, and the call cannot end. */
  lemma StrandedRun(s: State) returns (es: seq<Event>)
    requires Initial(s) && LinesOn(s) && s.channel == GencmdChannel
    ensures Possible(s, es) && Genuine(es) && LinesOn(Exec(s, es)) && Exec(s, es).dropped == 0
    ensures !Announced(Exec(s, es)) && !exists more :: Ends(Exec(s, es), more)
  {
    hide Ends;
    hide Next;
    hide Announced;
    es := Prologue() + StrandingEvents();
    PrologueRun(s);
    StrandingEnd(Exec(s, Prologue()));
    WitnessIsGenuine(StrandingEvents());
    hide Prologue;
    hide StrandingEvents;
    ExecAppend(s, Prologue(), StrandingEvents());
    CanEndIff(s, es);
  }
}
