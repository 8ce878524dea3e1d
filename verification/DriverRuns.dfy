/**
 The theorems about runs, said of the driver's code. Their hypothesis, that the fields are where a run
 leads from an initial state, holds of a new `Driver`, and `Serve` and `Happen` keep it.
 */
module DriverRuns {
  import opened Common
  import opened IrqLines
  import opened Protocol
  import opened ProtocolSafety
  import opened ProtocolMatching
  import opened ProtocolResults
  import DriverCode

  /** Whatever calls the code has carried out since the start, their results are those of one atomic memory. */
  lemma CodeLinearizes(d: DriverCode.Driver, start: State, trace: seq<Event>)
    requires Initial(start) && d.Follows(start, trace) && Genuine(trace)
    ensures Linearizes(start.dev.flash, d.dev.flash, d.calls, d.log)
  {
    hide Linearizes;
    CallsLinearize(start, trace);
  }

  /** With the mutex free the code has left the word Idle exactly when no rollback lost its race to a handler. */
  lemma CodeIdleIff(d: DriverCode.Driver, start: State, trace: seq<Event>)
    requires Initial(start) && d.Follows(start, trace) && d.lock.None?
    ensures d.word == Idle <==> !Poisoned(start, trace)
    ensures d.word == Idle <==> !RaceLost(start, trace, false)
  {
    LockFreeIdleIff(start, trace);
    LockFreeIdleUnlessRaced(start, trace);
  }

  /** Every result that the code returned is explained by what happened to that call in the run. */
  lemma CodeExplains(d: DriverCode.Driver, start: State, trace: seq<Event>, id: nat)
    requires Initial(start) && d.Follows(start, trace) && id < |d.calls| && d.calls[id].pc == Returned
    ensures Explains(d.calls[id].req, PastOf(start, trace, id, false), d.calls[id].rc, d.calls[id].out)
  {
    hide Explains;
    ResultExplained(start, trace, id);
  }

  // A bus that works

  lemma {:induction false} FailuresAppend(s: State, a: seq<Event>, b: seq<Event>, id: nat)
    requires Possible(s, a) && Possible(Exec(s, a), b)
    ensures Possible(s, a + b)
    ensures AnyAccessFailed(s, a + b, id) <==> AnyAccessFailed(s, a, id) || AnyAccessFailed(Exec(s, a), b, id)
    decreases |a|
  {
    hide Next;
    hide Enabled;
    hide AccessFails;
    ExecAppend(s, a, b);
    if a == [] {
      assert a + b == b;
    } else {
      FailuresAppend(Next(s, a[0]), a[1..], b, id);
      assert (a + b)[1..] == a[1..] + b;
    }
  }

  lemma {:induction false} OthersDoNotFail(s: State, others: seq<Event>, id: nat)
    ensures !AnyAccessFailed(s, DriverCode.Happening(s, others, id), id)
    decreases |others|
  {
    hide Next;
    hide Enabled;
    hide UsesBus;
    if others != [] {
      OthersDoNotFail(s, others[1..], id);
      if DriverCode.ByOthers(s, others[0], id) {
        OthersDoNotFail(Next(s, others[0]), others[1..], id);
      }
    }
  }

  lemma OwnMoveWorks(s: State, id: nat)
    requires Enabled(s, DriverCode.OwnMove(s, id, true))
    ensures Possible(s, [DriverCode.OwnMove(s, id, true)])
    ensures !AnyAccessFailed(s, [DriverCode.OwnMove(s, id, true)], id)
  {
    hide Next;
    hide Enabled;
    var own := DriverCode.OwnMove(s, id, true);
    ExecPrepend(s, own, []);
    assert [own] + [] == [own];
    assert !AccessFails(s, own, id);
    assert !AnyAccessFailed(Next(s, own), [], id);
    assert [own][1..] == [];
  }

  lemma TurnWorks(s: State, id: nat, slot: DriverCode.Slot)
    requires slot.busOk
    ensures !AnyAccessFailed(s, DriverCode.Turn(s, id, slot), id)
  {
    hide Next;
    hide Enabled;
    hide DriverCode.Happening;
    hide DriverCode.OwnMove;
    hide AnyAccessFailed;
    var others := DriverCode.Happening(s, slot.others, id);
    OthersDoNotFail(s, slot.others, id);
    var t := Exec(s, others);
    var own := DriverCode.OwnMove(t, id, slot.busOk);
    if Enabled(t, own) {
      OwnMoveWorks(t, id);
      FailuresAppend(s, others, [own], id);
    }
  }

  lemma {:induction false} PlayedWorks(start: State, id: nat, sched: DriverCode.Schedule, n: nat)
    requires forall k :: 0 <= k < n ==> sched(k).busOk
    ensures !AnyAccessFailed(start, DriverCode.Played(start, id, sched, n), id)
  {
    hide Next;
    hide Enabled;
    hide DriverCode.Turn;
    hide AccessFails;
    if n > 0 {
      PlayedWorks(start, id, sched, n - 1);
      var before := DriverCode.Played(start, id, sched, n - 1);
      TurnWorks(Exec(start, before), id, sched(n - 1));
      FailuresAppend(start, before, DriverCode.Turn(Exec(start, before), id, sched(n - 1)), id);
    }
  }

  lemma {:induction false} NotYetMade(s: State, es: seq<Event>, id: nat)
    requires Possible(s, es) && id >= |Exec(s, es).calls|
    ensures !AnyAccessFailed(s, es, id)
    decreases |es|
  {
    RunGrows(s, es);
    hide Next;
    hide Enabled;
    hide UsesBus;
    if es != [] {
      NotYetMade(Next(s, es[0]), es[1..], id);
    }
  }

  lemma NoStepNoFailure(s: State, e: Event, id: nat)
    requires Enabled(s, e) && !e.Step?
    ensures Possible(s, [e]) && Exec(s, [e]) == Next(s, e) && !AnyAccessFailed(s, [e], id)
  {
    hide Next;
    hide Enabled;
    hide UsesBus;
    ExecPrepend(s, e, []);
    assert [e] + [] == [e];
    assert !AnyAccessFailed(Next(s, e), [], id);
    assert [e][1..] == [];
  }

  lemma RunOfWorks(t: State, id: nat, sched: DriverCode.Schedule, n: nat, turnedBack: bool)
    requires forall k :: 0 <= k < n ==> sched(k).busOk
    requires Possible(t, DriverCode.RunOf(t, id, sched, n, turnedBack))
    ensures !AnyAccessFailed(t, DriverCode.RunOf(t, id, sched, n, turnedBack), id)
  {
    hide Next;
    hide Enabled;
    hide DriverCode.Played;
    hide AnyAccessFailed;
    var played := DriverCode.Played(t, id, sched, n);
    PlayedWorks(t, id, sched, n);
    if turnedBack {
      PossibleParts(t, played, [Interrupted(id)]);
      assert Enabled(Exec(t, played), Interrupted(id));
      NoStepNoFailure(Exec(t, played), Interrupted(id), id);
      FailuresAppend(t, played, [Interrupted(id)], id);
    } else {
      assert played + [] == played;
    }
  }

  lemma {:induction false} PossibleParts(s: State, a: seq<Event>, b: seq<Event>)
    requires Possible(s, a + b)
    ensures Possible(s, a) && Possible(Exec(s, a), b) && Exec(s, a + b) == Exec(Exec(s, a), b)
    decreases |a|
  {
    hide Next;
    hide Enabled;
    if a == [] {
      assert a + b == b;
    } else {
      assert (a + b)[1..] == a[1..] + b;
      PossibleParts(Next(s, a[0]), a[1..], b);
    }
  }

  /**
   A request that is served while every bus access of its slots succeeds does not return the I/O error;
   and a read with valid arguments that is not turned back returns Ok and a value, whatever interrupts
   there are.
   */
  lemma WorkingBusServes(d: DriverCode.Driver, start: State, trace: seq<Event>, req: Req,
                         sched: DriverCode.Schedule, n: nat, turnedBack: bool)
    requires Initial(start) && Possible(start, trace) && ReqChannel(req) == Exec(start, trace).channel
    requires forall k :: 0 <= k < n ==> sched(k).busOk
    requires var s := Exec(start, trace);
             && d.Follows(start, trace + [NewCall(req)]
                                 + DriverCode.RunOf(Next(s, NewCall(req)), |s.calls|, sched, n, turnedBack))
             && |s.calls| < |d.calls| && d.calls[|s.calls|].pc == Returned
    ensures var c := d.calls[|Exec(start, trace).calls|];
            && c.rc != EIo
            && (c.rc != EIntr && !Invalid(c.req) && !Waits(c.req) ==> c.rc == Ok && c.out.Some? == !c.req.WriteEnable?)
  {
    hide Next;
    hide DriverCode.RunOf;
    hide AnyAccessFailed;
    hide RollbackLost;
    hide StartRefused;
    var s := Exec(start, trace);
    var id, first := |s.calls|, trace + [NewCall(req)];
    var t := Next(s, NewCall(req));
    var run := DriverCode.RunOf(t, id, sched, n, turnedBack);
    NotYetMade(start, trace, id);
    NoStepNoFailure(s, NewCall(req), id);
    FailuresAppend(start, trace, [NewCall(req)], id);
    ExecAppend(start, trace, [NewCall(req)]);
    PossibleParts(start, first, run);
    RunOfWorks(t, id, sched, n, turnedBack);
    FailuresAppend(start, first, run, id);
    CodeExplains(d, start, first + run, id);
  }

  lemma {:induction false} HappeningIsGenuine(s: State, others: seq<Event>, id: nat)
    requires Genuine(others)
    ensures Genuine(DriverCode.Happening(s, others, id))
    decreases |others|
  {
    hide DriverCode.ByOthers;
    hide Next;
    if others != [] {
      HappeningIsGenuine(s, others[1..], id);
      if DriverCode.ByOthers(s, others[0], id) {
        assert Enabled(s, others[0]) by { ByOthersIsEnabled(s, others[0], id); }
        HappeningIsGenuine(Next(s, others[0]), others[1..], id);
      }
    }
  }

  lemma ByOthersIsEnabled(s: State, e: Event, id: nat)
    requires DriverCode.ByOthers(s, e, id)
    ensures Enabled(s, e)
  {
  }

  /** Interrupts come only from the device during a call if the schedule offers no other. */
  lemma {:induction false} RunIsGenuine(start: State, id: nat, sched: DriverCode.Schedule, n: nat, turnedBack: bool)
    requires forall k :: 0 <= k < n ==> Genuine(sched(k).others)
    ensures Genuine(DriverCode.RunOf(start, id, sched, n, turnedBack))
  {
    hide Next;
    hide Enabled;
    hide DriverCode.Happening;
    if n > 0 {
      RunIsGenuine(start, id, sched, n - 1, false);
      var before := DriverCode.Played(start, id, sched, n - 1);
      assert DriverCode.RunOf(start, id, sched, n - 1, false) == before;
      HappeningIsGenuine(Exec(start, before), sched(n - 1).others, id);
    }
  }

  /** So a request that comes in keeps the run genuine. */
  lemma ServedIsGenuine(trace: seq<Event>, req: Req, s: State, id: nat, sched: DriverCode.Schedule, n: nat,
                        turnedBack: bool)
    requires Genuine(trace) && forall k :: 0 <= k < n ==> Genuine(sched(k).others)
    ensures Genuine(trace + [NewCall(req)] + DriverCode.RunOf(s, id, sched, n, turnedBack))
  {
    RunIsGenuine(s, id, sched, n, turnedBack);
    hide DriverCode.RunOf;
  }

  /** From a new driver through a first request, with whatever else its schedule lets happen. */
  method FirstRequest(channel: Channel, flash: Flash, cmdData: u16, mask: LineMask,
                      req: Req, interrupted: bool, sched: DriverCode.Schedule, patience: nat)
    returns (d: DriverCode.Driver, done: bool, rc: Rc, out: Option<u16>, used: nat, ghost trace: seq<Event>)
    requires ReqChannel(req) == channel
    ensures fresh(d) && (exists start :: Initial(start) && start.dev.flash == flash && d.Follows(start, trace))
    ensures (forall k :: 0 <= k < used ==> Genuine(sched(k).others)) ==>
              Linearizes(flash, d.dev.flash, d.calls, d.log)
  {
    hide Linearizes;
    hide DriverCode.RunOf;
    d := new DriverCode.Driver(channel, flash, cmdData, mask);
    ghost var start := d.Abs();
    done, rc, out, used, trace := d.Serve(req, interrupted, sched, patience, start, []);
    if forall k :: 0 <= k < used ==> Genuine(sched(k).others) {
      ServedIsGenuine([], req, Next(start, NewCall(req)), |start.calls|, sched, used, done && rc == EIntr);
      CodeLinearizes(d, start, trace);
    }
  }
}
