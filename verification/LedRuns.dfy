/** What every run of refreshes and calls makes of the LEDs. */
module LedRuns {
  import opened Common
  import opened LedFields
  import opened LedPanel
  import opened BitPattern
  import BlinkDelay

  /** The steps of a run: a refresh, or a call on one LED. */
  datatype Event =
    | Refresh
    | Brightness(led: Index, value: int)
    | Blink(led: Index, on: nat, off: nat)
    | Pattern(led: Index, bits: Bits, length: nat)
    | NoPattern(led: Index)

  type Sound = p: Panel | p.step < WIDTH witness Panel(AllResting(), AllOff(), 0, true)

  function Applied(p: Sound, e: Event): Sound {
    match e
    case Refresh => Tick(p)
    case Brightness(i, value) => Brightened(p, i, value)
    case Blink(i, on, off) => BlinkStarted(p, i, on, off)
    case Pattern(i, bits, length) =>
      if length > 0 && DividesWidth(length) then PatternStarted(p, i, Replicated(bits, length)) else p
    case NoPattern(i) => PatternStarted(p, i, NoBits())
  }

  function After(p: Sound, es: seq<Event>): Sound {
    if es == [] then p else Applied(After(p, es[..|es| - 1]), es[|es| - 1])
  }

  function Refreshes(es: seq<Event>): nat {
    if es == [] then 0 else Refreshes(es[..|es| - 1]) + Count(es[|es| - 1].Refresh?)
  }

  lemma {:induction false} RunsAppend(p: Sound, a: seq<Event>, b: seq<Event>)
    ensures After(p, a + b) == After(After(p, a), b) && Refreshes(a + b) == Refreshes(a) + Refreshes(b)
  {
    hide Applied;
    if b == [] {
      assert a + b == a;
    } else {
      RunsAppend(p, a, b[..|b| - 1]);
      assert (a + b)[..|a + b| - 1] == a + b[..|b| - 1];
    }
  }

  // The cached state and the hardware

  predicate Active(led: Led) {
    Blinking(led) || Patterned(led)
  }

  /** The cached state of an LED that is refreshed is what its hardware field shows. */
  predicate CacheFits(p: Panel, i: Index) {
    Active(p.leds[i]) ==> p.lamps[i] == LampFor(p.leds[i].prevOn)
  }

  lemma BlinkTickKeepsCache(p: Panel, i: Index)
    requires CacheFits(p, i)
    ensures CacheFits(BlinkTick(p), i)
  {
  }

  lemma PatternTickKeepsCache(p: Sound, i: Index)
    requires CacheFits(p, i)
    ensures CacheFits(PatternTick(p), i)
  {
  }

  /** What a brightness call must find so that the cached state stays right; other calls always keep it. */
  predicate KeepsCache(p: Panel, e: Event, i: Index) {
    e.Brightness? && e.led == i ==>
      || !(Patterned(p.leds[i]) || (Blinking(p.leds[i]) && e.value != 0))
      || p.leds[i].prevOn == (e.value > 0)
  }

  lemma CacheFitsIff(p: Sound, e: Event, i: Index)
    requires p.working && CacheFits(p, i)
    ensures CacheFits(Applied(p, e), i) <==> KeepsCache(p, e, i)
  {
    if e.Refresh? {
      BlinkTickKeepsCache(p, i);
      PatternTickKeepsCache(BlinkTick(p), i);
    }
  }

  predicate AllKeepCache(p: Sound, es: seq<Event>, i: Index) {
    es == []
    || (AllKeepCache(p, es[..|es| - 1], i) && KeepsCache(After(p, es[..|es| - 1]), es[|es| - 1], i))
  }

  /** Over every run of refreshes and calls the cache of each LED agrees with the hardware. */
  lemma {:induction false} CacheFitsInRuns(p: Sound, es: seq<Event>, i: Index)
    requires p.working && CacheFits(p, i) && AllKeepCache(p, es, i)
    ensures After(p, es).working && CacheFits(After(p, es), i)
  {
    hide CacheFits;
    hide KeepsCache;
    if es != [] {
      CacheFitsInRuns(p, es[..|es| - 1], i);
      CacheFitsIff(After(p, es[..|es| - 1]), es[|es| - 1], i);
    }
  }

  /** A lit brightness call on an LED that blinks and is dark: the next refresh does not put it out again. */
  lemma LostBrightness(p: Sound, i: Index, value: int)
    requires p.working && CacheFits(p, i) && !Patterned(p.leds[i]) && value > 0
    requires Blinking(p.leds[i]) && !p.leds[i].prevOn && !BlinkOn(p.leds, i)
    ensures Tick(Applied(p, Brightness(i, value))).lamps[i] == Dimmed
    ensures Tick(p).lamps[i] == Off
  {
  }

  // No LED is changed by what happens to another

  predicate Touches(e: Event, i: Index) {
    !e.Refresh? && e.led == i
  }

  predicate Untouched(es: seq<Event>, i: Index) {
    forall k :: 0 <= k < |es| ==> !Touches(es[k], i)
  }

  lemma OthersLeaveLed(p: Sound, e: Event, i: Index)
    requires !Touches(e, i)
    ensures !e.Refresh? ==> Applied(p, e).leds[i] == p.leds[i] && Applied(p, e).lamps[i] == p.lamps[i]
    ensures e.Refresh? && !Active(p.leds[i]) ==>
              Applied(p, e).leds[i] == p.leds[i] && Applied(p, e).lamps[i] == p.lamps[i]
    ensures Applied(p, e).working == p.working
  {
  }

  /** An LED that is neither blinking nor patterned changes only through calls on itself. */
  lemma {:induction false} IdleLedStays(p: Sound, es: seq<Event>, i: Index)
    requires !Active(p.leds[i]) && Untouched(es, i)
    ensures After(p, es).leds[i] == p.leds[i] && After(p, es).lamps[i] == p.lamps[i]
  {
    if es != [] {
      IdleLedStays(p, es[..|es| - 1], i);
      OthersLeaveLed(After(p, es[..|es| - 1]), es[|es| - 1], i);
    }
  }

  // Runs in which an LED does not mirror its neighbour

  /** No refresh of the run finds LED `i` mirroring its neighbour. */
  predicate NeverMirrors(p: Sound, es: seq<Event>, i: Index) {
    es == []
    || (NeverMirrors(p, es[..|es| - 1], i)
        && (es[|es| - 1].Refresh? ==> !Mirrors(After(p, es[..|es| - 1]).leds, i)))
  }

  /** A call that gives LED `i` both counts `n`. */
  predicate BlinksEvenly(e: Event, i: Index, n: nat) {
    e.Blink? && e.led == i && e.on == n && e.off == n
  }

  /** The counts of the LED, and whether its neighbour has both counts equal to its own. */
  predicate Unlike(p: Panel, i: Index, on: nat, off: nat) {
    && p.leds[i].on == on && p.leds[i].off == off
    && (i % 2 == 1 && on == off ==> p.leds[i - 1].on != on || p.leds[i - 1].off != off)
  }

  lemma UnlikeStep(p: Sound, e: Event, i: Index, on: nat, off: nat)
    requires on > 0 && Unlike(p, i, on, off) && !Touches(e, i)
    requires i % 2 == 1 && on == off ==> !BlinksEvenly(e, i - 1, on)
    ensures Unlike(Applied(p, e), i, on, off) && !Mirrors(p.leds, i)
  {
  }

  /**
   An LED never mirrors its neighbour if it is even, or its counts differ, or its neighbour does not
   blink with the same counts, as one that is off, and is not made to.
   */
  lemma {:induction false} UnlikeNeverMirrors(p: Sound, es: seq<Event>, i: Index, on: nat, off: nat)
    requires on > 0 && Unlike(p, i, on, off) && Untouched(es, i)
    requires i % 2 == 1 && on == off ==> forall k :: 0 <= k < |es| ==> !BlinksEvenly(es[k], i - 1, on)
    ensures NeverMirrors(p, es, i) && Unlike(After(p, es), i, on, off)
  {
    hide Applied;
    hide Unlike;
    hide Mirrors;
    hide BlinksEvenly;
    if es != [] {
      UnlikeNeverMirrors(p, es[..|es| - 1], i, on, off);
      UnlikeStep(After(p, es[..|es| - 1]), es[|es| - 1], i, on, off);
    }
  }

  /** What a run makes of the LEDs does not depend on the lamps. */
  lemma {:induction false} LampsDoNotMatter(p: Sound, q: Sound, es: seq<Event>, i: Index)
    requires p.leds == q.leds && p.step == q.step
    ensures After(p, es).leds == After(q, es).leds && After(p, es).step == After(q, es).step
    ensures NeverMirrors(p, es, i) == NeverMirrors(q, es, i)
  {
    hide Applied;
    if es != [] {
      LampsDoNotMatter(p, q, es[..|es| - 1], i);
      SameLeds(After(p, es[..|es| - 1]), After(q, es[..|es| - 1]), es[|es| - 1]);
    }
  }

  lemma SameLeds(p: Sound, q: Sound, e: Event)
    requires p.leds == q.leds && p.step == q.step
    ensures Applied(p, e).leds == Applied(q, e).leds && Applied(p, e).step == Applied(q, e).step
  {
  }

  /** LED `i` is as `led`, `passed` intervals later in the same dark phase, and its lamp shows `lamp`. */
  predicate InDark(p: Panel, i: Index, led: Led, passed: nat, lamp: Lamp) {
    && p.working && p.lamps[i] == lamp
    && p.leds[i] == led.(current := if led.current + passed == led.on + led.off then 0 else led.current + passed)
  }

  lemma DarkStep(p: Sound, e: Event, i: Index, led: Led, passed: nat, lamp: Lamp)
    requires InDark(p, i, led, passed, lamp) && !Touches(e, i)
    requires Blinking(led) && !Patterned(led) && !led.prevOn && led.on <= led.current
    requires (e.Refresh? ==> !Mirrors(p.leds, i)) && led.current + passed + Count(e.Refresh?) <= led.on + led.off
    ensures InDark(Applied(p, e), i, led, passed + Count(e.Refresh?), lamp)
  {
    OthersLeaveLed(p, e, i);
  }

  lemma {:induction false} DarkInRuns(p: Sound, es: seq<Event>, i: Index, led: Led, lamp: Lamp)
    requires InDark(p, i, led, 0, lamp) && Untouched(es, i)
    requires Blinking(led) && !Patterned(led) && !led.prevOn && led.on <= led.current
    requires NeverMirrors(p, es, i) && led.current + Refreshes(es) <= led.on + led.off
    ensures InDark(After(p, es), i, led, Refreshes(es), lamp)
  {
    hide InDark;
    hide Applied;
    hide Mirrors;
    if es != [] {
      var front := es[..|es| - 1];
      DarkInRuns(p, front, i, led, lamp);
      DarkStep(After(p, front), es[|es| - 1], i, led, Refreshes(front), lamp);
    }
  }

  /**
   Such a call leaves an LED that does not mirror its neighbour lit through the rest of its dark phase,
   where it would have been off, whatever happens to the other LEDs.
   */
  lemma LostThroughDark(p: Sound, i: Index, value: int, es: seq<Event>)
    requires p.working && CacheFits(p, i) && !Patterned(p.leds[i]) && value > 0 && Untouched(es, i)
    requires Blinking(p.leds[i]) && !p.leds[i].prevOn && p.leds[i].on <= p.leds[i].current
    requires NeverMirrors(p, es, i) && p.leds[i].current < p.leds[i].on + p.leds[i].off
    requires p.leds[i].current + Refreshes(es) <= p.leds[i].on + p.leds[i].off
    ensures After(Applied(p, Brightness(i, value)), es).lamps[i] == Dimmed
    ensures After(p, es).lamps[i] == Off
  {
    LampsDoNotMatter(p, Applied(p, Brightness(i, value)), es, i);
    DarkInRuns(Applied(p, Brightness(i, value)), es, i, p.leds[i], Dimmed);
    DarkInRuns(p, es, i, p.leds[i], Off);
  }

  // Blinking

  /** The n-th refresh, counted from 0, of an LED with these counts shows it lit. */
  predicate LitAt(n: nat, on: nat, off: nat)
    requires on + off > 0
  {
    n % (on + off) < on
  }

  /** LED `i` blinks with these counts and is in phase `phase` of its period. */
  predicate InPhase(p: Panel, i: Index, on: nat, off: nat, phase: nat) {
    && p.working && CacheFits(p, i) && !Patterned(p.leds[i])
    && p.leds[i].on == on > 0 && p.leds[i].off == off > 0 && p.leds[i].current == phase < on + off
  }

  lemma PhaseStep(p: Sound, e: Event, i: Index, on: nat, off: nat, phase: nat)
    requires InPhase(p, i, on, off, phase) && !Touches(e, i)
    ensures InPhase(Applied(p, e), i, on, off,
                    if !e.Refresh? then phase else if phase + 1 == on + off then 0 else phase + 1)
  {
    OthersLeaveLed(p, e, i);
    if e.Refresh? {
      BlinkTickKeepsCache(p, i);
      PatternTickKeepsCache(BlinkTick(p), i);
    }
  }

  lemma NextPhase(n: nat, period: nat)
    requires period > 0
    ensures (n + 1) % period == if n % period + 1 == period then 0 else n % period + 1
  {
    if n % period + 1 == period {
      assert n + 1 == period * (n / period + 1);
      ModUnique(n + 1, period, n / period + 1, 0);
    } else {
      ModUnique(n + 1, period, n / period, n % period + 1);
    }
  }

  lemma {:induction false} PhaseInRuns(p: Sound, es: seq<Event>, i: Index, on: nat, off: nat)
    requires InPhase(p, i, on, off, 0) && Untouched(es, i)
    ensures InPhase(After(p, es), i, on, off, Refreshes(es) % (on + off))
  {
    hide InPhase;
    hide Applied;
    if es == [] {
      PeriodPositive(p, i, on, off);
      ModUnique(0, on + off, 0, 0);
    } else {
      var front := es[..|es| - 1];
      PhaseInRuns(p, front, i, on, off);
      PeriodPositive(p, i, on, off);
      PhaseStep(After(p, front), es[|es| - 1], i, on, off, Refreshes(front) % (on + off));
      NextPhase(Refreshes(front), on + off);
    }
  }

  lemma PeriodPositive(p: Sound, i: Index, on: nat, off: nat)
    requires InPhase(p, i, on, off, 0)
    ensures on + off > 0
  {
  }

  lemma ShownInPhase(p: Sound, i: Index, on: nat, off: nat, phase: nat)
    requires InPhase(p, i, on, off, phase)
    ensures Applied(p, Refresh).lamps[i] == LampFor(BlinkOn(p.leds, i))
    ensures !Mirrors(p.leds, i) ==> BlinkOn(p.leds, i) == (phase < on)
  {
  }

  /**
   The refresh number n after a blink call, with no further call on that LED, shows it lit exactly
   when n mod (on + off) is below on; an LED that mirrors its neighbour shows the opposite of it.
   */
  lemma BlinkClosedForm(p: Sound, i: Index, on: nat, off: nat, es: seq<Event>)
    requires p.working && on > 0 && off > 0 && !Patterned(p.leds[i]) && Untouched(es, i)
    ensures var q := After(Applied(p, Blink(i, on, off)), es);
            && Applied(q, Refresh).lamps[i] ==
                 LampFor(if Mirrors(q.leds, i) then q.leds[i - 1].current >= q.leds[i - 1].on
                         else LitAt(Refreshes(es), on, off))
            && (i % 2 == 0 || on != off ==> !Mirrors(q.leds, i))
  {
    var start := Applied(p, Blink(i, on, off));
    PhaseInRuns(start, es, i, on, off);
    ShownInPhase(After(start, es), i, on, off, Refreshes(es) % (on + off));
    hide Applied;
  }

  /** How many of the numbers n, n + 1, ..., n + length - 1 lie in the lit part of the period. */
  function LitWithin(n: nat, length: nat, on: nat, off: nat): nat
    requires on + off > 0
  {
    if length == 0 then 0
    else LitWithin(n, length - 1, on, off) + Count(LitAt(n + length - 1, on, off))
  }

  lemma {:induction false} LitFromStart(length: nat, on: nat, off: nat)
    requires on + off > 0 && length <= on + off
    ensures LitWithin(0, length, on, off) == if length < on then length else on
  {
    if length > 0 {
      LitFromStart(length - 1, on, off);
      ModUnique(length - 1, on + off, 0, length - 1);
    }
  }

  lemma {:induction false} LitShifted(n: nat, length: nat, on: nat, off: nat)
    requires on + off > 0
    ensures LitWithin(n + 1, length, on, off) + Count(LitAt(n, on, off))
         == LitWithin(n, length, on, off) + Count(LitAt(n + length, on, off))
  {
    if length > 0 {
      LitShifted(n, length - 1, on, off);
    }
  }

  lemma {:induction false} LitInPeriod(n: nat, on: nat, off: nat)
    requires on + off > 0
    ensures LitWithin(n, on + off, on, off) == on
  {
    if n == 0 {
      LitFromStart(on + off, on, off);
    } else {
      LitInPeriod(n - 1, on, off);
      LitShifted(n - 1, on + off, on, off);
      ModOnce(n - 1, on + off);
    }
  }

  /** How many refreshes of the run leave the lamp of LED `i` lit. */
  function LitShown(p: Sound, es: seq<Event>, i: Index): nat {
    if es == [] then 0
    else LitShown(p, es[..|es| - 1], i) + Count(es[|es| - 1].Refresh? && After(p, es).lamps[i] == Dimmed)
  }

  /** The lit refreshes of the part `es` of a run that follows `before` after the blink call. */
  lemma {:induction false} LitShownWithin(p: Sound, i: Index, on: nat, off: nat, before: seq<Event>, es: seq<Event>)
    requires p.working && on > 0 && off > 0 && !Patterned(p.leds[i]) && Untouched(before + es, i)
    requires NeverMirrors(After(Applied(p, Blink(i, on, off)), before), es, i)
    ensures LitShown(After(Applied(p, Blink(i, on, off)), before), es, i)
         == LitWithin(Refreshes(before), Refreshes(es), on, off)
  {
    hide Applied;
    hide Patterned;
    hide LitAt;
    hide Mirrors;
    if es != [] {
      var start, front := Applied(p, Blink(i, on, off)), es[..|es| - 1];
      assert (before + es)[..|before + es| - 1] == before + front;
      assert Untouched(before + front, i);
      LitShownWithin(p, i, on, off, before, front);
      RunsAppend(start, before, front);
      if es[|es| - 1].Refresh? {
        BlinkClosedForm(p, i, on, off, before + front);
      }
    }
  }

  /**
   Of any on + off refreshes in a row exactly `on` leave the lamp of an LED lit that does not mirror
   its neighbour, whatever happens to other LEDs.
   */
  lemma LitShare(p: Sound, i: Index, on: nat, off: nat, before: seq<Event>, es: seq<Event>)
    requires p.working && on > 0 && off > 0 && !Patterned(p.leds[i]) && Untouched(before + es, i)
    requires NeverMirrors(After(Applied(p, Blink(i, on, off)), before), es, i) && Refreshes(es) == on + off
    ensures LitShown(After(Applied(p, Blink(i, on, off)), before), es, i) == on
  {
    hide Applied;
    hide After;
    hide LitShown;
    hide NeverMirrors;
    LitShownWithin(p, i, on, off, before, es);
    LitInPeriod(Refreshes(before), on, off);
  }

  predicate BlinkAlike(leds: Leds, i: Index) {
    && i % 2 == 1 && Blinking(leds[i]) && leds[i].on == leds[i].off == leds[i - 1].on == leds[i - 1].off
    && !Patterned(leds[i]) && !Patterned(leds[i - 1])
  }

  lemma PairStep(q: Sound, i: Index)
    requires BlinkAlike(q.leds, i) && CacheFits(q, i - 1) && CacheFits(q, i)
    ensures var lamps := Tick(q).lamps;
            (lamps[i - 1] == Dimmed && lamps[i] == Off) || (lamps[i - 1] == Off && lamps[i] == Dimmed)
  {
  }

  /** Two neighbours that blink alike show opposite states after every refresh. */
  lemma PairsAlternate(p: Sound, es: seq<Event>, i: Index)
    requires i > 0 && p.working && BlinkAlike(After(p, es).leds, i)
    requires CacheFits(p, i - 1) && CacheFits(p, i) && AllKeepCache(p, es, i - 1) && AllKeepCache(p, es, i)
    ensures var lamps := Applied(After(p, es), Refresh).lamps;
            (lamps[i - 1] == Dimmed && lamps[i] == Off) || (lamps[i - 1] == Off && lamps[i] == Dimmed)
  {
    hide CacheFits;
    hide AllKeepCache;
    hide BlinkAlike;
    hide Tick;
    CacheFitsInRuns(p, es, i - 1);
    CacheFitsInRuns(p, es, i);
    PairStep(After(p, es), i);
  }

  /** Every refresh of the run finds LED `i` and its neighbour blinking alike. */
  predicate AlwaysAlike(p: Sound, es: seq<Event>, i: Index)
    requires i > 0
  {
    es == []
    || (AlwaysAlike(p, es[..|es| - 1], i)
        && (es[|es| - 1].Refresh? ==> BlinkAlike(After(p, es[..|es| - 1]).leds, i)))
  }

  /** Each refresh of such a pair leaves one of the two lit, whenever and however often either was started. */
  lemma {:induction false} PairShare(p: Sound, es: seq<Event>, i: Index)
    requires i > 0 && p.working && AlwaysAlike(p, es, i)
    requires CacheFits(p, i - 1) && CacheFits(p, i) && AllKeepCache(p, es, i - 1) && AllKeepCache(p, es, i)
    ensures LitShown(p, es, i) + LitShown(p, es, i - 1) == Refreshes(es)
  {
    hide CacheFits;
    hide BlinkAlike;
    hide KeepsCache;
    hide Applied;
    if es != [] {
      var front := es[..|es| - 1];
      PairShare(p, front, i);
      if es[|es| - 1].Refresh? {
        PairsAlternate(p, front, i);
      }
    }
  }

  lemma AlikeStep(p: Sound, e: Event, i: Index)
    requires i > 0 && BlinkAlike(p.leds, i) && !Touches(e, i) && !Touches(e, i - 1)
    ensures BlinkAlike(Applied(p, e).leds, i) && KeepsCache(p, e, i) && KeepsCache(p, e, i - 1)
  {
  }

  lemma {:induction false} AlikeInRuns(p: Sound, es: seq<Event>, i: Index)
    requires i > 0 && BlinkAlike(p.leds, i) && Untouched(es, i) && Untouched(es, i - 1)
    ensures BlinkAlike(After(p, es).leds, i) && AlwaysAlike(p, es, i)
    ensures AllKeepCache(p, es, i - 1) && AllKeepCache(p, es, i)
  {
    hide BlinkAlike;
    hide KeepsCache;
    hide Applied;
    if es != [] {
      AlikeInRuns(p, es[..|es| - 1], i);
      AlikeStep(After(p, es[..|es| - 1]), es[|es| - 1], i);
    }
  }

  /** Two neighbours that blink alike share the refreshes of every run without calls on them. */
  lemma AlikePairShare(p: Sound, es: seq<Event>, i: Index)
    requires i > 0 && p.working && BlinkAlike(p.leds, i) && Untouched(es, i) && Untouched(es, i - 1)
    requires CacheFits(p, i - 1) && CacheFits(p, i)
    ensures LitShown(p, es, i) + LitShown(p, es, i - 1) == Refreshes(es)
  {
    AlikeInRuns(p, es, i);
    PairShare(p, es, i);
  }

  lemma NeighbourInPhase(p: Sound, i: Index, n: nat, before: seq<Event>)
    requires p.working && n > 0 && !Patterned(p.leds[i]) && Untouched(before, i)
    ensures var q := After(Applied(p, Blink(i, n, n)), before);
            q.working && CacheFits(q, i) && (i % 2 == 0 ==> Unlike(q, i, n, n))
  {
    PhaseInRuns(Applied(p, Blink(i, n, n)), before, i, n, n);
  }

  lemma UntouchedParts(a: seq<Event>, b: seq<Event>, i: Index)
    requires Untouched(a + b, i)
    ensures Untouched(a, i) && Untouched(b, i)
  {
    assert forall k :: 0 <= k < |a| ==> a[k] == (a + b)[k];
    assert forall k :: 0 <= k < |b| ==> b[k] == (a + b)[|a| + k];
  }

  /** Of any 2 * n refreshes in a row exactly n leave an LED lit that mirrors a neighbour with both counts n. */
  lemma MirrorShare(p: Sound, i: Index, n: nat, before: seq<Event>, es: seq<Event>)
    requires i % 2 == 1 && p.working && n > 0 && !Patterned(p.leds[i - 1]) && Refreshes(es) == 2 * n
    requires Untouched(before + es, i - 1) && Untouched(es, i)
    requires var q := After(Applied(p, Blink(i - 1, n, n)), before); BlinkAlike(q.leds, i) && CacheFits(q, i)
    ensures LitShown(After(Applied(p, Blink(i - 1, n, n)), before), es, i) == n
  {
    hide Applied;
    hide After;
    hide BlinkAlike;
    hide CacheFits;
    hide LitShown;
    hide Untouched;
    hide Unlike;
    hide NeverMirrors;
    hide Patterned;
    var q := After(Applied(p, Blink(i - 1, n, n)), before);
    UntouchedParts(before, es, i - 1);
    NeighbourInPhase(p, i - 1, n, before);
    UnlikeNeverMirrors(q, es, i - 1, n, n);
    LitShare(p, i - 1, n, n, before, es);
    AlikePairShare(q, es, i);
  }

  // Patterns

  lemma {:induction false} StepCounts(p: Sound, es: seq<Event>)
    ensures After(p, es).step == (p.step + Refreshes(es)) % WIDTH
  {
    if es == [] {
      ModUnique(p.step, WIDTH, 0, p.step);
    } else {
      StepCounts(p, es[..|es| - 1]);
      StepMoves(After(p, es[..|es| - 1]), es[|es| - 1]);
      NextPhase(p.step + Refreshes(es[..|es| - 1]), WIDTH);
    }
  }

  lemma StepMoves(p: Sound, e: Event)
    ensures Applied(p, e).step == if !e.Refresh? then p.step else if p.step + 1 == WIDTH then 0 else p.step + 1
  {
  }

  /** LED `i` has this stored pattern, and shows its cached state. */
  predicate Playing(p: Panel, i: Index, stored: Bits) {
    && p.working && CacheFits(p, i) && p.leds[i].pattern == stored
    && (NonZero(stored) || (!Blinking(p.leds[i]) && p.lamps[i] == Off))
  }

  lemma PlayingStep(p: Sound, e: Event, i: Index, stored: Bits)
    requires Playing(p, i, stored) && !Touches(e, i)
    ensures Playing(Applied(p, e), i, stored)
    ensures e.Refresh? ==> Applied(p, e).lamps[i] == LampFor(stored[p.step])
  {
    OthersLeaveLed(p, e, i);
    if e.Refresh? {
      BlinkTickKeepsCache(p, i);
      PatternTickKeepsCache(BlinkTick(p), i);
    }
  }

  lemma {:induction false} PlayingInRuns(p: Sound, es: seq<Event>, i: Index, stored: Bits)
    requires Playing(p, i, stored) && Untouched(es, i)
    ensures Playing(After(p, es), i, stored)
  {
    hide Playing;
    if es != [] {
      PlayingInRuns(p, es[..|es| - 1], i, stored);
      PlayingStep(After(p, es[..|es| - 1]), es[|es| - 1], i, stored);
    }
  }

  lemma TimesGroup(a: nat, b: nat, c: nat)
    ensures a * (b * c) == (a * b) * c
  {
  }

  lemma Divisor(length: nat) returns (m: nat)
    requires DividesWidth(length)
    ensures length > 0 && length * m == WIDTH
  {
    DivisorsDivide(length);
    m := WIDTH / length;
  }

  /** Time splits into whole turns of the clock, which are whole turns of the pattern, and the rest. */
  lemma StepOfTime(time: nat, length: nat)
    requires DividesWidth(length)
    ensures length > 0 && time % WIDTH % length == time % length
  {
    hide DividesWidth;
    var m := Divisor(length);
    var turns := time / WIDTH;
    TimesGroup(length, m, turns);
    ModLess(time, length, m * turns);
  }

  /** What the stored pattern holds at the clock's step. */
  lemma StoredAtTime(bits: Bits, length: nat, time: nat)
    requires length > 0 && DividesWidth(length)
    ensures time % length < length <= WIDTH && Replicated(bits, length)[time % WIDTH] == bits[time % length]
  {
    StepOfTime(time, length);
  }

  lemma PatternPlays(p: Sound, i: Index, bits: Bits, length: nat)
    requires p.working && length > 0 && DividesWidth(length)
    requires NonZero(Replicated(bits, length)) || !Blinking(p.leds[i])
    ensures Playing(Applied(p, Pattern(i, bits, length)), i, Replicated(bits, length))
    ensures Applied(p, Pattern(i, bits, length)).step == p.step
  {
    hide Replicated;
  }

  lemma ClockAdds(time: nat, n: nat)
    ensures (time % WIDTH + n) % WIDTH == (time + n) % WIDTH
  {
  }

  /**
   With `time` refreshes before it, a refresh shows bit (time mod length) of the pattern that was
   installed, whenever that was: all patterns play in phase with one clock.
   */
  lemma PatternPhaseLock(p: Sound, time: nat, i: Index, bits: Bits, length: nat, es: seq<Event>)
    requires p.working && p.step == time % WIDTH && length > 0 && DividesWidth(length) && Untouched(es, i)
    requires NonZero(Replicated(bits, length)) || !Blinking(p.leds[i])
    ensures (time + Refreshes(es)) % length < length <= WIDTH
    ensures Applied(After(Applied(p, Pattern(i, bits, length)), es), Refresh).lamps[i]
         == LampFor(bits[(time + Refreshes(es)) % length])
  {
    hide Playing;
    hide Applied;
    hide Replicated;
    hide DividesWidth;
    var stored := Replicated(bits, length);
    var start := Applied(p, Pattern(i, bits, length));
    PatternPlays(p, i, bits, length);
    PlayingInRuns(start, es, i, stored);
    PlayingStep(After(start, es), Refresh, i, stored);
    StepCounts(start, es);
    ClockAdds(time, Refreshes(es));
    StoredAtTime(bits, length, time + Refreshes(es));
  }

  // The counts of every run

  predicate BothOrNone(led: Led) {
    led.on == 0 <==> led.off == 0
  }

  /** A blink call keeps the counts both zero or both positive exactly when both delays wrap or neither does. */
  lemma CountsStayTogether(p: Sound, i: Index, range: BlinkDelay.UlongRange, delayOn: nat, delayOff: nat)
    requires delayOn < range && delayOff < range
    ensures
      var on, off := BlinkDelay.IntervalCount(range, delayOn), BlinkDelay.IntervalCount(range, delayOff);
      var onFits := delayOn + (BlinkDelay.INTERVAL_MS - 1) < range;
      var offFits := delayOff + (BlinkDelay.INTERVAL_MS - 1) < range;
      BothOrNone(Applied(p, Blink(i, on, off)).leds[i]) <==> (onFits <==> offFits)
  {
    BlinkDelay.CountIsZeroIff(range, delayOn);
    BlinkDelay.CountIsZeroIff(range, delayOff);
  }

  lemma {:induction false} CountsInRuns(p: Sound, es: seq<Event>, i: Index)
    requires BothOrNone(p.leds[i])
    requires forall k :: 0 <= k < |es| && es[k].Blink? ==> (es[k].on == 0 <==> es[k].off == 0)
    ensures BothOrNone(After(p, es).leds[i])
  {
    if es != [] {
      CountsInRuns(p, es[..|es| - 1], i);
      CountsStep(After(p, es[..|es| - 1]), es[|es| - 1], i);
    }
  }

  lemma CountsStep(p: Sound, e: Event, i: Index)
    requires BothOrNone(p.leds[i]) && (e.Blink? ==> (e.on == 0 <==> e.off == 0))
    ensures BothOrNone(Applied(p, e).leds[i])
  {
  }
}
