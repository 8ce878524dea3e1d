/**
 The two instances of the handshake together, as they share IFG, ERR, the mask of lines and the
 interrupt thread. Every run of both is a run of each, so that the theorems about one instance hold
 of the two side by side.
 */
module ProtocolInstances {
  import opened Common
  import opened Protocol
  import opened ProtocolMatching
  import opened ProtocolProgress

  /** General commands and flash operations, each with its own calls, mutex, word and part of the device. */
  datatype Both = Both(gencmd: State, flash: State) {
    function Of(channel: Channel): State {
      if channel.GencmdChannel? then gencmd else flash
    }
  }

  /** An event of one instance. */
  datatype BothEvent = At(channel: Channel, event: Event)

  /** The two states of the instances agree on what there is only once. */
  predicate Shared(b: Both) {
    b.gencmd.channel == GencmdChannel && b.flash.channel == FlashChannel && b.gencmd.irq == b.flash.irq
  }

  /** A cause that `Noise` stands for belongs to neither instance. */
  predicate BothEnabled(b: Both, e: BothEvent) {
    Enabled(b.Of(e.channel), e.event) && (e.event.Noise? ==> Enabled(b.Of(Other(e.channel)), e.event))
  }

  /** The event as the instance `channel` sees it. */
  function SeenBy(b: Both, e: BothEvent, channel: Channel): Option<Event> {
    if e.channel == channel then Some(e.event) else Seen(b.Of(e.channel), e.event)
  }

  /** What an instance does when it sees an event. */
  function Reacted(s: State, seen: Option<Event>): State
    requires seen.Some? ==> Enabled(s, seen.value)
  {
    if seen.None? then s else Next(s, seen.value)
  }

  lemma SeenIsEnabled(b: Both, e: BothEvent, channel: Channel)
    requires Shared(b) && BothEnabled(b, e)
    ensures var seen := SeenBy(b, e, channel);
            && (seen.Some? ==> Enabled(b.Of(channel), seen.value))
            && Reacted(b.Of(channel), seen).irq == Next(b.Of(e.channel), e.event).irq
            && Reacted(b.Of(channel), seen).channel == channel
  {
    hide Next;
    hide Enabled;
    var seen := SeenBy(b, e, channel);
    if e.channel != channel {
      OtherInstanceIsNoise(b.Of(channel), b.Of(e.channel), e.event);
    }
    if seen.Some? {
      ChannelStays(b.Of(channel), seen.value);
    }
  }

  /** One step of the whole: the instance takes its own, and the other sees it. */
  function BothNext(b: Both, e: BothEvent): (after: Both)
    requires Shared(b) && BothEnabled(b, e)
    ensures Shared(after)
  {
    SeenIsEnabled(b, e, GencmdChannel);
    SeenIsEnabled(b, e, FlashChannel);
    Both(Reacted(b.gencmd, SeenBy(b, e, GencmdChannel)), Reacted(b.flash, SeenBy(b, e, FlashChannel)))
  }

  predicate BothPossible(b: Both, es: seq<BothEvent>)
    requires Shared(b)
    decreases |es|
  {
    es == [] || (BothEnabled(b, es[0]) && BothPossible(BothNext(b, es[0]), es[1..]))
  }

  function BothExec(b: Both, es: seq<BothEvent>): (after: Both)
    requires Shared(b) && BothPossible(b, es)
    ensures Shared(after)
    decreases |es|
  {
    if es == [] then b else BothExec(BothNext(b, es[0]), es[1..])
  }

  /** The run as one of the instances sees it. */
  function View(b: Both, es: seq<BothEvent>, channel: Channel): seq<Event>
    requires Shared(b) && BothPossible(b, es)
    decreases |es|
  {
    if es == [] then []
    else
      var rest := View(BothNext(b, es[0]), es[1..], channel);
      match SeenBy(b, es[0], channel)
      case None => rest
      case Some(seen) => [seen] + rest
  }

  /** What an instance sees of a run of both is a run of that instance, and leads where the run leads. */
  lemma {:induction false} ViewIsRun(b: Both, es: seq<BothEvent>, channel: Channel)
    requires Shared(b) && BothPossible(b, es)
    ensures Possible(b.Of(channel), View(b, es, channel))
    ensures Exec(b.Of(channel), View(b, es, channel)) == BothExec(b, es).Of(channel)
    decreases |es|
  {
    hide Next;
    hide Enabled;
    hide SeenBy;
    hide Shared;
    hide BothEnabled;
    if es != [] {
      ViewIsRun(BothNext(b, es[0]), es[1..], channel);
      SeenIsEnabled(b, es[0], channel);
      var seen := SeenBy(b, es[0], channel);
      if seen.Some? {
        ExecPrepend(b.Of(channel), seen.value, View(BothNext(b, es[0]), es[1..], channel));
      }
    }
  }

  predicate BothGenuine(es: seq<BothEvent>) {
    forall i :: 0 <= i < |es| ==> !es[i].event.Spurious?
  }

  /** Clean for the lines of both instances. */
  predicate BothClean(es: seq<BothEvent>) {
    forall i :: 0 <= i < |es| ==> Clean(GencmdChannel, es[i].event) && Clean(FlashChannel, es[i].event)
  }

  lemma SeenIsClean(b: Both, e: BothEvent, channel: Channel)
    requires SeenBy(b, e, channel).Some?
    ensures !e.event.Spurious? ==> !SeenBy(b, e, channel).value.Spurious?
    ensures Clean(channel, e.event) ==> Clean(channel, SeenBy(b, e, channel).value)
  {
  }

  lemma {:induction false} ViewIsClean(b: Both, es: seq<BothEvent>, channel: Channel)
    requires Shared(b) && BothPossible(b, es)
    ensures BothGenuine(es) ==> Genuine(View(b, es, channel))
    ensures BothClean(es) ==> AllClean(channel, View(b, es, channel))
    decreases |es|
  {
    hide Next;
    hide Enabled;
    hide SeenBy;
    hide Shared;
    hide BothEnabled;
    hide Clean;
    if es != [] {
      assert forall i :: 0 <= i < |es[1..]| ==> es[1..][i] == es[i + 1];
      ViewIsClean(BothNext(b, es[0]), es[1..], channel);
      if SeenBy(b, es[0], channel).Some? {
        SeenIsClean(b, es[0], channel);
      }
    }
  }

  predicate BothInitial(b: Both) {
    Shared(b) && Initial(b.gencmd) && Initial(b.flash)
  }

  /** However the calls of both instances interleave, each instance acts as its own atomic memory. */
  lemma BothLinearize(b: Both, es: seq<BothEvent>, channel: Channel)
    requires BothInitial(b) && BothPossible(b, es) && BothGenuine(es)
    ensures var s, t := b.Of(channel), BothExec(b, es).Of(channel);
            Linearizes(s.dev.flash, t.dev.flash, t.calls, t.log)
  {
    hide Linearizes;
    hide View;
    hide BothExec;
    hide BothPossible;
    ViewIsRun(b, es, channel);
    ViewIsClean(b, es, channel);
    CallsLinearize(b.Of(channel), View(b, es, channel));
  }

  /** With clean interrupts no instance loses a completion to the other, or finds its word moved by it. */
  lemma NoneLostBetween(b: Both, es: seq<BothEvent>, channel: Channel)
    requires BothInitial(b) && LinesOn(b.Of(channel)) && BothPossible(b, es) && BothClean(es)
    ensures var t := BothExec(b, es).Of(channel);
            && (Outstanding(t) ==> InFlight(t) && Tokens(t) == 1 && t.dropped == 0)
            && (t.lock == None ==> t.word == Idle)
  {
    hide View;
    hide BothExec;
    hide BothPossible;
    hide InFlight;
    hide Tokens;
    hide Outstanding;
    hide Clean;
    hide Next;
    var s, view := b.Of(channel), View(b, es, channel);
    ViewIsRun(b, es, channel);
    ViewIsClean(b, es, channel);
    NoLostCompletion(s, view);
    FreeIsIdle(s, view);
  }

  lemma FreeIsIdle(s: State, es: seq<Event>)
    requires Initial(s) && Possible(s, es) && AllClean(s.channel, es)
    ensures Exec(s, es).lock == None ==> Exec(s, es).word == Idle
  {
    hide Next;
    InitialIsMatched(s);
    RunKeepsMatched(s.dev.flash, s, es);
  }
}
