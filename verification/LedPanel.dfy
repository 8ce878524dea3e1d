/** The sixteen LEDs as the driver's callers see them, one LED at a time. */
module LedPanel {
  import opened LedFields
  import opened BitPattern

  const LED_COUNT: nat := 16

  type Index = i: nat | i < LED_COUNT

  datatype Led = Led(on: nat, off: nat, current: nat, prevOn: bool, pattern: Bits)

  function Resting(): Led {
    Led(0, 0, 0, false, NoBits())
  }

  function AllResting(): seq<Led> {
    seq(LED_COUNT, _ => Resting())
  }

  function AllOff(): seq<Lamp> {
    seq(LED_COUNT, _ => Off)
  }

  type Leds = s: seq<Led> | |s| == LED_COUNT witness AllResting()
  type Lamps = s: seq<Lamp> | |s| == LED_COUNT witness AllOff()

  /** `working` says that the refresh thread exists. */
  datatype Panel = Panel(leds: Leds, lamps: Lamps, step: nat, working: bool)

  /** The two LEDs with a negative initial brightness. */
  predicate Battery(i: Index) {
    i == 4 || i == 5
  }

  predicate Blinking(led: Led) {
    led.on != 0 && led.off != 0
  }

  /** An odd LED that blinks evenly and like its even neighbour. */
  predicate Mirrors(leds: Leds, i: Index) {
    && i % 2 == 1
    && leds[i].off == leds[i].on && leds[i].off == leds[i - 1].off && leds[i].on == leds[i - 1].on
  }

  predicate BlinkOn(leds: Leds, i: Index) {
    if Mirrors(leds, i) then leds[i - 1].current >= leds[i - 1].on else leds[i].current < leds[i].on
  }

  function LampFor(on: bool): Lamp {
    if on then Dimmed else Off
  }

  function NextInterval(led: Led): nat {
    if led.current + 1 >= led.on + led.off then 0 else led.current + 1
  }

  function BlinkedLed(leds: Leds, i: Index): Led {
    if Blinking(leds[i]) then leds[i].(prevOn := BlinkOn(leds, i), current := NextInterval(leds[i])) else leds[i]
  }

  function BlinkedLamp(p: Panel, i: Index): Lamp {
    if Blinking(p.leds[i]) && BlinkOn(p.leds, i) != p.leds[i].prevOn then LampFor(BlinkOn(p.leds, i)) else p.lamps[i]
  }

  /** A refresh of the blinking LEDs, each LED by itself. */
  function BlinkTick(p: Panel): Panel {
    p.(leds := seq(LED_COUNT, i requires 0 <= i < LED_COUNT => BlinkedLed(p.leds, i)),
       lamps := seq(LED_COUNT, i requires 0 <= i < LED_COUNT => BlinkedLamp(p, i)))
  }

  predicate Patterned(led: Led) {
    NonZero(led.pattern)
  }

  type Step = n: nat | n < WIDTH

  function PatternedLed(led: Led, step: Step): Led {
    if Patterned(led) then led.(prevOn := led.pattern[step]) else led
  }

  function PatternedLamp(led: Led, lamp: Lamp, step: Step): Lamp {
    if Patterned(led) && led.pattern[step] != led.prevOn then LampFor(led.pattern[step]) else lamp
  }

  /** A refresh of the LEDs with a pattern, each LED by itself. */
  function PatternTick(p: Panel): Panel
    requires p.step < WIDTH
  {
    p.(leds := seq(LED_COUNT, i requires 0 <= i < LED_COUNT => PatternedLed(p.leds[i], p.step)),
       lamps := seq(LED_COUNT, i requires 0 <= i < LED_COUNT => PatternedLamp(p.leds[i], p.lamps[i], p.step)),
       step := if p.step + 1 == WIDTH then 0 else p.step + 1)
  }

  /** One round of the refresh thread. */
  function Tick(p: Panel): Panel
    requires p.step < WIDTH
  {
    PatternTick(BlinkTick(p))
  }

  /** Writing one LED; the battery LEDs are left alone once the refresh thread is gone. */
  function Lit(p: Panel, i: Index, value: int): Panel {
    if Battery(i) && !p.working then p else p.(lamps := p.lamps[i := LampFor(value > 0)])
  }

  function Brightened(p: Panel, i: Index, value: int): Panel {
    Lit(if value == 0 then p.(leds := p.leds[i := p.leds[i].(on := 0, off := 0, current := 0)]) else p, i, value)
  }

  function BlinkStarted(p: Panel, i: Index, on: nat, off: nat): Panel {
    Lit(p.(leds := p.leds[i := p.leds[i].(on := on, off := off, current := 0, prevOn := false)]), i, 0)
  }

  function PatternStarted(p: Panel, i: Index, pattern: Bits): Panel {
    Lit(p.(leds := p.leds[i := p.leds[i].(pattern := pattern, prevOn := false)]), i, 0)
  }

  /** The last writes of the removal. */
  function Removed(lamps: Lamps): Lamps {
    seq(LED_COUNT, i requires 0 <= i < LED_COUNT => if Battery(i) then lamps[i] else if i == 7 then FullyOn else Off)
  }
}
