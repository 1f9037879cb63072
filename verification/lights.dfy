/** The light-strip logic of joycar.ts: steady setters for the head/tail
    lights, brake light and reversing light, and two time-gated blink phases,
    one shared by the left and right indicators and one for the hazard lights.
    Each setter paints some pixels of the 8-pixel buffer; the last setter to
    paint a pixel decides its colour. `input.runningTime()` is the parameter
    `now`, and `strip.show()` is not modelled. */
module Lights {
  import opened Car

  const HeadlightWhite: Color := 0xB2B2B2
  const TaillightRed: Color := 0xB30000
  const BrakeRed: Color := 0xff0000
  const ReverseWhite: Color := 0xffffff
  const Amber: Color := 0xff7200
  const Dark: Color := 0

  /** Minimum running time (ms) between two toggles of a blink phase. */
  const BlinkInterval := 400

  const HeadlightPixels: set<int> := {0, 3}
  const TaillightPixels: set<int> := {5, 6}
  const BrakePixels: set<int> := {5, 6}
  const ReversePixels: set<int> := {6}
  const HazardPixels: set<int> := {1, 2, 4, 7}

  function IndicatorPixels(selection: SensorLRSelection): set<int>
  {
    if selection == SensorLRSelection.Left then {1, 4} else {2, 7}
  }

  /** The strip `p` with every pixel of `group` set to `color`. */
  function Paint(p: Strip, group: set<int>, color: Color): (q: Strip)
    ensures forall i :: 0 <= i < StripLength ==> q[i] == (if i in group then color else p[i])
  {
    seq(StripLength, i requires 0 <= i < StripLength => if i in group then color else p[i])
  }

  /** Every pixel of `group` has colour `color`. */
  predicate Shows(p: Strip, group: set<int>, color: Color)
  {
    forall i :: 0 <= i < StripLength && i in group ==> p[i] == color
  }

  /** `q` agrees with `p` outside `group`. */
  predicate KeepsOutside(p: Strip, q: Strip, group: set<int>)
  {
    forall i :: 0 <= i < StripLength && i !in group ==> q[i] == p[i]
  }

  /** The colour a blink group shows in a phase. */
  function PhaseColor(isOn: bool): Color
  {
    if isOn then Amber else Dark
  }

  /** At least the blink interval has passed since the phase last toggled. */
  predicate Due(b: Blink, now: int)
  {
    now - b.last >= BlinkInterval
  }

  // ---------------------------------------------------------------------------
  // Steady lights

  function Light(s: State, toggle: ToggleSwitch): (r: State)
    ensures r == s.(pixels := r.pixels)
    ensures KeepsOutside(s.pixels, r.pixels, HeadlightPixels + TaillightPixels)
    ensures Shows(r.pixels, HeadlightPixels, if toggle == On then HeadlightWhite else Dark)
    ensures Shows(r.pixels, TaillightPixels, if toggle == On then TaillightRed else Dark)
  {
    if toggle == On then
      s.(pixels := Paint(Paint(s.pixels, HeadlightPixels, HeadlightWhite), TaillightPixels, TaillightRed))
    else
      s.(pixels := Paint(s.pixels, HeadlightPixels + TaillightPixels, Dark))
  }

  function Brakelight(s: State, toggle: ToggleSwitch): (r: State)
    ensures r == s.(pixels := r.pixels)
    ensures KeepsOutside(s.pixels, r.pixels, BrakePixels)
    ensures Shows(r.pixels, BrakePixels, if toggle == On then BrakeRed else Dark)
  {
    s.(pixels := Paint(s.pixels, BrakePixels, if toggle == On then BrakeRed else Dark))
  }

  function Reversinglight(s: State, toggle: ToggleSwitch): (r: State)
    ensures r == s.(pixels := r.pixels)
    ensures KeepsOutside(s.pixels, r.pixels, ReversePixels)
    ensures Shows(r.pixels, ReversePixels, if toggle == On then ReverseWhite else Dark)
  {
    s.(pixels := Paint(s.pixels, ReversePixels, if toggle == On then ReverseWhite else Dark))
  }

  // ---------------------------------------------------------------------------
  // Blink phases

  /** One call of a blink group on strip `p` with phase `b`. Switched on, the
      phase toggles once the interval has passed and the group shows the new
      phase; switched off, the group goes dark and the phase is kept. */
  function Blinking(p: Strip, b: Blink, group: set<int>, toggle: ToggleSwitch, now: int): (r: (Strip, Blink))
    ensures KeepsOutside(p, r.0, group)
    ensures toggle == On && Due(b, now) ==> r.1 == Blink(!b.isOn, now) && Shows(r.0, group, PhaseColor(r.1.isOn))
    ensures toggle == On && !Due(b, now) ==> r == (p, b)
    ensures toggle == Off ==> r.1 == b && Shows(r.0, group, Dark)
  {
    if toggle == Off then
      (Paint(p, group, Dark), b)
    else if Due(b, now) then
      var isOn := !b.isOn;
      (Paint(p, group, PhaseColor(isOn)), Blink(isOn, now))
    else
      (p, b)
  }

  function Indicator(s: State, toggle: ToggleSwitch, selection: SensorLRSelection, now: int): (r: State)
    ensures r == s.(pixels := r.pixels, indicator := r.indicator)
    ensures KeepsOutside(s.pixels, r.pixels, IndicatorPixels(selection))
    ensures toggle == On && Due(s.indicator, now) ==>
      r.indicator == Blink(!s.indicator.isOn, now) && Shows(r.pixels, IndicatorPixels(selection), PhaseColor(r.indicator.isOn))
    ensures toggle == On && !Due(s.indicator, now) ==> r == s
    ensures toggle == Off ==> r.indicator == s.indicator && Shows(r.pixels, IndicatorPixels(selection), Dark)
  {
    var (p, b) := Blinking(s.pixels, s.indicator, IndicatorPixels(selection), toggle, now);
    s.(pixels := p, indicator := b)
  }

  function Hazardlights(s: State, toggle: ToggleSwitch, now: int): (r: State)
    ensures r == s.(pixels := r.pixels, hazard := r.hazard)
    ensures KeepsOutside(s.pixels, r.pixels, HazardPixels)
    ensures toggle == On && Due(s.hazard, now) ==>
      r.hazard == Blink(!s.hazard.isOn, now) && Shows(r.pixels, HazardPixels, PhaseColor(r.hazard.isOn))
    ensures toggle == On && !Due(s.hazard, now) ==> r == s
    ensures toggle == Off ==> r.hazard == s.hazard && Shows(r.pixels, HazardPixels, Dark)
  {
    var (p, b) := Blinking(s.pixels, s.hazard, HazardPixels, toggle, now);
    s.(pixels := p, hazard := b)
  }

  // ---------------------------------------------------------------------------
  // Properties over several calls

  /** Successive call times, each at least the blink interval after the previous one (or after `last`). */
  predicate Spaced(last: int, times: seq<int>)
    decreases |times|
  {
    times == [] || (times[0] - last >= BlinkInterval && Spaced(times[0], times[1..]))
  }

  /** A blink group switched on at each of `times` in turn. */
  function BlinkRun(p: Strip, b: Blink, group: set<int>, times: seq<int>): (Strip, Blink)
    decreases |times|
  {
    if times == [] then (p, b)
    else
      var (p', b') := Blinking(p, b, group, On, times[0]);
      BlinkRun(p', b', group, times[1..])
  }

  /** Calls spaced by the blink interval toggle the phase every time: after n
      calls the phase has flipped n times, it is stamped with the last call,
      the group shows it, and no other pixel changed. */
  lemma {:induction false} BlinkAlternates(p: Strip, b: Blink, group: set<int>, times: seq<int>)
    requires times != [] && Spaced(b.last, times)
    ensures var (q, c) := BlinkRun(p, b, group, times);
      && c == Blink(b.isOn != (|times| % 2 == 1), times[|times| - 1])
      && Shows(q, group, PhaseColor(c.isOn))
      && KeepsOutside(p, q, group)
    decreases |times|
  {
    var (p', b') := Blinking(p, b, group, On, times[0]);
    if |times| > 1 {
      BlinkAlternates(p', b', group, times[1..]);
    }
  }

  /** Left and right share one phase: right after the left indicator toggles,
      a right-indicator call inside the blink interval does nothing. */
  lemma SharedIndicatorPhase(s: State, t1: int, t2: int)
    requires Due(s.indicator, t1) && t2 - t1 < BlinkInterval
    ensures var a := Indicator(s, On, SensorLRSelection.Left, t1);
      Indicator(a, On, SensorLRSelection.Right, t2) == a
  {
  }

  /** Switching the indicator from left to right without turning the left one
      off leaves the left pixels lit: the right call toggles the shared phase
      off and darkens only its own pixels. */
  lemma SwitchingSidesLeavesLeftLit(s: State, t1: int, t2: int)
    requires !s.indicator.isOn && Due(s.indicator, t1) && t2 - t1 >= BlinkInterval
    ensures var a := Indicator(s, On, SensorLRSelection.Left, t1);
      var r := Indicator(a, On, SensorLRSelection.Right, t2);
      Shows(r.pixels, {1, 4}, Amber) && Shows(r.pixels, {2, 7}, Dark) && !r.indicator.isOn
  {
  }

  /** Switching a lit indicator off keeps its phase on, so the next toggle
      turns the phase off and the group stays dark for another interval. */
  lemma RelightSkipsOnePhase(s: State, selection: SensorLRSelection, t0: int, now: int)
    requires s.indicator.isOn && Due(s.indicator, now)
    ensures var r := Indicator(Indicator(s, Off, selection, t0), On, selection, now);
      !r.indicator.isOn && Shows(r.pixels, IndicatorPixels(selection), Dark)
  {
  }

  /** There is no priority between setters: the last one to paint a pixel wins. */
  lemma LastWriterWins(s: State)
    ensures Brakelight(Light(s, On), On).pixels[5] == BrakeRed
    ensures Light(Brakelight(s, On), On).pixels[5] == TaillightRed
    ensures Light(Reversinglight(s, On), Off).pixels[6] == Dark
  {
  }

  /** Setters that paint disjoint pixels commute. */
  lemma LightCommutesWithIndicator(s: State, t: ToggleSwitch, u: ToggleSwitch, selection: SensorLRSelection, now: int)
    ensures Light(Indicator(s, u, selection, now), t) == Indicator(Light(s, t), u, selection, now)
  {
  }

  lemma ReversinglightCommutesWithHazard(s: State, t: ToggleSwitch, u: ToggleSwitch, now: int)
    ensures Reversinglight(Hazardlights(s, u, now), t) == Hazardlights(Reversinglight(s, t), u, now)
  {
  }

  /** A freshly loaded driver has a dark strip and both phases off, stamped at
      time 0: an indicator switched on within the first 400 ms of running time
      does nothing, and the first call after that lights its group. */
  lemma InitialIndicator(selection: SensorLRSelection, now: int)
    ensures Shows(Initial.pixels, {0, 1, 2, 3, 4, 5, 6, 7}, Dark)
    ensures now < BlinkInterval ==> Indicator(Initial, On, selection, now) == Initial
    ensures now >= BlinkInterval ==> Shows(Indicator(Initial, On, selection, now).pixels, IndicatorPixels(selection), Amber)
  {
  }

  /** Switching the hazard lights off also darkens both indicators, whose pixels it shares. */
  lemma HazardOffDarkensIndicators(s: State, selection: SensorLRSelection, now: int)
    ensures Shows(Hazardlights(s, Off, now).pixels, IndicatorPixels(selection), Dark)
  {
  }
}
