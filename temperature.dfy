/** The temperature side of weather.c: the shared globals `temps`,
    `minTemps`, `maxTemps`, `currentTemp`, `minTemp`, `maxTemp`, the tick and
    day-roll steps of the `handleTemperature` thread, and `handleGenieEvent`,
    which resets the extrema. */
module Temperature {
  import opened CInt
  import opened Genie
  import opened Telemetry
  import opened Render
  import opened Events

  /** Slots declared per history array; only the first `TempDays` are used. */
  const HistorySlots: int := 8
  const InitialMin: int := 40
  const InitialMax: int := -10
  /** Thermometer widgets of the live, minimum and maximum rows. */
  const LiveThermometer: int := 0
  const MinThermometer: int := 1
  const MaxThermometer: int := 2

  /** The temperature globals together with the thread's own phase counter
      `angle` and running `sum`. */
  datatype TempState = TempState(
    temps: seq<int>, minTemps: seq<int>, maxTemps: seq<int>,
    currentTemp: int, minTemp: int, maxTemp: int,
    angle: int, sum: int)
  {
    predicate WellFormed() {
      |temps| == HistorySlots && |minTemps| == HistorySlots && |maxTemps| == HistorySlots
    }

    /** The extrema bracket the live value. */
    predicate Ordered() {
      minTemp <= currentTemp <= maxTemp
    }
  }

  /** The state when the thread starts: zeroed histories (all eight slots,
      the last by static initialisation), minimum 40, maximum -10. */
  function InitialState(): (s: TempState)
    ensures s.WellFormed() && s.angle == 0
    ensures forall i :: 0 <= i < HistorySlots ==> s.temps[i] == 0 && s.minTemps[i] == 0 && s.maxTemps[i] == 0
    ensures s.minTemp == InitialMin && s.maxTemp == InitialMax
    // Before the first tick the extrema do not bracket the live value.
    ensures s.currentTemp == 0 && !s.Ordered()
  {
    var zeros := seq(HistorySlots, _ => 0);
    TempState(zeros, zeros, zeros, 0, InitialMin, InitialMax, 0, 0)
  }

  /** One tick: the sample becomes the live value, is added to the sum and
      widens the extrema; the phase advances. Histories do not change. */
  function TickState(s: TempState, sample: int): (r: TempState)
    ensures r.currentTemp == sample && r.sum == s.sum + sample
    ensures r.Ordered()
    ensures r.minTemp <= s.minTemp && (r.minTemp == s.minTemp || r.minTemp == sample)
    ensures r.maxTemp >= s.maxTemp && (r.maxTemp == s.maxTemp || r.maxTemp == sample)
    ensures r.angle == AdvanceAngle(s.angle)
    ensures r.temps == s.temps && r.minTemps == s.minTemps && r.maxTemps == s.maxTemps
  {
    var maxT := if sample > s.maxTemp then sample else s.maxTemp;
    var minT := if sample < s.minTemp then sample else s.minTemp;
    s.(currentTemp := sample, sum := s.sum + sample, maxTemp := maxT, minTemp := minT,
       angle := AdvanceAngle(s.angle))
  }

  /** A run of ticks, oldest sample first. No tick touches a history. */
  function TicksState(s: TempState, samples: seq<int>): (r: TempState)
    ensures r.temps == s.temps && r.minTemps == s.minTemps && r.maxTemps == s.maxTemps
    decreases |samples|
  {
    if samples == [] then s
    else TickState(TicksState(s, samples[..|samples| - 1]), samples[|samples| - 1])
  }

  /** After a run of ticks the sum has grown by the samples' sum, the live
      value is the last sample, and the phase counter has stayed in [0, 360]. */
  lemma {:induction false} TicksProgress(s: TempState, samples: seq<int>)
    ensures var r := TicksState(s, samples);
      r.sum == s.sum + Sum(samples)
      && (samples != [] ==> r.currentTemp == samples[|samples| - 1])
      && (samples == [] ==> r == s)
      && (0 <= s.angle <= 360 ==> 0 <= r.angle <= 360)
    decreases |samples|
  {
    if samples != [] {
      TicksProgress(s, samples[..|samples| - 1]);
    }
  }

  /** After a run of ticks the extrema are the minimum and the maximum of
      the old extrema and all the samples, and they bracket the live value. */
  lemma {:induction false} TicksExtrema(s: TempState, samples: seq<int>)
    ensures var r := TicksState(s, samples);
      r.minTemp <= s.minTemp && (r.minTemp == s.minTemp || r.minTemp in samples)
      && (forall i :: 0 <= i < |samples| ==> r.minTemp <= samples[i])
      && r.maxTemp >= s.maxTemp && (r.maxTemp == s.maxTemp || r.maxTemp in samples)
      && (forall i :: 0 <= i < |samples| ==> samples[i] <= r.maxTemp)
      && (samples != [] ==> r.Ordered())
    decreases |samples|
  {
    if samples != [] {
      var init := samples[..|samples| - 1];
      var x := samples[|samples| - 1];
      TicksExtrema(s, init);
      var p := TicksState(s, init);
      var r := TickState(p, x);
      assert TicksState(s, samples) == r;
      assert forall i :: 0 <= i < |init| ==> init[i] == samples[i];
      assert p.minTemp in init ==> p.minTemp in samples;
      assert p.maxTemp in init ==> p.maxTemp in samples;
      assert x in samples;
    }
  }

  /** The day roll: every history moves one slot toward the oldest; slot 6
      receives the truncated mean of the day and the current extrema. */
  function DayRollState(s: TempState): (r: TempState)
    requires s.WellFormed()
    ensures r.WellFormed()
  {
    s.(temps := ShiftIn(s.temps, TempDays, DayAverage(s.sum)),
       minTemps := ShiftIn(s.minTemps, TempDays, s.minTemp),
       maxTemps := ShiftIn(s.maxTemps, TempDays, s.maxTemp))
  }

  /** The roll shifts slots 1..6 down, fills slot 6, leaves slot 7 alone and
      resets neither extremum. */
  lemma DayRollShifts(s: TempState)
    requires s.WellFormed()
    ensures var r := DayRollState(s);
      (forall i :: 0 <= i < TempDays - 1 ==>
        r.temps[i] == s.temps[i + 1] && r.minTemps[i] == s.minTemps[i + 1] && r.maxTemps[i] == s.maxTemps[i + 1])
      && r.temps[TempDays - 1] == DayAverage(s.sum)
      && r.minTemps[TempDays - 1] == s.minTemp && r.maxTemps[TempDays - 1] == s.maxTemp
      && r.temps[TempDays] == s.temps[TempDays]
      && r.minTemps[TempDays] == s.minTemps[TempDays]
      && r.maxTemps[TempDays] == s.maxTemps[TempDays]
      && r.currentTemp == s.currentTemp && r.minTemp == s.minTemp && r.maxTemp == s.maxTemp
      && r.angle == s.angle && r.sum == s.sum
  {
  }

  /** One pass of the thread's outer loop: the sum restarts at 0, 24 ticks,
      then the day roll. */
  function DayState(s: TempState, samples: seq<int>): TempState
    requires s.WellFormed() && |samples| == TicksPerDay
  {
    DayRollState(TicksState(s.(sum := 0), samples))
  }

  /** The widget writes of a run of ticks: each tick renders the (unchanged)
      live history with the new sample on thermometer 0. */
  function TicksWrites(s: TempState, samples: seq<int>): seq<WidgetWrite>
    requires s.WellFormed()
    decreases |samples|
  {
    if samples == [] then []
    else
      var init := samples[..|samples| - 1];
      TicksWrites(s, init) + TempWrites(TicksState(s, init).temps, samples[|samples| - 1], TempBase, LiveThermometer)
  }

  /** Ticks send eight writes each, all to the live row 0..6 (even values in
      [0, 100]) or to thermometer 0 (values in [0, 50]). */
  lemma {:induction false} TicksWritesLayout(s: TempState, samples: seq<int>)
    requires s.WellFormed()
    ensures var r := TicksWrites(s, samples);
      |r| == (TempDays + 1) * |samples|
      && forall k :: 0 <= k < |r| ==>
        (r[k].obj == Gauge && TempBase <= r[k].index < TempBase + TempDays && 0 <= r[k].value <= 100
          && r[k].value % 2 == 0) ||
        (r[k].obj == Thermometer && r[k].index == LiveThermometer && 0 <= r[k].value <= 50)
    decreases |samples|
  {
    if samples != [] {
      var init := samples[..|samples| - 1];
      TicksWritesLayout(s, init);
      var w := TempWrites(TicksState(s, init).temps, samples[|samples| - 1], TempBase, LiveThermometer);
      TempWritesLayout(TicksState(s, init).temps, samples[|samples| - 1], TempBase, LiveThermometer);
      var r0 := TicksWrites(s, init);
      assert TicksWrites(s, samples) == r0 + w;
      assert |r0 + w| == (TempDays + 1) * |samples|;
    }
  }

  /** Extending a run of ticks by the next sample: one more TickState and
      one more live-row rendering from the unchanged history. */
  lemma TicksStep(s: TempState, samples: seq<int>, i: nat, before: TempState, after: TempState)
    requires s.WellFormed() && i < |samples|
    requires before == TicksState(s, samples[..i])
    requires after == TickState(before, samples[i])
    ensures after == TicksState(s, samples[..i + 1])
    ensures TicksWrites(s, samples[..i + 1])
      == TicksWrites(s, samples[..i]) + TempWrites(before.temps, samples[i], TempBase, LiveThermometer)
  {
    assert samples[..i + 1][..i] == samples[..i];
  }

  /** The writes of the day roll: the minimum row and its thermometer, then
      the maximum row and its thermometer, from the rolled histories. */
  function DayRollWrites(s: TempState): seq<WidgetWrite>
    requires s.WellFormed()
  {
    var t := DayRollState(s);
    TempWrites(t.minTemps, t.minTemp, TempBaseMin, MinThermometer)
      + TempWrites(t.maxTemps, t.maxTemp, TempBaseMax, MaxThermometer)
  }

  function DayWrites(s: TempState, samples: seq<int>): seq<WidgetWrite>
    requires s.WellFormed() && |samples| == TicksPerDay
  {
    TicksWrites(s.(sum := 0), samples) + DayRollWrites(TicksState(s.(sum := 0), samples))
  }

  /** The newest history slot after a day holds exactly the day's truncated
      mean and the extrema over the previous extrema and the day's samples;
      older slots move down by one; slot 7 keeps its value. */
  lemma DayAggregates(s: TempState, samples: seq<int>)
    requires s.WellFormed() && |samples| == TicksPerDay
    ensures var r := DayState(s, samples);
      r.WellFormed()
      && r.temps[TempDays - 1] == DayAverage(Sum(samples))
      && r.minTemps[TempDays - 1] == r.minTemp && r.maxTemps[TempDays - 1] == r.maxTemp
      && r.minTemp <= s.minTemp && (r.minTemp == s.minTemp || r.minTemp in samples)
      && r.maxTemp >= s.maxTemp && (r.maxTemp == s.maxTemp || r.maxTemp in samples)
      && (forall i :: 0 <= i < |samples| ==> r.minTemp <= samples[i] <= r.maxTemp)
      && (forall i :: 0 <= i < TempDays - 1 ==>
            r.temps[i] == s.temps[i + 1] && r.minTemps[i] == s.minTemps[i + 1] && r.maxTemps[i] == s.maxTemps[i + 1])
      && r.temps[TempDays] == s.temps[TempDays]
      && r.minTemps[TempDays] == s.minTemps[TempDays] && r.maxTemps[TempDays] == s.maxTemps[TempDays]
      && r.currentTemp == samples[TicksPerDay - 1] && r.Ordered()
  {
    TicksProgress(s.(sum := 0), samples);
    TicksExtrema(s.(sum := 0), samples);
    DayRollShifts(TicksState(s.(sum := 0), samples));
  }

  /** When every sample of the day lies in [lo, hi], so does the new
      history slot (for the source's synthesized values, [-10, 40]). */
  lemma DayHistoryWithin(s: TempState, samples: seq<int>, lo: int, hi: int)
    requires s.WellFormed() && |samples| == TicksPerDay
    requires forall i :: 0 <= i < |samples| ==> lo <= samples[i] <= hi
    ensures lo <= DayState(s, samples).temps[TempDays - 1] <= hi
  {
    DayAggregates(s, samples);
    DayAverageWithin(samples, lo, hi);
  }

  /** `handleGenieEvent` on the state: a reset copies the live value into
      one extremum; every other reply leaves the state as it is. */
  function DispatchState(s: TempState, e: Reply): TempState
  {
    match Classify(e)
    case ResetMin => s.(minTemp := s.currentTemp)
    case ResetMax => s.(maxTemp := s.currentTemp)
    case _ => s
  }

  /** Only a report event from button 2 or 6 changes anything, and then only
      the one extremum, which becomes the live value; the ordering of the
      extrema around the live value survives every reply. */
  lemma DispatchEffects(s: TempState, e: Reply)
    ensures var r := DispatchState(s, e);
      (e.cmd != ReportEvent ==> r == s)
      && (e.obj != WinButton ==> r == s)
      && (e.index != ResetMinButton && e.index != ResetMaxButton ==> r == s)
      && (e.cmd == ReportEvent && e.obj == WinButton && e.index == ResetMinButton ==> r == s.(minTemp := s.currentTemp))
      && (e.cmd == ReportEvent && e.obj == WinButton && e.index == ResetMaxButton ==> r == s.(maxTemp := s.currentTemp))
      && (s.Ordered() ==> r.Ordered())
  {
  }

  /** The writes `handleGenieEvent` sends: a reset re-renders its row and
      thermometer; every other reply sends nothing. */
  function DispatchWrites(s: TempState, e: Reply): seq<WidgetWrite>
    requires s.WellFormed()
  {
    match Classify(e)
    case ResetMin => TempWrites(s.minTemps, s.currentTemp, TempBaseMin, MinThermometer)
    case ResetMax => TempWrites(s.maxTemps, s.currentTemp, TempBaseMax, MaxThermometer)
    case _ => []
  }

  /** A reset sends the eight writes of its row (7..13 with thermometer 1, or
      14..20 with thermometer 2), the thermometer showing the live value; any
      other reply sends nothing. */
  lemma DispatchWritesLayout(s: TempState, e: Reply)
    requires s.WellFormed()
    ensures var w := DispatchWrites(s, e);
      (!IsReset(Classify(e)) ==> w == [])
      && (Classify(e) == ResetMin ==>
            |w| == TempDays + 1
            && (forall i :: 0 <= i < TempDays ==> w[i].obj == Gauge && w[i].index == TempBaseMin + i)
            && w[TempDays] == WriteObj(Thermometer, MinThermometer, ThermometerValue(s.currentTemp)))
      && (Classify(e) == ResetMax ==>
            |w| == TempDays + 1
            && (forall i :: 0 <= i < TempDays ==> w[i].obj == Gauge && w[i].index == TempBaseMax + i)
            && w[TempDays] == WriteObj(Thermometer, MaxThermometer, ThermometerValue(s.currentTemp)))
  {
  }

  /** A repeated reset changes nothing more and renders the same values. */
  lemma DispatchIdempotent(s: TempState, e: Reply)
    requires s.WellFormed()
    ensures DispatchState(DispatchState(s, e), e) == DispatchState(s, e)
    ensures DispatchWrites(DispatchState(s, e), e) == DispatchWrites(s, e)
  {
  }

  /** Replies handled in arrival order, oldest first. */
  function DispatchAllState(s: TempState, es: seq<Reply>): (r: TempState)
    ensures r.temps == s.temps && r.minTemps == s.minTemps && r.maxTemps == s.maxTemps
    decreases |es|
  {
    if es == [] then s
    else DispatchState(DispatchAllState(s, es[..|es| - 1]), es[|es| - 1])
  }

  /** A drained queue of replies changes at most the extrema, and keeps them
      around the live value. */
  lemma {:induction false} DispatchAllPreserves(s: TempState, es: seq<Reply>)
    ensures var r := DispatchAllState(s, es);
      r.temps == s.temps && r.minTemps == s.minTemps && r.maxTemps == s.maxTemps
      && r.currentTemp == s.currentTemp && r.angle == s.angle && r.sum == s.sum
      && (s.Ordered() ==> r.Ordered())
    decreases |es|
  {
    if es != [] {
      DispatchAllPreserves(s, es[..|es| - 1]);
      DispatchEffects(DispatchAllState(s, es[..|es| - 1]), es[|es| - 1]);
    }
  }

  /** Replies none of which is a reset leave the state exactly as it was. */
  lemma {:induction false} DispatchAllNoReset(s: TempState, es: seq<Reply>)
    requires forall i :: 0 <= i < |es| ==> !IsReset(Classify(es[i]))
    ensures DispatchAllState(s, es) == s
    decreases |es|
  {
    if es != [] {
      var init := es[..|es| - 1];
      assert forall i :: 0 <= i < |init| ==> init[i] == es[i];
      DispatchAllNoReset(s, init);
    }
  }

  function DispatchAllWrites(s: TempState, es: seq<Reply>): seq<WidgetWrite>
    requires s.WellFormed()
    decreases |es|
  {
    if es == [] then []
    else
      var init := es[..|es| - 1];
      DispatchAllWrites(s, init) + DispatchWrites(DispatchAllState(s, init), es[|es| - 1])
  }

  /** Extending the handled replies by the next one. */
  lemma DispatchStep(s: TempState, es: seq<Reply>, i: nat, before: TempState, after: TempState)
    requires s.WellFormed() && i < |es|
    requires before == DispatchAllState(s, es[..i])
    requires after == DispatchState(before, es[i])
    ensures after == DispatchAllState(s, es[..i + 1])
    ensures DispatchAllWrites(s, es[..i + 1]) == DispatchAllWrites(s, es[..i]) + DispatchWrites(before, es[i])
    ensures ClassifyAll(es[..i + 1]) == ClassifyAll(es[..i]) + [Classify(es[i])]
  {
    assert es[..i + 1][..i] == es[..i];
  }

  /** The temperature globals of weather.c on one object, with the panel
      they render to. */
  class TemperatureStation {
    const display: Display
    const temps: array<int>
    const minTemps: array<int>
    const maxTemps: array<int>
    var currentTemp: int
    var minTemp: int
    var maxTemp: int
    /** The thread's phase counter (a `double` in the source that only ever
        holds whole numbers). */
    var angle: int
    /** The thread's running sum of the current day's samples. */
    var sum: int

    ghost predicate Valid()
      reads this
    {
      temps.Length == HistorySlots && minTemps.Length == HistorySlots && maxTemps.Length == HistorySlots
      && temps != minTemps && temps != maxTemps && minTemps != maxTemps
    }

    ghost function State(): (s: TempState)
      reads this, temps, minTemps, maxTemps
      requires Valid()
      ensures s.WellFormed()
    {
      TempState(temps[..], minTemps[..], maxTemps[..], currentTemp, minTemp, maxTemp, angle, sum)
    }

    /** Static storage of the globals and the thread's prologue. */
    constructor (display: Display)
      ensures Valid() && this.display == display
      ensures fresh(temps) && fresh(minTemps) && fresh(maxTemps)
      ensures State() == InitialState()
    {
      this.display := display;
      temps := new int[HistorySlots](_ => 0);
      minTemps := new int[HistorySlots](_ => 0);
      maxTemps := new int[HistorySlots](_ => 0);
      currentTemp := 0;
      minTemp := InitialMin;
      maxTemp := InitialMax;
      angle := 0;
      sum := 0;
      new;
      assert temps[..] == InitialState().temps;
      assert minTemps[..] == InitialState().minTemps;
      assert maxTemps[..] == InitialState().maxTemps;
    }

    /** One iteration of the thread's inner loop, with the sample given. */
    method Tick(sample: int)
      requires Valid()
      modifies this, display
      ensures Valid()
      ensures State() == TickState(old(State()), sample)
      ensures display.log == old(display.log) + TempWrites(temps[..], sample, TempBase, LiveThermometer)
    {
      currentTemp := sample;
      sum := sum + currentTemp;
      if currentTemp > maxTemp { maxTemp := currentTemp; }
      if currentTemp < minTemp { minTemp := currentTemp; }
      UpdateTemp(display, temps, currentTemp, TempBase, LiveThermometer);
      angle := angle + 1;
      if angle > 360 { angle := 0; }
    }

    /** The end of a day: shift the three histories in place, store the
      aggregate and extrema in slot 6, re-render the two extrema rows. */
    method DayRoll()
      requires Valid()
      modifies temps, minTemps, maxTemps, display
      ensures Valid()
      ensures State() == DayRollState(old(State()))
      ensures display.log == old(display.log) + DayRollWrites(old(State()))
    {
      ghost var t0, lo0, hi0 := temps[..], minTemps[..], maxTemps[..];
      var i := 1;
      while i < TempDays
        invariant 1 <= i <= TempDays
        invariant forall k :: 0 <= k < i - 1 ==> temps[k] == t0[k + 1]
        invariant forall k :: 0 <= k < i - 1 ==> minTemps[k] == lo0[k + 1]
        invariant forall k :: 0 <= k < i - 1 ==> maxTemps[k] == hi0[k + 1]
        invariant forall k :: i - 1 <= k < HistorySlots ==> temps[k] == t0[k]
        invariant forall k :: i - 1 <= k < HistorySlots ==> minTemps[k] == lo0[k]
        invariant forall k :: i - 1 <= k < HistorySlots ==> maxTemps[k] == hi0[k]
        invariant display.log == old(display.log)
      {
        temps[i - 1] := temps[i];
        minTemps[i - 1] := minTemps[i];
        maxTemps[i - 1] := maxTemps[i];
        i := i + 1;
      }
      temps[TempDays - 1] := CDiv(sum, TicksPerDay);
      minTemps[TempDays - 1] := minTemp;
      maxTemps[TempDays - 1] := maxTemp;
      ShiftInUnique(t0, TempDays, CDiv(sum, TicksPerDay), temps[..]);
      ShiftInUnique(lo0, TempDays, minTemp, minTemps[..]);
      ShiftInUnique(hi0, TempDays, maxTemp, maxTemps[..]);
      ghost var log0 := display.log;
      UpdateTemp(display, minTemps, minTemp, TempBaseMin, MinThermometer);
      ghost var minRow := TempWrites(minTemps[..], minTemp, TempBaseMin, MinThermometer);
      UpdateTemp(display, maxTemps, maxTemp, TempBaseMax, MaxThermometer);
      AppendAssoc(log0, minRow, TempWrites(maxTemps[..], maxTemp, TempBaseMax, MaxThermometer));
    }

    /** The thread's inner loop, one Tick per sample. */
    method Ticks(samples: seq<int>)
      requires Valid()
      modifies this, display
      ensures Valid()
      ensures State() == TicksState(old(State()), samples)
      ensures display.log == old(display.log) + TicksWrites(old(State()), samples)
    {
      ghost var start := State();
      ghost var log0 := display.log;
      var i := 0;
      while i < |samples|
        invariant 0 <= i <= |samples|
        invariant Valid()
        invariant State() == TicksState(start, samples[..i])
        invariant display.log == log0 + TicksWrites(start, samples[..i])
      {
        ghost var before := State();
        Tick(samples[i]);
        TicksStep(start, samples, i, before, State());
        AppendAssoc(log0, TicksWrites(start, samples[..i]), TempWrites(before.temps, samples[i], TempBase, LiveThermometer));
        i := i + 1;
      }
      assert samples[..|samples|] == samples;
    }

    /** One pass of the thread's outer loop over the day's 24 samples. */
    method Day(samples: seq<int>)
      requires Valid() && |samples| == TicksPerDay
      modifies this, temps, minTemps, maxTemps, display
      ensures Valid()
      ensures State() == DayState(old(State()), samples)
      ensures display.log == old(display.log) + DayWrites(old(State()), samples)
    {
      ghost var s0 := State();
      sum := 0;
      ghost var log0 := display.log;
      assert State() == s0.(sum := 0);
      Ticks(samples);
      ghost var s1 := State();
      assert s1 == TicksState(s0.(sum := 0), samples);
      DayRoll();
      AppendAssoc(log0, TicksWrites(s0.(sum := 0), samples), DayRollWrites(s1));
    }

    /** `handleGenieEvent`; the outcome names the branch taken, and so the
        diagnostic line printed, if any. */
    method HandleGenieEvent(reply: Reply) returns (outcome: EventOutcome)
      requires Valid()
      modifies this, display
      ensures Valid()
      ensures outcome == Classify(reply)
      ensures State() == DispatchState(old(State()), reply)
      ensures display.log == old(display.log) + DispatchWrites(old(State()), reply)
    {
      if reply.cmd != ReportEvent {
        outcome := InvalidCommand(reply.cmd);
        return;
      }
      if reply.obj == WinButton {
        if reply.index == ResetMinButton {
          minTemp := currentTemp;
          UpdateTemp(display, minTemps, minTemp, TempBaseMin, MinThermometer);
          outcome := ResetMin;
        } else if reply.index == ResetMaxButton {
          maxTemp := currentTemp;
          UpdateTemp(display, maxTemps, maxTemp, TempBaseMax, MaxThermometer);
          outcome := ResetMax;
        } else {
          outcome := UnknownButton(reply.index);
        }
      } else {
        outcome := UnhandledEvent(reply.obj, reply.index, reply.data);
      }
    }

    /** The inner `while (genieReplyAvail ())` loop of `main`: every pending
        reply is handled, in arrival order. */
    method DrainReplies(pending: seq<Reply>) returns (outcomes: seq<EventOutcome>)
      requires Valid()
      modifies this, display
      ensures Valid()
      ensures outcomes == ClassifyAll(pending)
      ensures State() == DispatchAllState(old(State()), pending)
      ensures display.log == old(display.log) + DispatchAllWrites(old(State()), pending)
    {
      ghost var s0 := State();
      ghost var log0 := display.log;
      outcomes := [];
      var i := 0;
      while i < |pending|
        invariant 0 <= i <= |pending|
        invariant Valid()
        invariant outcomes == ClassifyAll(pending[..i])
        invariant State() == DispatchAllState(s0, pending[..i])
        invariant display.log == log0 + DispatchAllWrites(s0, pending[..i])
      {
        ghost var before := State();
        ghost var logBefore := display.log;
        var o := HandleGenieEvent(pending[i]);
        DispatchStep(s0, pending, i, before, State());
        AppendAssoc(log0, DispatchAllWrites(s0, pending[..i]), DispatchWrites(before, pending[i]));
        outcomes := outcomes + [o];
        i := i + 1;
      }
      assert pending[..|pending|] == pending;
    }
  }
}
