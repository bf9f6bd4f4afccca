/** The `handlePressure` thread of weather.c: a local history of eight daily
    pressures, rendered on every tick and rolled every 24 ticks. Pressure
    has no tracked extrema and no event touches it. */
module Pressure {
  import opened CInt
  import opened Genie
  import opened Telemetry
  import opened Render

  datatype PressureState = PressureState(pressures: seq<int>, angle: int, sum: int)
  {
    predicate WellFormed() {
      |pressures| == PressureDays
    }
  }

  /** The thread's prologue: all eight slots zeroed, phase 0. */
  function InitialState(): (s: PressureState)
    ensures s.WellFormed() && s.angle == 0
    ensures forall i :: 0 <= i < PressureDays ==> s.pressures[i] == 0
  {
    PressureState(seq(PressureDays, _ => 0), 0, 0)
  }

  /** One tick: the sample is added to the sum and the phase advances; the
      history does not change. */
  function TickState(s: PressureState, sample: int): (r: PressureState)
    ensures r.pressures == s.pressures && r.sum == s.sum + sample
    ensures r.angle == AdvanceAngle(s.angle)
  {
    s.(sum := s.sum + sample, angle := AdvanceAngle(s.angle))
  }

  function TicksState(s: PressureState, samples: seq<int>): (r: PressureState)
    ensures r.pressures == s.pressures
    ensures r.sum == s.sum + Sum(samples)
    ensures 0 <= s.angle <= 360 ==> 0 <= r.angle <= 360
    decreases |samples|
  {
    if samples == [] then s
    else TickState(TicksState(s, samples[..|samples| - 1]), samples[|samples| - 1])
  }

  /** The day roll: slots 1..7 move down by one and slot 7 receives the
      truncated mean of the day. The length stays 8. */
  function DayRollState(s: PressureState): (r: PressureState)
    requires s.WellFormed()
    ensures r.WellFormed()
    ensures forall i :: 0 <= i < PressureDays - 1 ==> r.pressures[i] == s.pressures[i + 1]
    ensures r.pressures[PressureDays - 1] == DayAverage(s.sum)
    ensures r.angle == s.angle && r.sum == s.sum
  {
    s.(pressures := ShiftIn(s.pressures, PressureDays, DayAverage(s.sum)))
  }

  function DayState(s: PressureState, samples: seq<int>): PressureState
    requires s.WellFormed() && |samples| == TicksPerDay
  {
    DayRollState(TicksState(s.(sum := 0), samples))
  }

  /** The writes of a run of ticks: each renders the whole history and the
      live sample on the cool gauge. */
  function TicksWrites(s: PressureState, samples: seq<int>): (r: seq<WidgetWrite>)
    requires s.WellFormed()
    ensures |r| == (PressureDays + 1) * |samples|
    ensures forall k :: 0 <= k < |r| ==>
      (r[k].obj == Gauge && PressureBase <= r[k].index < PressureBase + PressureDays && r[k].value >= 0) ||
      (r[k].obj == CoolGauge && r[k].index == 0 && 0 <= r[k].value <= 120)
    decreases |samples|
  {
    if samples == [] then []
    else
      var init := samples[..|samples| - 1];
      TicksWrites(s, init) + PressureWrites(TicksState(s, init).pressures, samples[|samples| - 1])
  }

  /** After a day the newest slot is the day's truncated mean and the older
      slots moved down by one. */
  lemma DayAggregate(s: PressureState, samples: seq<int>)
    requires s.WellFormed() && |samples| == TicksPerDay
    ensures var r := DayState(s, samples);
      r.WellFormed()
      && r.pressures[PressureDays - 1] == DayAverage(Sum(samples))
      && (forall i :: 0 <= i < PressureDays - 1 ==> r.pressures[i] == s.pressures[i + 1])
  {
  }

  /** Every element of `h` lies in [lo, hi]. */
  predicate AllWithin(h: seq<int>, lo: int, hi: int) {
    forall i :: 0 <= i < |h| ==> lo <= h[i] <= hi
  }

  /** Every element of `h` is at most `hi`. */
  predicate AtMost(h: seq<int>, hi: int) {
    forall i :: 0 <= i < |h| ==> h[i] <= hi
  }

  /** The all-zero history of a fresh station is bounded by 1060. */
  lemma InitialAtMost()
    ensures AtMost(InitialState().pressures, 1060)
  {
    var h := InitialState().pressures;
    forall i | 0 <= i < |h|
      ensures h[i] <= 1060
    {
      assert h[i] == 0;
    }
  }

  /** With the source's synthesized pressures, which lie in [940, 1060], a
      history bounded above by 1060 stays so after a day, and every gauge
      it renders lies within [0, 100], although `updatePressure` itself
      has no upper clamp. Starting from the fresh all-zero history
      (`InitialAtMost`), this holds for every day the station runs. */
  lemma DayKeepsGaugesInScale(s: PressureState, samples: seq<int>)
    requires s.WellFormed() && |samples| == TicksPerDay
    requires AtMost(s.pressures, 1060) && AllWithin(samples, 940, 1060)
    ensures AtMost(DayState(s, samples).pressures, 1060)
    ensures forall i :: 0 <= i < PressureDays ==> 0 <= PressureWrites(DayState(s, samples).pressures, 0)[i].value <= 100
  {
    DayAverageWithin(samples, 940, 1060);
    var r := DayState(s, samples);
    forall i | 0 <= i < PressureDays
      ensures r.pressures[i] <= 1060
    {
      if i < PressureDays - 1 {
        assert r.pressures[i] == s.pressures[i + 1];
      }
    }
  }

  /** The pressure thread's state on one object. */
  class PressureStation {
    const display: Display
    const pressures: array<int>
    /** The thread's phase counter. */
    var angle: int
    /** The thread's running sum of the current day's samples. */
    var sum: int

    ghost predicate Valid()
      reads this
    {
      pressures.Length == PressureDays
    }

    ghost function State(): (s: PressureState)
      reads this, pressures
      requires Valid()
      ensures s.WellFormed()
    {
      PressureState(pressures[..], angle, sum)
    }

    constructor (display: Display)
      ensures Valid() && this.display == display && fresh(pressures)
      ensures State() == InitialState()
    {
      this.display := display;
      pressures := new int[PressureDays](_ => 0);
      angle := 0;
      sum := 0;
      new;
      assert pressures[..] == InitialState().pressures;
    }

    /** One iteration of the thread's inner loop, with the sample given. */
    method Tick(sample: int)
      requires Valid()
      modifies this, display
      ensures Valid()
      ensures State() == TickState(old(State()), sample)
      ensures display.log == old(display.log) + PressureWrites(pressures[..], sample)
    {
      var pressure := sample;
      sum := sum + pressure;
      UpdatePressure(display, pressures, pressure);
      angle := angle + 1;
      if angle > 360 { angle := 0; }
    }

    method Ticks(samples: seq<int>)
      requires Valid()
      modifies this, display
      ensures Valid()
      ensures State() == TicksState(old(State()), samples)
      ensures display.log == old(display.log) + TicksWrites(old(State()), samples)
    {
      ghost var start := State();
      ghost var log0 := display.log;
      var i := 0;
      while i < |samples|
        invariant 0 <= i <= |samples|
        invariant Valid()
        invariant State() == TicksState(start, samples[..i])
        invariant display.log == log0 + TicksWrites(start, samples[..i])
      {
        ghost var before := State();
        Tick(samples[i]);
        assert samples[..i + 1][..i] == samples[..i];
        AppendAssoc(log0, TicksWrites(start, samples[..i]), PressureWrites(before.pressures, samples[i]));
        i := i + 1;
      }
      assert samples[..|samples|] == samples;
    }

    /** The end of a day: shift the history in place and store the mean in
        slot 7. Nothing is rendered until the next tick. */
    method DayRoll()
      requires Valid()
      modifies pressures
      ensures Valid()
      ensures State() == DayRollState(old(State()))
    {
      ghost var p0 := pressures[..];
      var i := 1;
      while i < PressureDays
        invariant 1 <= i <= PressureDays
        invariant forall k :: 0 <= k < i - 1 ==> pressures[k] == p0[k + 1]
        invariant forall k :: i - 1 <= k < PressureDays ==> pressures[k] == p0[k]
      {
        pressures[i - 1] := pressures[i];
        i := i + 1;
      }
      pressures[PressureDays - 1] := CDiv(sum, TicksPerDay);
      ShiftInUnique(p0, PressureDays, CDiv(sum, TicksPerDay), pressures[..]);
    }

    /** One pass of the thread's outer loop over the day's 24 samples. */
    method Day(samples: seq<int>)
      requires Valid() && |samples| == TicksPerDay
      modifies this, pressures, display
      ensures Valid()
      ensures State() == DayState(old(State()), samples)
      ensures display.log == old(display.log) + TicksWrites(old(State()).(sum := 0), samples)
    {
      ghost var s0 := State();
      sum := 0;
      assert State() == s0.(sum := 0);
      Ticks(samples);
      DayRoll();
    }
  }
}
