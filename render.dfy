/** `updateTemp` and `updatePressure`: how readings and history slots become
    gauge values, and the exact sequence of widget writes each one sends. */
module Render {
  import opened CInt
  import opened Genie

  /** Gauge index bases of the four history rows on the panel. */
  const TempBase: int := 0
  const TempBaseMin: int := 7
  const TempBaseMax: int := 14
  const PressureBase: int := 21

  /** Days a temperature row shows, and days the pressure row shows. */
  const TempDays: int := 7
  const PressureDays: int := 8

  /** A temperature history slot on its gauge: offset by 10, clamped to
      [0, 50], doubled. */
  function TempGaugeValue(h: int): (r: int)
    ensures 0 <= r <= 100 && r % 2 == 0
    ensures -10 <= h <= 40 ==> r == 2 * (h + 10)
    ensures h < -10 ==> r == 0
    ensures h > 40 ==> r == 100
  {
    2 * Clamp(h + 10, 0, 50)
  }

  /** A live temperature on its thermometer: offset by 10, clamped to [0, 50]. */
  function ThermometerValue(v: int): (r: int)
    ensures 0 <= r <= 50
    ensures -10 <= v <= 40 ==> r == v + 10
    ensures v < -10 ==> r == 0
    ensures v > 40 ==> r == 50
  {
    Clamp(v + 10, 0, 50)
  }

  /** A pressure history slot on its gauge: `v * 100 / 120` with v the
      reading above 940 (floored at 0). There is no upper clamp; the result
      stays within 100 only for readings up to 1060. */
  function PressureGaugeValue(h: int): (r: int)
    ensures r >= 0
    ensures h <= 940 ==> r == 0
    ensures h >= 940 ==> 0 <= (h - 940) * 100 - 120 * r < 120
    ensures h <= 1060 ==> r <= 100
  {
    var v := if h - 940 < 0 then 0 else h - 940;
    CDiv(v * 100, 120)
  }

  /** The live pressure on the cool gauge: above 940, clamped to [0, 120]. */
  function CoolGaugeValue(live: int): (r: int)
    ensures 0 <= r <= 120
    ensures 940 <= live <= 1060 ==> r == live - 940
    ensures live < 940 ==> r == 0
    ensures live > 1060 ==> r == 120
  {
    Clamp(live - 940, 0, 120)
  }

  /** The first n gauge writes of a temperature row. */
  function TempGauges(h: seq<int>, base: int, n: nat): (r: seq<WidgetWrite>)
    requires n <= |h|
    ensures |r| == n
    ensures forall i :: 0 <= i < n ==> r[i] == WriteObj(Gauge, base + i, TempGaugeValue(h[i]))
  {
    if n == 0 then [] else TempGauges(h, base, n - 1) + [WriteObj(Gauge, base + n - 1, TempGaugeValue(h[n - 1]))]
  }

  /** Everything `updateTemp (history, value, base, thermometer)` sends. */
  function TempWrites(h: seq<int>, value: int, base: int, thermometer: int): seq<WidgetWrite>
    requires |h| >= TempDays
  {
    TempGauges(h, base, TempDays) + [WriteObj(Thermometer, thermometer, ThermometerValue(value))]
  }

  /** `updateTemp` sends exactly eight writes: gauges base+0 .. base+6 with
      twice the clamped slot value (even, in [0, 100]), then the thermometer
      with the clamped live value (in [0, 50]). */
  lemma TempWritesLayout(h: seq<int>, value: int, base: int, thermometer: int)
    requires |h| >= TempDays
    ensures var r := TempWrites(h, value, base, thermometer);
      |r| == TempDays + 1
      && (forall i :: 0 <= i < TempDays ==>
            r[i].obj == Gauge && r[i].index == base + i && r[i].value == 2 * Clamp(h[i] + 10, 0, 50)
            && 0 <= r[i].value <= 100 && r[i].value % 2 == 0)
      && r[TempDays] == WriteObj(Thermometer, thermometer, Clamp(value + 10, 0, 50))
      && 0 <= r[TempDays].value <= 50
  {
  }

  /** The first n gauge writes of the pressure row. */
  function PressureGauges(h: seq<int>, n: nat): (r: seq<WidgetWrite>)
    requires n <= |h|
    ensures |r| == n
    ensures forall i :: 0 <= i < n ==> r[i] == WriteObj(Gauge, PressureBase + i, PressureGaugeValue(h[i]))
  {
    if n == 0 then [] else PressureGauges(h, n - 1) + [WriteObj(Gauge, PressureBase + n - 1, PressureGaugeValue(h[n - 1]))]
  }

  /** Everything `updatePressure (history, live)` sends. */
  function PressureWrites(h: seq<int>, live: int): seq<WidgetWrite>
    requires |h| >= PressureDays
  {
    PressureGauges(h, PressureDays) + [WriteObj(CoolGauge, 0, CoolGaugeValue(live))]
  }

  /** `updatePressure` sends exactly nine writes: gauges 21 .. 28 with
      `v * 100 / 120` for the slot's excess v over 940 (never negative, no
      upper clamp), then cool gauge 0 with the live excess clamped to
      [0, 120]. */
  lemma PressureWritesLayout(h: seq<int>, live: int)
    requires |h| >= PressureDays
    ensures var r := PressureWrites(h, live);
      |r| == PressureDays + 1
      && (forall i :: 0 <= i < PressureDays ==>
            r[i].obj == Gauge && r[i].index == PressureBase + i && r[i].value >= 0
            && r[i].value == CDiv((if h[i] < 940 then 0 else h[i] - 940) * 100, 120))
      && r[PressureDays] == WriteObj(CoolGauge, 0, Clamp(live - 940, 0, 120))
      && 0 <= r[PressureDays].value <= 120
  {
  }

  /** The four gauge rows never share a widget: the live, minimum, maximum
      and pressure rows cover 0..6, 7..13, 14..20 and 21..28. */
  lemma GaugeRowsDisjoint(h1: seq<int>, h2: seq<int>, h3: seq<int>, h4: seq<int>, v1: int, v2: int, v3: int, v4: int, i: int, j: int)
    requires |h1| >= TempDays && |h2| >= TempDays && |h3| >= TempDays && |h4| >= PressureDays
    requires 0 <= i < TempDays && 0 <= j < PressureDays
    ensures TempWrites(h1, v1, TempBase, 0)[i].index < TempBaseMin
    ensures TempBaseMin <= TempWrites(h2, v2, TempBaseMin, 1)[i].index < TempBaseMax
    ensures TempBaseMax <= TempWrites(h3, v3, TempBaseMax, 2)[i].index < PressureBase
    ensures PressureBase <= PressureWrites(h4, v4)[j].index < PressureBase + PressureDays
  {
  }

  /** `updateTemp`: the gauge loop over the first seven slots, then the
      thermometer. */
  method UpdateTemp(display: Display, history: array<int>, value: int, base: int, thermometer: int)
    requires history.Length >= TempDays
    modifies display
    ensures display.log == old(display.log) + TempWrites(history[..], value, base, thermometer)
  {
    var i := 0;
    while i < TempDays
      invariant 0 <= i <= TempDays
      invariant display.log == old(display.log) + TempGauges(history[..], base, i)
    {
      var v := history[i] + 10;
      if v > 50 { v := 50; }
      if v < 0 { v := 0; }
      display.WriteObj(Gauge, base + i, v * 2);
      i := i + 1;
    }
    var v := value + 10;
    if v > 50 { v := 50; }
    if v < 0 { v := 0; }
    display.WriteObj(Thermometer, thermometer, v);
  }

  /** `updatePressure`: the gauge loop over all eight slots, then the
      cool gauge. */
  method UpdatePressure(display: Display, history: array<int>, live: int)
    requires history.Length >= PressureDays
    modifies display
    ensures display.log == old(display.log) + PressureWrites(history[..], live)
  {
    var i := 0;
    while i < PressureDays
      invariant 0 <= i <= PressureDays
      invariant display.log == old(display.log) + PressureGauges(history[..], i)
    {
      var v := history[i] - 940;
      if v < 0 { v := 0; }
      display.WriteObj(Gauge, PressureBase + i, CDiv(v * 100, 120));
      i := i + 1;
    }
    var v := live - 940;
    if v < 0 { v := 0; }
    if v > 120 { v := 120; }
    display.WriteObj(CoolGauge, 0, v);
  }
}
