# Weather station demo: a Dafny model

This project models `weather.c`, a demo that drives a 4D Systems display panel over
a serial link. It simulates temperature and pressure readings, keeps rolling daily
histories of them, and resets the temperature extrema when a button on the panel
is pressed.

The model keeps the integer state machine at the centre of the program:

- **Rendering.** `updateTemp` and `updatePressure` turn readings and history slots
  into gauge values by offsetting, clamping and scaling. Each emits a fixed
  sequence of `genieWriteObj (class, index, value)` calls. The panel is a
  `Display` object whose `log` records every write in order.
- **The temperature thread** (`handleTemperature`). Each tick takes a sample,
  adds it to the day's sum, widens the running minimum and maximum, re-renders the
  live row and advances the phase counter. After 24 ticks the day roll shifts the
  three 8-slot history arrays in place. Slot 6 then receives the day's mean and the
  current extrema, and the minimum and maximum rows are re-rendered. Slot 7 is
  declared but never used.
- **The pressure thread** (`handlePressure`). It has the same tick and day-roll
  structure over one 8-slot history with no extrema. Every tick renders, and the
  day roll does not.
- **Event dispatch** (`handleGenieEvent`). A report event from button 2 resets the
  minimum to the live temperature, and button 6 resets the maximum; each reset
  re-renders its row. Every other reply changes nothing and is only logged. The
  inner `while (genieReplyAvail ())` loop of `main` handles a queue of pending
  replies in arrival order.

Each core step is an imperative method on a class: `TemperatureStation`, which
holds the temperature globals, or `PressureStation`, which holds the pressure
thread's state. Each method is proved against a pure specification function on a
state value: `TempState` or `PressureState`. Lemmas then prove the program's
properties of those functions.

The sum `sum / 24` is C division, which truncates toward zero. Temperature sums
can be negative, so the model uses `CInt.CDiv` and not Dafny's Euclidean `/`.
The daily aggregate is therefore the mean truncated toward zero, not rounded to
the nearest integer. For example, a day whose samples sum to 23 gets 0, not 1, and a day
summing to -23 also gets 0.

Modules: `Genie` (widget classes, replies, the display log), `CInt` (clamping and
C division), `Telemetry` (the running sum, phase counter, day average and history
shift), `Render`, `Events`, `Temperature` and `Pressure`.

## Model

| member | source | states |
|---|---|---|
| `CInt.Clamp` | weather.c:87-89 | the clamped value lies in [lo, hi]; it equals the input when the input is in range, and the violated bound otherwise |
| `CInt.CDiv` | weather.c:175 | C division by a positive divisor: for a non-negative dividend the remainder is in [0, d); for a negative one it is in (-d, 0], so the quotient is truncated toward zero |
| `CInt.CDivUnique` | weather.c:175 | no other quotient satisfies those remainder bounds, so `CDiv` is exactly C's truncating division |
| `Telemetry.DayAverage` | weather.c:175 | the daily aggregate `sum / 24` is the truncated mean: `sum - 24*r` lies in [0, 24) for a non-negative sum and in (-24, 0] for a negative one |
| `Telemetry.AdvanceAngle` | weather.c:161-163 | the phase counter is incremented and reset to 0 once it exceeds 360, so a counter in [0, 360] stays in [0, 360]; below 360 it simply increments |
| `Telemetry.ShiftIn` | weather.c:168-173 | the in-place left shift keeps the length; after it, slot i holds old slot i+1 for i < n-1, slot n-1 holds the new aggregate, and slots from n on are untouched |
| `Telemetry.SumBounds` | weather.c:152-156 | if every sample lies in [lo, hi], the accumulated sum lies in [n*lo, n*hi] |
| `Telemetry.DayAverageWithin` | weather.c:152-175 | if every one of a day's 24 samples lies in [lo, hi], so does the day's truncated mean |
| `Render.TempGaugeValue` | weather.c:87-91 | a temperature gauge value is even and in [0, 100]; it equals 2*(h+10) for h in [-10, 40], is 0 below that range and 100 above it |
| `Render.ThermometerValue` | weather.c:94-97 | a thermometer value is in [0, 50]; it equals v+10 for v in [-10, 40], is 0 below that range and 50 above it |
| `Render.PressureGaugeValue` | weather.c:57-61 | a pressure gauge value is never negative and is 0 at or below 940; above 940 it is the truncated (h-940)*100/120; it is at most 100 for h up to 1060, with no upper clamp beyond |
| `Render.CoolGaugeValue` | weather.c:64-67 | the cool-gauge value is in [0, 120]; it equals live-940 for live in [940, 1060], is 0 below that range and 120 above it |
| `Render.TempGauges` | weather.c:85-92 | the first n writes of a temperature row: write i goes to gauge base+i with value `TempGaugeValue(h[i])` |
| `Render.TempWritesLayout` | weather.c:80-98 | `updateTemp` sends exactly 8 writes: gauges base+0..base+6 with value 2*clamp(h[i]+10, 0, 50), even and in [0, 100], then the thermometer with clamp(value+10, 0, 50) |
| `Render.PressureGauges` | weather.c:55-62 | the first n writes of the pressure row: write i goes to gauge 21+i with value `PressureGaugeValue(h[i])` |
| `Render.PressureWritesLayout` | weather.c:50-68 | `updatePressure` sends exactly 9 writes: gauges 21..28 with value max(h[i]-940, 0)*100/120 (never negative), then cool gauge 0 with clamp(live-940, 0, 120) in [0, 120] |
| `Render.GaugeRowsDisjoint` | weather.c:30-33 | the live (0..6), minimum (7..13), maximum (14..20) and pressure (21..28) gauge rows use disjoint widget indices |
| `Render.UpdateTemp` | weather.c:80-98 | the loop appends exactly the writes of `TempWrites` for the array's first seven slots and the live value to the display log |
| `Render.UpdatePressure` | weather.c:50-68 | the loop appends exactly the writes of `PressureWrites` for the array's eight slots and the live value to the display log |
| `Genie.Display.WriteObj` | weather.c:61 | `genieWriteObj` appends one write to the log and changes nothing else |
| `Events.Classify` | weather.c:101-127 | both directions: a non-report command is invalid; a report event is a minimum reset exactly for button 2, a maximum reset exactly for button 6, an unknown button for any other button index, and an unhandled event for any other widget class |
| `Events.ClassifyAll` | weather.c:270-274 | draining a queue yields one outcome per reply |
| `Events.ClassifyAllAt` | weather.c:270-274 | the i-th outcome is the classification of the i-th reply, in arrival order |
| `Temperature.InitialState` | weather.c:142-148 | at thread start all eight slots of each history are 0, the live value is 0, the minimum is 40, the maximum is -10 and the phase is 0, so before the first tick the extrema do not bracket the live value |
| `Temperature.TickState` | weather.c:155-163 | after a tick the live value is the sample, the sum grows by it, and min <= live <= max; the minimum never rises and the maximum never falls, each changing only to the sample; the phase advances; histories are unchanged |
| `Temperature.TicksState` | weather.c:153-166 | a run of ticks never touches the three histories |
| `Temperature.TicksProgress` | weather.c:152-163 | after a run of ticks the sum has grown by the samples' sum, the live value is the last sample and the phase stays in [0, 360] |
| `Temperature.TicksExtrema` | weather.c:157-158 | after a run of ticks the extrema are the minimum and the maximum of the old extrema and all the samples, and they bracket the live value |
| `Temperature.DayRollState` | weather.c:168-178 | the day roll keeps every history at 8 slots |
| `Temperature.DayRollShifts` | weather.c:168-178 | the roll moves slots 1..6 of each history down by one, stores the truncated mean and the current extrema in slot 6, leaves slot 7 untouched and resets neither extremum |
| `Temperature.TicksWritesLayout` | weather.c:159 | each tick sends 8 writes, all to live gauges 0..6 (even, in [0, 100]) or to thermometer 0 (in [0, 50]) |
| `Temperature.DayAggregates` | weather.c:150-178 | after a day, slot 6 holds the truncated mean of the day's 24 samples and the extrema over the old extrema and the samples; older slots have moved down and slot 7 of each of the three histories is unchanged |
| `Temperature.DayHistoryWithin` | weather.c:152-175 | if every sample of the day lies in [lo, hi], the new history slot does too |
| `Temperature.DispatchEffects` | weather.c:101-127 | a non-report command, another widget class, or a button other than 2 or 6 leaves the state unchanged; button 2 sets only the minimum to the live value, and button 6 sets only the maximum; min <= live <= max survives every reply |
| `Temperature.DispatchWritesLayout` | weather.c:111-120 | a reset re-renders its row (gauges 7..13 with thermometer 1, or 14..20 with thermometer 2) with the live value on the thermometer; every other reply sends nothing |
| `Temperature.DispatchIdempotent` | weather.c:113-119 | handling the same reply a second time leaves the state as the first handling left it, and sends again a batch of writes equal to the first one |
| `Temperature.DispatchAllState` | weather.c:270-274 | handling a queue of replies never touches the histories |
| `Temperature.DispatchAllPreserves` | weather.c:270-274 | a drained queue changes at most the extrema and keeps min <= live <= max |
| `Temperature.DispatchAllNoReset` | weather.c:270-274 | a queue with no reset among its replies leaves the state exactly as it was |
| `Temperature.TemperatureStation.constructor` | weather.c:142-148 | the globals start zeroed (eight slots each), with the minimum at 40, the maximum at -10 and the phase at 0 |
| `Temperature.TemperatureStation.Tick` | weather.c:155-163 | one tick updates the state as `TickState` says and appends the live-row rendering of the unchanged history to the log |
| `Temperature.TemperatureStation.DayRoll` | weather.c:168-180 | the in-place shift loop plus the slot-6 stores give `DayRollState`; the log gains the re-rendered minimum row, then the maximum row |
| `Temperature.TemperatureStation.Ticks` | weather.c:153-166 | the inner loop over the samples gives `TicksState` and appends one live-row rendering per tick |
| `Temperature.TemperatureStation.Day` | weather.c:150-181 | one pass of the outer loop (sum reset, 24 ticks, day roll) gives `DayState` and `DayWrites` |
| `Temperature.TemperatureStation.HandleGenieEvent` | weather.c:101-127 | returns the branch taken (`Classify`), updates the state as `DispatchState` says and appends `DispatchWrites` |
| `Temperature.TemperatureStation.DrainReplies` | weather.c:270-274 | handles every pending reply in arrival order, giving `DispatchAllState`, `DispatchAllWrites` and one outcome per reply |
| `Pressure.InitialState` | weather.c:199-204 | at thread start all eight pressure slots are 0 and the phase is 0 |
| `Pressure.TickState` | weather.c:211-217 | a tick adds the sample to the sum, advances the phase and leaves the history unchanged |
| `Pressure.TicksState` | weather.c:209-220 | after a run of ticks the history is unchanged, the sum has grown by the samples' sum and the phase stays in [0, 360] |
| `Pressure.DayRollState` | weather.c:222-225 | the roll keeps 8 slots, moves slots 1..7 down by one and stores the truncated mean in slot 7 |
| `Pressure.TicksWrites` | weather.c:213 | each tick sends 9 writes, all to pressure gauges 21..28 (never negative) or to cool gauge 0 (in [0, 120]) |
| `Pressure.DayAggregate` | weather.c:208-225 | after a day, slot 7 holds the truncated mean of the day's 24 samples and the older slots have moved down |
| `Pressure.InitialAtMost` | weather.c:199-204 | the fresh all-zero pressure history has no slot above 1060 |
| `Pressure.DayKeepsGaugesInScale` | weather.c:55-61 | if no history slot exceeds 1060 and the day's samples lie in [940, 1060], no slot of the new history exceeds 1060, and every pressure gauge value stays in [0, 100] despite the missing upper clamp; with `InitialAtMost` this holds for every day from the start |
| `Pressure.PressureStation.constructor` | weather.c:199-204 | the local history starts with all eight slots at 0 and the phase at 0 |
| `Pressure.PressureStation.Tick` | weather.c:211-217 | one tick updates the state as `TickState` says and appends the `updatePressure` writes |
| `Pressure.PressureStation.Ticks` | weather.c:209-220 | the inner loop gives `TicksState` and appends one pressure rendering per tick |
| `Pressure.PressureStation.DayRoll` | weather.c:222-225 | the in-place shift loop and the slot-7 store give `DayRollState`; nothing is rendered |
| `Pressure.PressureStation.Day` | weather.c:208-225 | one pass of the outer loop (sum reset, 24 ticks, day roll) gives `DayState` and the writes of the ticks |

## Left out

- Sample synthesis with `sin`, `rint`, `M_PI` and `double` (weather.c:155, 211) is floating point. Each tick's sample is an arbitrary integer parameter instead.
- The phase counter `angle` is a `double` in the source but only ever holds whole numbers, so it is an `int` here.
- `angle` and `sum` are locals of their threads. They are fields of the station objects here so that one tick can be one method call.
- The two threads and the unlocked sharing of the temperature globals with the dispatcher (`pthread_create`, weather.c:263-264) are concurrency. Every step here is sequential, so the model does not capture the read-during-update race between a tick and a reset.
- The `usleep` delays (weather.c:165, 219, 275) affect timing only.
- The geniePi library is not part of this model: `genieSetup` and its fatal failure, `genieReplyAvail`, `genieGetReply`, and the serial transport. The queue of pending replies is an input sequence. `genieWriteObj` is an append to the display log, and a failed write cannot be seen, as in the source.
- The numeric codes of the widget classes and of `GENIE_REPORT_EVENT` come from `geniePi.h`, which is not part of this model. They are datatype constructors here.
- The `printf` diagnostics (weather.c:105, 122, 125) are not formatted. The `EventOutcome` returned for each reply names the line printed and its fields.
- `main`'s banner, the selection of form 0 (weather.c:259) and the endless outer loops are plumbing. One tick, one day, one reply or one drained queue is one method call.
- 32-bit `int` wrap-around is not modelled; integers here are unbounded. With the source's synthesized samples, the largest intermediate values are a day's pressure sum (at most 25,440) and `v * 100` (at most 12,000). Both are far from the limit.
