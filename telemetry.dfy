/** What the two telemetry threads of weather.c share: the running sum of a
    day's samples, the phase counter, and the left shift that appends one
    daily aggregate to a fixed-length history. */
module Telemetry {
  import opened CInt

  /** Samples per simulated day (the inner `for` loop of each thread). */
  const TicksPerDay: int := 24

  /** The running `sum += sample`, accumulated left to right. */
  function Sum(xs: seq<int>): int
    decreases |xs|
  {
    if xs == [] then 0 else Sum(xs[..|xs| - 1]) + xs[|xs| - 1]
  }

  /** The daily aggregate `sum / 24`: the mean truncated toward zero. */
  function DayAverage(sum: int): (r: int)
    ensures sum >= 0 ==> 0 <= sum - TicksPerDay * r < TicksPerDay
    ensures sum < 0 ==> -TicksPerDay < sum - TicksPerDay * r <= 0
  {
    CDiv(sum, TicksPerDay)
  }

  /** The phase counter step: `angle += 1; if (angle > 360) angle = 0;`. */
  function AdvanceAngle(angle: int): (r: int)
    ensures 0 <= angle <= 360 ==> 0 <= r <= 360
    ensures r == 0 || r == angle + 1
    ensures angle < 360 ==> r == angle + 1
  {
    if angle + 1 > 360 then 0 else angle + 1
  }

  /** The in-place left shift of slots 1..n-1 followed by storing x in slot
      n-1; slots from n on are left alone. The length never changes. */
  function ShiftIn(h: seq<int>, n: nat, x: int): (r: seq<int>)
    requires 0 < n <= |h|
    ensures |r| == |h|
    ensures forall i :: 0 <= i < n - 1 ==> r[i] == h[i + 1]
    ensures r[n - 1] == x
    ensures forall i :: n <= i < |h| ==> r[i] == h[i]
  {
    h[1..n] + [x] + h[n..]
  }

  /** ShiftIn is the only sequence with its index facts: an in-place shift
      that establishes them has computed ShiftIn. */
  lemma ShiftInUnique(h: seq<int>, n: nat, x: int, r: seq<int>)
    requires 0 < n <= |h| && |r| == |h|
    requires forall i :: 0 <= i < n - 1 ==> r[i] == h[i + 1]
    requires r[n - 1] == x
    requires forall i :: n <= i < |h| ==> r[i] == h[i]
    ensures r == ShiftIn(h, n, x)
  {
  }

  /** Bounds on every sample bound their sum. */
  lemma {:induction false} SumBounds(xs: seq<int>, lo: int, hi: int)
    requires forall i :: 0 <= i < |xs| ==> lo <= xs[i] <= hi
    ensures |xs| * lo <= Sum(xs) <= |xs| * hi
    decreases |xs|
  {
    if xs != [] {
      var init := xs[..|xs| - 1];
      assert forall i :: 0 <= i < |init| ==> init[i] == xs[i];
      SumBounds(init, lo, hi);
      assert |xs| * lo == |init| * lo + lo;
      assert |xs| * hi == |init| * hi + hi;
    }
  }

  /** A day's truncated mean lies within any bounds that hold of every
      sample of that day. */
  lemma DayAverageWithin(xs: seq<int>, lo: int, hi: int)
    requires |xs| == TicksPerDay
    requires forall i :: 0 <= i < |xs| ==> lo <= xs[i] <= hi
    ensures lo <= DayAverage(Sum(xs)) <= hi
  {
    SumBounds(xs, lo, hi);
  }
}
