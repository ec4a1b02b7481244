/** The data model of the scanner: one OHLCV bar, a series of bars, the
    tunable constants of the scan and the two granularity profiles. */
module Bars {

  datatype Option<+T> = None | Some(value: T)

  /** One OHLCV observation. `day` is the bar's date as a day number;
      prices and volume are exact reals (no rounding is modelled). */
  datatype Bar = Bar(day: int, open: real, high: real, low: real, close: real, volume: real)

  /** A series is ordered strictly by date, without duplicate dates. */
  predicate StrictlyIncreasing(s: seq<Bar>) {
    forall j, k :: 0 <= j < k < |s| ==> s[j].day < s[k].day
  }

  /** A bar with positive prices whose high and low bound its open and close. */
  predicate WellFormedBar(b: Bar) {
    0.0 < b.low && b.low <= b.open && b.low <= b.close && b.open <= b.high && b.close <= b.high
  }

  /** The close-price column, the input of the momentum indicator. */
  function Closes(s: seq<Bar>): (r: seq<real>)
    ensures |r| == |s|
    ensures forall k :: 0 <= k < |s| ==> r[k] == s[k].close
  {
    seq(|s|, k requires 0 <= k < |s| => s[k].close)
  }

  // Tunable constants of the scan.
  const TailRatioThreshold: real := 2.0
  const MinBodySize: real := 0.1
  const VolumeMultiplier: real := 1.2
  const LookbackDays: nat := 10
  const ComparisonDays: nat := 180

  datatype Granularity = Daily | Weekly

  /** Width of the trailing volume mean: 5 daily bars, 3 weekly bars. */
  function VolumeWindow(g: Granularity): (w: nat)
    ensures w > 0
  {
    match g
    case Daily => 5
    case Weekly => 3
  }

  /** Index of the first bar the scan evaluates. */
  function Warmup(g: Granularity): nat {
    match g
    case Daily => LookbackDays
    case Weekly => LookbackDays / 7
  }

  lemma WarmupValues()
    ensures Warmup(Daily) == 10 && Warmup(Weekly) == 1
  {
  }
}
