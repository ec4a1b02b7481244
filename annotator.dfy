/** Suggested trade levels for a classified bar, and the alert record that
    carries them. */
module Annotator {
  import opened Bars
  import opened Classifier

  datatype Levels = Levels(entry: real, stopLoss: real, takeProfit: real)

  /** Entry 40% of the range in from the extreme the tail rejected; the stop
      9% beyond the entry and the target 12% past it, in the direction of
      the expected reversal. */
  function TradeLevels(b: Bar, kind: TailKind): (r: Levels)
    ensures b.low <= b.high ==> b.low <= r.entry <= b.high
    ensures 0.0 < b.low <= b.high ==> r.entry > 0.0
    ensures kind == Bottoming && r.entry > 0.0 ==> r.stopLoss < r.entry < r.takeProfit
    ensures kind == Topping && r.entry > 0.0 ==> r.takeProfit < r.entry < r.stopLoss
    ensures kind == Bottoming ==> r.entry - b.low == 0.4 * (b.high - b.low)
    ensures kind == Topping ==> b.high - r.entry == 0.4 * (b.high - b.low)
  {
    var range := b.high - b.low;
    match kind
    case Bottoming =>
      var entry := b.low + 0.4 * range;
      Levels(entry, entry * 0.91, entry * 1.12)
    case Topping =>
      var entry := b.high - 0.4 * range;
      Levels(entry, entry * 1.09, entry * 0.88)
  }

  /** Reflecting a bar's prices about `k` reflects the entry as well. */
  lemma MirrorEntry(b: Bar, k: real)
    ensures TradeLevels(MirrorBar(b, k), Topping).entry == k - TradeLevels(b, Bottoming).entry
  {
  }

  /** A bar with open = close = 100, high 101 and low 90. */
  lemma FlatBarLevels()
    ensures TradeLevels(Bar(0, 100.0, 101.0, 90.0, 100.0, 3.0), Bottoming)
      == Levels(94.4, 85.904, 105.728)
  {
  }

  /** An alert: which detector raised it, for which security and bar, the
      bar's momentum value (absent where the indicator is undefined) and
      the suggested levels. */
  datatype Alert = Alert(
    kind: TailKind,
    granularity: Granularity,
    ticker: string,
    barIndex: nat,
    day: int,
    rsi: Option<real>,
    entry: real,
    stopLoss: real,
    takeProfit: real)

  function MakeAlert(b: Bar, i: nat, rsi: Option<real>, kind: TailKind, g: Granularity, ticker: string): (a: Alert)
    ensures a.kind == kind && a.granularity == g && a.ticker == ticker
    ensures a.barIndex == i && a.day == b.day && a.rsi == rsi
    ensures b.low <= b.high ==> b.low <= a.entry <= b.high
  {
    var lv := TradeLevels(b, kind);
    Alert(kind, g, ticker, i, b.day, rsi, lv.entry, lv.stopLoss, lv.takeProfit)
  }
}
