/** The four detectors as they run on a price table: each one assigns the
    derived columns onto the caller's table, then walks the bars from the
    warm-up offset on and appends an alert for every bar that fires. */
module Detectors {
  import opened Bars
  import opened Indicators
  import opened Classifier
  import opened Annotator
  import opened Scanner

  /** A price table: the OHLCV rows and the two derived columns, which the
      detectors overwrite in place and which start out absent. */
  class Frame {
    var bars: seq<Bar>
    var avgVolume: seq<Option<real>>
    var rsi: seq<Option<real>>

    constructor (bars: seq<Bar>)
      ensures this.bars == bars && avgVolume == [] && rsi == []
    {
      this.bars := bars;
      avgVolume := [];
      rsi := [];
    }

    function Contents(): Table
      reads this
    {
      Table(bars, avgVolume, rsi)
    }

    /** Assigns the rolling average volume and the momentum column. */
    method AttachIndicators(g: Granularity, rsiOf: seq<real> -> seq<Option<real>>)
      modifies this
      ensures bars == old(bars)
      ensures Contents() == Annotate(bars, g, rsiOf)
    {
      avgVolume := RollingMean(bars, VolumeWindow(g));
      rsi := rsiOf(Closes(bars));
    }

    /** The detector loop over the columns as currently attached. */
    method ScanAttached(sc: Scan) returns (alerts: seq<Alert>)
      requires Aligned(Contents())
      ensures alerts == AlertsBetween(Contents(), sc, Warmup(sc.granularity), |bars|)
    {
      ghost var t := Contents();
      alerts := [];
      var n := |bars|;
      var lo := Warmup(sc.granularity);
      var since := ComparisonStart(sc.now);
      var cutoff := RecencyCutoff(sc.now);
      var i := lo;
      while i < n
        invariant lo <= i
        invariant i <= n ==> alerts == AlertsBetween(t, sc, lo, i)
        invariant n < i ==> i == lo && alerts == []
      {
        var b := bars[i];
        var past := PastWindow(bars, b.day, since);
        if past == [] {
          assert !FiresAt(t, sc, i);
          i := i + 1;
          continue;
        }
        var body := Abs(b.close - b.open);
        if body < MinBodySize {
          assert !FiresAt(t, sc, i);
          i := i + 1;
          continue;
        }
        var avg := avgVolume[i];
        if avg.Some? && b.volume < VolumeMultiplier * avg.value {
          assert !FiresAt(t, sc, i);
          i := i + 1;
          continue;
        }
        var tail: bool;
        match sc.kind {
          case Bottoming =>
            var lowerWick := Max(Min(b.close, b.open) - b.low, 0.0);
            var closeNearHigh := b.close >= b.high - (b.high - b.low) * 0.25;
            tail := lowerWick > TailRatioThreshold * body && closeNearHigh && b.low < MinLow(past);
          case Topping =>
            var upperWick := Max(b.high - Max(b.close, b.open), 0.0);
            var closeNearLow := b.close <= b.low + (b.high - b.low) * 0.25;
            tail := upperWick > TailRatioThreshold * body && closeNearLow && b.high > MaxHigh(past);
        }
        assert FiresAt(t, sc, i) <==> tail && b.day as real >= cutoff;
        if tail && b.day as real >= cutoff {
          var lv := TradeLevels(b, sc.kind);
          alerts := alerts + [Alert(sc.kind, sc.granularity, sc.ticker, i, b.day, RsiAt(rsi, i),
                                    lv.entry, lv.stopLoss, lv.takeProfit)];
        }
        i := i + 1;
      }
    }

    /** One detector run: attach the columns, then scan. */
    method DetectTails(kind: TailKind, g: Granularity, ticker: string, now: real,
                       rsiOf: seq<real> -> seq<Option<real>>) returns (alerts: seq<Alert>)
      modifies this
      ensures bars == old(bars)
      ensures Contents() == Annotate(bars, g, rsiOf)
      ensures alerts == Detect(bars, rsiOf, Scan(kind, g, ticker, now))
    {
      AttachIndicators(g, rsiOf);
      alerts := ScanAttached(Scan(kind, g, ticker, now));
    }

    method DetectBottomingTails(ticker: string, now: real, rsiOf: seq<real> -> seq<Option<real>>)
      returns (alerts: seq<Alert>)
      modifies this
      ensures bars == old(bars) && Contents() == Annotate(bars, Daily, rsiOf)
      ensures alerts == Detect(bars, rsiOf, Scan(Bottoming, Daily, ticker, now))
    {
      alerts := DetectTails(Bottoming, Daily, ticker, now, rsiOf);
    }

    method DetectToppingTails(ticker: string, now: real, rsiOf: seq<real> -> seq<Option<real>>)
      returns (alerts: seq<Alert>)
      modifies this
      ensures bars == old(bars) && Contents() == Annotate(bars, Daily, rsiOf)
      ensures alerts == Detect(bars, rsiOf, Scan(Topping, Daily, ticker, now))
    {
      alerts := DetectTails(Topping, Daily, ticker, now, rsiOf);
    }

    method DetectWeeklyBottomingTails(ticker: string, now: real, rsiOf: seq<real> -> seq<Option<real>>)
      returns (alerts: seq<Alert>)
      modifies this
      ensures bars == old(bars) && Contents() == Annotate(bars, Weekly, rsiOf)
      ensures alerts == Detect(bars, rsiOf, Scan(Bottoming, Weekly, ticker, now))
    {
      alerts := DetectTails(Bottoming, Weekly, ticker, now, rsiOf);
    }

    method DetectWeeklyToppingTails(ticker: string, now: real, rsiOf: seq<real> -> seq<Option<real>>)
      returns (alerts: seq<Alert>)
      modifies this
      ensures bars == old(bars) && Contents() == Annotate(bars, Weekly, rsiOf)
      ensures alerts == Detect(bars, rsiOf, Scan(Topping, Weekly, ticker, now))
    {
      alerts := DetectTails(Topping, Weekly, ticker, now, rsiOf);
    }
  }

  /** Running a detector a second time on the same table returns the same
      alerts and leaves the same columns behind. */
  method Rescan(f: Frame, kind: TailKind, g: Granularity, ticker: string, now: real,
                rsiOf: seq<real> -> seq<Option<real>>) returns (first: seq<Alert>, second: seq<Alert>)
    modifies f
    ensures first == second
    ensures f.bars == old(f.bars)
  {
    first := f.DetectTails(kind, g, ticker, now, rsiOf);
    var columns := f.Contents();
    second := f.DetectTails(kind, g, ticker, now, rsiOf);
    assert f.Contents() == columns;
  }
}
