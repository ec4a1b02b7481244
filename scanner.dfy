/** The value of one detector run: the alerts of every bar from the warm-up
    offset to the end of the series, in bar order. */
module Scanner {
  import opened Bars
  import opened Indicators
  import opened Classifier
  import opened Annotator

  /** A series with its two derived columns attached. */
  datatype Table = Table(bars: seq<Bar>, avgVolume: seq<Option<real>>, rsi: seq<Option<real>>)

  predicate Aligned(t: Table) { |t.avgVolume| == |t.bars| }

  /** The parameters of one detector run. */
  datatype Scan = Scan(kind: TailKind, granularity: Granularity, ticker: string, now: real)

  /** The momentum value of bar `i`; an index past the column reads as absent. */
  function RsiAt(col: seq<Option<real>>, i: nat): Option<real> {
    if i < |col| then col[i] else None
  }

  predicate FiresAt(t: Table, sc: Scan, i: nat)
    requires Aligned(t) && i < |t.bars|
  {
    Fires(t.bars, i, t.avgVolume[i], sc.now, sc.kind)
  }

  function AlertAt(t: Table, sc: Scan, i: nat): (a: Alert)
    requires i < |t.bars|
    ensures a.barIndex == i && a.kind == sc.kind && a.granularity == sc.granularity && a.ticker == sc.ticker
  {
    MakeAlert(t.bars[i], i, RsiAt(t.rsi, i), sc.kind, sc.granularity, sc.ticker)
  }

  /** The alerts of bars lo .. hi-1, in bar order. */
  function AlertsBetween(t: Table, sc: Scan, lo: nat, hi: nat): (r: seq<Alert>)
    requires Aligned(t) && hi <= |t.bars|
    ensures hi <= lo ==> r == []
    ensures lo <= hi ==> |r| <= hi - lo
    decreases hi
  {
    if hi <= lo then []
    else
      AlertsBetween(t, sc, lo, hi - 1)
      + (if FiresAt(t, sc, hi - 1) then [AlertAt(t, sc, hi - 1)] else [])
  }

  /** Every alert is for a bar in range that fires, and is that bar's alert. */
  lemma {:induction false} AlertsBetweenSound(t: Table, sc: Scan, lo: nat, hi: nat)
    requires Aligned(t) && hi <= |t.bars|
    ensures forall a :: a in AlertsBetween(t, sc, lo, hi) ==>
      lo <= a.barIndex < hi && FiresAt(t, sc, a.barIndex) && a == AlertAt(t, sc, a.barIndex)
    decreases hi
  {
    if lo < hi {
      AlertsBetweenSound(t, sc, lo, hi - 1);
      var prefix := AlertsBetween(t, sc, lo, hi - 1);
      var last := if FiresAt(t, sc, hi - 1) then [AlertAt(t, sc, hi - 1)] else [];
      assert AlertsBetween(t, sc, lo, hi) == prefix + last;
    }
  }

  /** Every bar in range that fires has its alert. */
  lemma {:induction false} AlertsBetweenComplete(t: Table, sc: Scan, lo: nat, hi: nat, i: nat)
    requires Aligned(t) && hi <= |t.bars|
    requires lo <= i < hi && FiresAt(t, sc, i)
    ensures exists k :: 0 <= k < |AlertsBetween(t, sc, lo, hi)| && AlertsBetween(t, sc, lo, hi)[k].barIndex == i
    decreases hi
  {
    var r := AlertsBetween(t, sc, lo, hi);
    var prefix := AlertsBetween(t, sc, lo, hi - 1);
    if i == hi - 1 {
      assert r[|r| - 1].barIndex == i;
    } else {
      AlertsBetweenComplete(t, sc, lo, hi - 1, i);
      AlertsBetweenSound(t, sc, lo, hi - 1);
      var k :| 0 <= k < |prefix| && prefix[k].barIndex == i;
      assert r[k] == prefix[k];
    }
  }

  /** Alerts come out in strictly ascending bar order: at most one per bar. */
  lemma {:induction false} AlertsBetweenIncreasing(t: Table, sc: Scan, lo: nat, hi: nat)
    requires Aligned(t) && hi <= |t.bars|
    ensures forall k1, k2 :: 0 <= k1 < k2 < |AlertsBetween(t, sc, lo, hi)| ==>
      AlertsBetween(t, sc, lo, hi)[k1].barIndex < AlertsBetween(t, sc, lo, hi)[k2].barIndex
    decreases hi
  {
    if lo < hi {
      AlertsBetweenIncreasing(t, sc, lo, hi - 1);
      AlertsBetweenSound(t, sc, lo, hi - 1);
      var prefix := AlertsBetween(t, sc, lo, hi - 1);
      var last := if FiresAt(t, sc, hi - 1) then [AlertAt(t, sc, hi - 1)] else [];
      assert AlertsBetween(t, sc, lo, hi) == prefix + last;
      assert forall k :: 0 <= k < |prefix| ==> prefix[k] in prefix;
    }
  }

  /** The series with its rolling mean of the granularity's window and the
      momentum column computed from its closes. */
  function Annotate(bars: seq<Bar>, g: Granularity, rsiOf: seq<real> -> seq<Option<real>>): (t: Table)
    ensures Aligned(t) && t.bars == bars
  {
    Table(bars, RollingMean(bars, VolumeWindow(g)), rsiOf(Closes(bars)))
  }

  /** The alert list one detector returns: nothing for a series no longer
      than the warm-up offset, and otherwise at most one alert per bar
      from the offset on. */
  function Detect(bars: seq<Bar>, rsiOf: seq<real> -> seq<Option<real>>, sc: Scan): (r: seq<Alert>)
    ensures |bars| <= Warmup(sc.granularity) ==> r == []
    ensures Warmup(sc.granularity) <= |bars| ==> |r| <= |bars| - Warmup(sc.granularity)
  {
    AlertsBetween(Annotate(bars, sc.granularity, rsiOf), sc, Warmup(sc.granularity), |bars|)
  }

  /** An alert exists for bar `i` exactly when `i` is past the warm-up offset
      and the bar fires against its rolling average volume; each alert is the
      one built from its bar; alerts are ascending and bounded in number. */
  lemma DetectSpec(bars: seq<Bar>, rsiOf: seq<real> -> seq<Option<real>>, sc: Scan, i: nat)
    requires i < |bars|
    ensures (exists k :: 0 <= k < |Detect(bars, rsiOf, sc)| && Detect(bars, rsiOf, sc)[k].barIndex == i) <==>
      Warmup(sc.granularity) <= i
      && Fires(bars, i, RollingMean(bars, VolumeWindow(sc.granularity))[i], sc.now, sc.kind)
    ensures forall a :: a in Detect(bars, rsiOf, sc) ==>
      a.barIndex < |bars|
      && a == MakeAlert(bars[a.barIndex], a.barIndex, RsiAt(rsiOf(Closes(bars)), a.barIndex),
                        sc.kind, sc.granularity, sc.ticker)
    ensures forall k1, k2 :: 0 <= k1 < k2 < |Detect(bars, rsiOf, sc)| ==>
      Detect(bars, rsiOf, sc)[k1].barIndex < Detect(bars, rsiOf, sc)[k2].barIndex
    ensures |Detect(bars, rsiOf, sc)| <= |bars| - Warmup(sc.granularity) || Detect(bars, rsiOf, sc) == []
  {
    var t := Annotate(bars, sc.granularity, rsiOf);
    var lo := Warmup(sc.granularity);
    if lo <= i && FiresAt(t, sc, i) {
      AlertsBetweenComplete(t, sc, lo, |bars|, i);
    }
    AlertsBetweenIncreasing(t, sc, lo, |bars|);
    AlertsBetweenSound(t, sc, lo, |bars|);
    var r := Detect(bars, rsiOf, sc);
    if k :| 0 <= k < |r| && r[k].barIndex == i {
      assert r[k] in r;
    }
  }

  /** Every alert of a detector run carries that run's kind, granularity
      and security. */
  lemma DetectAlertsOfScan(bars: seq<Bar>, rsiOf: seq<real> -> seq<Option<real>>, sc: Scan)
    ensures forall a :: a in Detect(bars, rsiOf, sc) ==>
      a.kind == sc.kind && a.granularity == sc.granularity && a.ticker == sc.ticker && a.barIndex < |bars|
  {
    AlertsBetweenSound(Annotate(bars, sc.granularity, rsiOf), sc, Warmup(sc.granularity), |bars|);
  }

  /** On well-formed bars every alert's entry lies within its bar's range, and
      stop and target sit on the proper sides of the entry. */
  lemma DetectLevelsOrdered(bars: seq<Bar>, rsiOf: seq<real> -> seq<Option<real>>, sc: Scan)
    requires forall k :: 0 <= k < |bars| ==> WellFormedBar(bars[k])
    ensures forall a :: a in Detect(bars, rsiOf, sc) ==>
      a.barIndex < |bars|
      && bars[a.barIndex].low <= a.entry <= bars[a.barIndex].high
      && (sc.kind == Bottoming ==> a.stopLoss < a.entry < a.takeProfit)
      && (sc.kind == Topping ==> a.takeProfit < a.entry < a.stopLoss)
  {
    AlertsBetweenSound(Annotate(bars, sc.granularity, rsiOf), sc, Warmup(sc.granularity), |bars|);
    forall a | a in Detect(bars, rsiOf, sc)
      ensures a.barIndex < |bars|
      ensures bars[a.barIndex].low <= a.entry <= bars[a.barIndex].high
      ensures sc.kind == Bottoming ==> a.stopLoss < a.entry < a.takeProfit
      ensures sc.kind == Topping ==> a.takeProfit < a.entry < a.stopLoss
    {
      var b := bars[a.barIndex];
      assert WellFormedBar(b);
      var lv := TradeLevels(b, sc.kind);
      assert a.entry == lv.entry && a.stopLoss == lv.stopLoss && a.takeProfit == lv.takeProfit;
    }
  }

  /** The bottoming-tail detector, daily or weekly, stated end to end. */
  lemma DetectBottomingIff(bars: seq<Bar>, rsiOf: seq<real> -> seq<Option<real>>, g: Granularity,
                           ticker: string, now: real, i: nat)
    requires i < |bars|
    ensures var r := Detect(bars, rsiOf, Scan(Bottoming, g, ticker, now));
      (exists k :: 0 <= k < |r| && r[k].barIndex == i) <==>
        var w := VolumeWindow(g);
        var b := bars[i];
        var body := if b.close >= b.open then b.close - b.open else b.open - b.close;
        var lowerBody := if b.close <= b.open then b.close else b.open;
        i >= Warmup(g)
        && (exists j :: 0 <= j < |bars| && InPast(bars, i, j, now))
        && body >= 0.1
        && (i + 1 < w || b.volume >= 1.2 * (VolumeSum(bars[i + 1 - w .. i + 1]) / (w as real)))
        && (if lowerBody - b.low >= 0.0 then lowerBody - b.low else 0.0) > 2.0 * body
        && b.close >= b.high - 0.25 * (b.high - b.low)
        && (forall j :: 0 <= j < |bars| && InPast(bars, i, j, now) ==> b.low < bars[j].low)
        && b.day as real >= now - 10.0
  {
    DetectSpec(bars, rsiOf, Scan(Bottoming, g, ticker, now), i);
    BottomingIff(bars, i, RollingMean(bars, VolumeWindow(g))[i], now);
  }

  /** The topping-tail detector, daily or weekly, stated end to end. */
  lemma DetectToppingIff(bars: seq<Bar>, rsiOf: seq<real> -> seq<Option<real>>, g: Granularity,
                         ticker: string, now: real, i: nat)
    requires i < |bars|
    ensures var r := Detect(bars, rsiOf, Scan(Topping, g, ticker, now));
      (exists k :: 0 <= k < |r| && r[k].barIndex == i) <==>
        var w := VolumeWindow(g);
        var b := bars[i];
        var body := if b.close >= b.open then b.close - b.open else b.open - b.close;
        var upperBody := if b.close >= b.open then b.close else b.open;
        i >= Warmup(g)
        && (exists j :: 0 <= j < |bars| && InPast(bars, i, j, now))
        && body >= 0.1
        && (i + 1 < w || b.volume >= 1.2 * (VolumeSum(bars[i + 1 - w .. i + 1]) / (w as real)))
        && (if b.high - upperBody >= 0.0 then b.high - upperBody else 0.0) > 2.0 * body
        && b.close <= b.low + 0.25 * (b.high - b.low)
        && (forall j :: 0 <= j < |bars| && InPast(bars, i, j, now) ==> b.high > bars[j].high)
        && b.day as real >= now - 10.0
  {
    DetectSpec(bars, rsiOf, Scan(Topping, g, ticker, now), i);
    ToppingIff(bars, i, RollingMean(bars, VolumeWindow(g))[i], now);
  }

  /** Scanning the mirrored series for topping tails flags the same bars as
      scanning the original for bottoming tails, with mirrored entries. */
  lemma {:induction false} MirrorAlertsBetween(t: Table, m: Table, bot: Scan, top: Scan, k: real, lo: nat, hi: nat)
    requires Aligned(t) && hi <= |t.bars|
    requires m.bars == MirrorSeries(t.bars, k) && m.avgVolume == t.avgVolume
    requires bot.kind == Bottoming && top.kind == Topping && bot.now == top.now
    ensures var rb, rt := AlertsBetween(t, bot, lo, hi), AlertsBetween(m, top, lo, hi);
      |rt| == |rb|
      && forall n :: 0 <= n < |rb| ==> rt[n].barIndex == rb[n].barIndex && rt[n].entry == k - rb[n].entry
    decreases hi
  {
    if lo < hi {
      MirrorAlertsBetween(t, m, bot, top, k, lo, hi - 1);
      MirrorFires(t.bars, hi - 1, t.avgVolume[hi - 1], bot.now, k);
      MirrorEntry(t.bars[hi - 1], k);
    }
  }

  lemma MirrorDetect(bars: seq<Bar>, rsiOf: seq<real> -> seq<Option<real>>, g: Granularity,
                     ticker: string, now: real, k: real)
    ensures var rb := Detect(bars, rsiOf, Scan(Bottoming, g, ticker, now));
      var rt := Detect(MirrorSeries(bars, k), rsiOf, Scan(Topping, g, ticker, now));
      |rt| == |rb|
      && forall n :: 0 <= n < |rb| ==> rt[n].barIndex == rb[n].barIndex && rt[n].entry == k - rb[n].entry
  {
    var m := MirrorSeries(bars, k);
    RollingMeanVolumesOnly(bars, m, VolumeWindow(g));
    MirrorAlertsBetween(Annotate(bars, g, rsiOf), Annotate(m, g, rsiOf),
                        Scan(Bottoming, g, ticker, now), Scan(Topping, g, ticker, now), k, Warmup(g), |bars|);
  }
}
