/** The per-bar reversal rule shared by the four detectors: the body and
    volume filters, the wick shape, the new-extreme test against a past
    window anchored at the scan's `now`, and the recency cutoff. */
module Classifier {
  import opened Bars

  /** Bottoming tails seek a new low; topping tails seek a new high. */
  datatype TailKind = Bottoming | Topping

  function Abs(x: real): real { if x < 0.0 then -x else x }
  function Max(a: real, b: real): real { if a >= b then a else b }
  function Min(a: real, b: real): real { if a <= b then a else b }

  function Body(b: Bar): real { Abs(b.close - b.open) }
  function LowerWick(b: Bar): real { Max(Min(b.close, b.open) - b.low, 0.0) }
  function UpperWick(b: Bar): real { Max(b.high - Max(b.close, b.open), 0.0) }

  /** The close is in the top quarter of the bar's range. */
  predicate CloseNearHigh(b: Bar) { b.close >= b.high - (b.high - b.low) * 0.25 }
  /** The close is in the bottom quarter of the bar's range. */
  predicate CloseNearLow(b: Bar) { b.close <= b.low + (b.high - b.low) * 0.25 }

  /** Lower bound of the past window: `now - COMPARISON_DAYS`. */
  function ComparisonStart(now: real): real { now - ComparisonDays as real }
  /** Recency cutoff: `now - LOOKBACK_DAYS`. */
  function RecencyCutoff(now: real): real { now - LookbackDays as real }

  /** The bars of `s` dated strictly before `day` and not before `since`,
      in series order. */
  function PastWindow(s: seq<Bar>, day: int, since: real): (r: seq<Bar>)
    ensures |r| <= |s|
    ensures forall k :: 0 <= k < |r| ==> r[k].day < day && r[k].day as real >= since
    decreases |s|
  {
    if s == [] then []
    else
      var rest := PastWindow(s[..|s| - 1], day, since);
      var last := s[|s| - 1];
      if last.day < day && last.day as real >= since then rest + [last] else rest
  }

  /** The past window holds exactly the bars of the series that pass its
      date filter. */
  lemma {:induction false} PastWindowMembers(s: seq<Bar>, day: int, since: real)
    ensures forall p :: p in PastWindow(s, day, since) <==> p in s && p.day < day && p.day as real >= since
    decreases |s|
  {
    if s != [] {
      var init, last := s[..|s| - 1], s[|s| - 1];
      assert s == init + [last];
      PastWindowMembers(init, day, since);
    }
  }

  /** Minimum low of a non-empty window. */
  function MinLow(s: seq<Bar>): (r: real)
    requires s != []
    ensures forall k :: 0 <= k < |s| ==> r <= s[k].low
    ensures exists k :: 0 <= k < |s| && s[k].low == r
    decreases |s|
  {
    if |s| == 1 then s[0].low
    else
      var m := MinLow(s[1..]);
      assert forall k :: 1 <= k < |s| ==> s[k] == s[1..][k - 1];
      if s[0].low <= m then s[0].low else m
  }

  /** Maximum high of a non-empty window. */
  function MaxHigh(s: seq<Bar>): (r: real)
    requires s != []
    ensures forall k :: 0 <= k < |s| ==> s[k].high <= r
    ensures exists k :: 0 <= k < |s| && s[k].high == r
    decreases |s|
  {
    if |s| == 1 then s[0].high
    else
      var m := MaxHigh(s[1..]);
      assert forall k :: 1 <= k < |s| ==> s[k] == s[1..][k - 1];
      if s[0].high >= m then s[0].high else m
  }

  /** Volume confirmation: only a defined average can reject the bar. */
  predicate VolumeConfirmed(volume: real, avg: Option<real>) {
    !(avg.Some? && volume < VolumeMultiplier * avg.value)
  }

  /** The wick is more than `TAIL_RATIO_THRESHOLD` bodies long and the close
      sits in the quarter of the range the wick points away from. */
  predicate TailShape(b: Bar, kind: TailKind) {
    match kind
    case Bottoming => LowerWick(b) > TailRatioThreshold * Body(b) && CloseNearHigh(b)
    case Topping => UpperWick(b) > TailRatioThreshold * Body(b) && CloseNearLow(b)
  }

  /** The bar breaks the extreme of the past window. */
  predicate NewExtreme(b: Bar, past: seq<Bar>, kind: TailKind)
    requires past != []
  {
    match kind
    case Bottoming => b.low < MinLow(past)
    case Topping => b.high > MaxHigh(past)
  }

  predicate Recent(b: Bar, now: real) { b.day as real >= RecencyCutoff(now) }

  /** Whether bar `i` of `bars`, whose rolling average volume is `avg`,
      raises an alert of kind `kind` in a scan made at `now`. */
  predicate Fires(bars: seq<Bar>, i: nat, avg: Option<real>, now: real, kind: TailKind)
    requires i < |bars|
    ensures Fires(bars, i, avg, now, kind) ==>
      var past := PastWindow(bars, bars[i].day, ComparisonStart(now));
      (kind == Bottoming ==> forall k :: 0 <= k < |past| ==> bars[i].low < past[k].low)
      && (kind == Topping ==> forall k :: 0 <= k < |past| ==> bars[i].high > past[k].high)
  {
    var b := bars[i];
    var past := PastWindow(bars, b.day, ComparisonStart(now));
    past != []
    && Body(b) >= MinBodySize
    && VolumeConfirmed(b.volume, avg)
    && TailShape(b, kind)
    && NewExtreme(b, past, kind)
    && Recent(b, now)
  }

  /** Bar `j` belongs to the past window of bar `i`: it is dated strictly
      earlier and no earlier than 180 days before `now`. */
  predicate InPast(bars: seq<Bar>, i: nat, j: nat, now: real)
    requires i < |bars| && j < |bars|
  {
    bars[j].day < bars[i].day && bars[j].day as real >= now - 180.0
  }

  /** The bottoming rule written out with the constants' values, the window
      as an index mask and the minimum as a comparison with every bar in it. */
  lemma BottomingIff(bars: seq<Bar>, i: nat, avg: Option<real>, now: real)
    requires i < |bars|
    ensures Fires(bars, i, avg, now, Bottoming) <==>
      var b := bars[i];
      var body := if b.close >= b.open then b.close - b.open else b.open - b.close;
      var lowerBody := if b.close <= b.open then b.close else b.open;
      (exists j :: 0 <= j < |bars| && InPast(bars, i, j, now))
      && body >= 0.1
      && (avg.None? || b.volume >= 1.2 * avg.value)
      && (if lowerBody - b.low >= 0.0 then lowerBody - b.low else 0.0) > 2.0 * body
      && b.close >= b.high - 0.25 * (b.high - b.low)
      && (forall j :: 0 <= j < |bars| && InPast(bars, i, j, now) ==> b.low < bars[j].low)
      && b.day as real >= now - 10.0
  {
    var b := bars[i];
    var past := PastWindow(bars, b.day, ComparisonStart(now));
    WindowAsMask(bars, i, now);
    if past != [] {
      ExtremeAgainstAll(b, past, bars, i, now);
    }
  }

  /** The topping rule written out, mirroring BottomingIff. */
  lemma ToppingIff(bars: seq<Bar>, i: nat, avg: Option<real>, now: real)
    requires i < |bars|
    ensures Fires(bars, i, avg, now, Topping) <==>
      var b := bars[i];
      var body := if b.close >= b.open then b.close - b.open else b.open - b.close;
      var upperBody := if b.close >= b.open then b.close else b.open;
      (exists j :: 0 <= j < |bars| && InPast(bars, i, j, now))
      && body >= 0.1
      && (avg.None? || b.volume >= 1.2 * avg.value)
      && (if b.high - upperBody >= 0.0 then b.high - upperBody else 0.0) > 2.0 * body
      && b.close <= b.low + 0.25 * (b.high - b.low)
      && (forall j :: 0 <= j < |bars| && InPast(bars, i, j, now) ==> b.high > bars[j].high)
      && b.day as real >= now - 10.0
  {
    var b := bars[i];
    var past := PastWindow(bars, b.day, ComparisonStart(now));
    WindowAsMask(bars, i, now);
    if past != [] {
      ExtremeAgainstAll(b, past, bars, i, now);
    }
  }

  /** The past window, as a set of bars, is the index mask of the source. */
  lemma WindowAsMask(bars: seq<Bar>, i: nat, now: real)
    requires i < |bars|
    ensures var past := PastWindow(bars, bars[i].day, ComparisonStart(now));
      (past != [] <==> exists j :: 0 <= j < |bars| && InPast(bars, i, j, now))
      && (forall p :: p in past <==> exists j :: 0 <= j < |bars| && InPast(bars, i, j, now) && bars[j] == p)
  {
    var past := PastWindow(bars, bars[i].day, ComparisonStart(now));
    PastWindowMembers(bars, bars[i].day, ComparisonStart(now));
    if past != [] {
      assert past[0] in past;
    }
    forall p | p in past
      ensures exists j :: 0 <= j < |bars| && InPast(bars, i, j, now) && bars[j] == p
    {
      var j :| 0 <= j < |bars| && bars[j] == p;
      assert InPast(bars, i, j, now);
    }
    forall j | 0 <= j < |bars| && InPast(bars, i, j, now)
      ensures bars[j] in past
    {
      assert bars[j] in bars;
    }
  }

  lemma ExtremeAgainstAll(b: Bar, past: seq<Bar>, bars: seq<Bar>, i: nat, now: real)
    requires i < |bars| && b == bars[i]
    requires past == PastWindow(bars, b.day, ComparisonStart(now)) && past != []
    ensures b.low < MinLow(past) <==> forall j :: 0 <= j < |bars| && InPast(bars, i, j, now) ==> b.low < bars[j].low
    ensures b.high > MaxHigh(past) <==> forall j :: 0 <= j < |bars| && InPast(bars, i, j, now) ==> b.high > bars[j].high
  {
    WindowAsMask(bars, i, now);
    var kMin :| 0 <= kMin < |past| && past[kMin].low == MinLow(past);
    var kMax :| 0 <= kMax < |past| && past[kMax].high == MaxHigh(past);
    assert past[kMin] in past && past[kMax] in past;
    forall j | 0 <= j < |bars| && InPast(bars, i, j, now)
      ensures MinLow(past) <= bars[j].low && bars[j].high <= MaxHigh(past)
    {
      assert bars[j] in past;
      var k :| 0 <= k < |past| && past[k] == bars[j];
    }
  }

  /** On a strictly ordered series "dated earlier" is "earlier in the series",
      so the past window is a date-bounded run of the bars before bar `i`. */
  lemma PastIsEarlierBars(bars: seq<Bar>, i: nat, j: nat, now: real)
    requires StrictlyIncreasing(bars) && i < |bars| && j < |bars|
    ensures InPast(bars, i, j, now) <==> j < i && bars[j].day as real >= now - 180.0
  {
  }

  /** A bar whose open equals its close has no body and never fires. */
  lemma NoBodyNeverFires(bars: seq<Bar>, i: nat, avg: Option<real>, now: real, kind: TailKind)
    requires i < |bars| && bars[i].open == bars[i].close
    ensures !Fires(bars, i, avg, now, kind)
  {
  }

  /** Boundaries of the four comparisons. A body of exactly MIN_BODY_SIZE
      passes the body filter, and a volume of exactly VOLUME_MULTIPLIER times
      the average passes the volume filter as if there were no average. A wick
      of exactly TAIL_RATIO_THRESHOLD bodies, or a low (high) equal to that
      of some bar of the past window, rejects the bar. */
  lemma Boundaries(bars: seq<Bar>, i: nat, avg: Option<real>, now: real, kind: TailKind)
    requires i < |bars|
    ensures var b := bars[i];
      var past := PastWindow(bars, b.day, ComparisonStart(now));
      Body(b) == 0.1 ==>
        (Fires(bars, i, avg, now, kind) <==>
           past != [] && VolumeConfirmed(b.volume, avg) && TailShape(b, kind)
           && NewExtreme(b, past, kind) && Recent(b, now))
    ensures avg.Some? && bars[i].volume == 1.2 * avg.value ==>
      (Fires(bars, i, avg, now, kind) <==> Fires(bars, i, None, now, kind))
    ensures LowerWick(bars[i]) == 2.0 * Body(bars[i]) ==> !Fires(bars, i, avg, now, Bottoming)
    ensures UpperWick(bars[i]) == 2.0 * Body(bars[i]) ==> !Fires(bars, i, avg, now, Topping)
    ensures (exists j :: 0 <= j < |bars| && InPast(bars, i, j, now) && bars[j].low == bars[i].low) ==>
      !Fires(bars, i, avg, now, Bottoming)
    ensures (exists j :: 0 <= j < |bars| && InPast(bars, i, j, now) && bars[j].high == bars[i].high) ==>
      !Fires(bars, i, avg, now, Topping)
  {
    var b := bars[i];
    var past := PastWindow(bars, b.day, ComparisonStart(now));
    PastWindowMembers(bars, b.day, ComparisonStart(now));
    forall j | 0 <= j < |bars| && InPast(bars, i, j, now)
      ensures past != [] && MinLow(past) <= bars[j].low && bars[j].high <= MaxHigh(past)
    {
      assert bars[j] in bars;
      assert bars[j] in past;
      var k :| 0 <= k < |past| && past[k] == bars[j];
    }
  }

  // Mirror symmetry: reflecting every price about `k` swaps the roles of
  // highs and lows, so a bottoming tail becomes a topping tail.

  function MirrorBar(b: Bar, k: real): (m: Bar)
    ensures m.day == b.day && m.volume == b.volume
  {
    Bar(b.day, k - b.open, k - b.low, k - b.high, k - b.close, b.volume)
  }

  function MirrorSeries(s: seq<Bar>, k: real): (r: seq<Bar>)
    ensures |r| == |s|
    ensures forall j :: 0 <= j < |s| ==> r[j] == MirrorBar(s[j], k)
  {
    seq(|s|, j requires 0 <= j < |s| => MirrorBar(s[j], k))
  }

  lemma {:induction false} MirrorPastWindow(s: seq<Bar>, day: int, since: real, k: real)
    ensures PastWindow(MirrorSeries(s, k), day, since) == MirrorSeries(PastWindow(s, day, since), k)
    decreases |s|
  {
    if s != [] {
      var m := MirrorSeries(s, k);
      assert m[..|m| - 1] == MirrorSeries(s[..|s| - 1], k);
      MirrorPastWindow(s[..|s| - 1], day, since, k);
    }
  }

  lemma {:induction false} MirrorMaxHigh(s: seq<Bar>, k: real)
    requires s != []
    ensures MaxHigh(MirrorSeries(s, k)) == k - MinLow(s)
    decreases |s|
  {
    if |s| > 1 {
      assert MirrorSeries(s, k)[1..] == MirrorSeries(s[1..], k);
      MirrorMaxHigh(s[1..], k);
    }
  }

  /** Reflection keeps the body, turns the lower wick into the upper wick
      and the top quarter into the bottom quarter. */
  lemma MirrorShape(b: Bar, k: real)
    ensures Body(MirrorBar(b, k)) == Body(b)
    ensures UpperWick(MirrorBar(b, k)) == LowerWick(b)
    ensures CloseNearLow(MirrorBar(b, k)) <==> CloseNearHigh(b)
    ensures TailShape(MirrorBar(b, k), Topping) <==> TailShape(b, Bottoming)
  {
  }

  /** A bar fires as a topping tail in the mirrored series exactly when it
      fires as a bottoming tail in the original. */
  lemma MirrorFires(bars: seq<Bar>, i: nat, avg: Option<real>, now: real, k: real)
    requires i < |bars|
    ensures Fires(MirrorSeries(bars, k), i, avg, now, Topping) <==> Fires(bars, i, avg, now, Bottoming)
  {
    var b := bars[i];
    var mb := MirrorBar(b, k);
    var m := MirrorSeries(bars, k);
    assert m[i] == mb;
    var since := ComparisonStart(now);
    MirrorPastWindow(bars, b.day, since, k);
    var past := PastWindow(bars, b.day, since);
    var mpast := PastWindow(m, mb.day, since);
    assert mpast == MirrorSeries(past, k);
    assert mpast != [] <==> past != [];
    MirrorShape(b, k);
    if past != [] {
      MirrorMaxHigh(past, k);
      assert NewExtreme(mb, mpast, Topping) <==> NewExtreme(b, past, Bottoming);
    }
  }
}
