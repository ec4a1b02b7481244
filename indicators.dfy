/** The derived volume column: a trailing simple moving average of volume,
    undefined until a full window of bars is available. */
module Indicators {
  import opened Bars

  /** Sum of the volumes of a run of bars. */
  function VolumeSum(s: seq<Bar>): real {
    if s == [] then 0.0 else VolumeSum(s[..|s| - 1]) + s[|s| - 1].volume
  }

  /** The trailing mean of window `w` at bar `i`, or None while fewer than
      `w` bars end at `i`. */
  function MeanAt(bars: seq<Bar>, w: nat, i: nat): Option<real>
    requires w > 0 && i < |bars|
  {
    if i + 1 < w then None else Some(VolumeSum(bars[i + 1 - w .. i + 1]) / (w as real))
  }

  /** The rolling-mean column: one entry per bar, absent for the first
      `w - 1` bars, and the mean of the `w` volumes ending at the bar after. */
  function RollingMean(bars: seq<Bar>, w: nat): (r: seq<Option<real>>)
    requires w > 0
    ensures |r| == |bars|
    ensures forall i :: 0 <= i < |bars| ==> (r[i].None? <==> i < w - 1)
    ensures forall i :: w - 1 <= i < |bars| ==>
      r[i] == Some(VolumeSum(bars[i + 1 - w .. i + 1]) / (w as real))
  {
    seq(|bars|, i requires 0 <= i < |bars| => MeanAt(bars, w, i))
  }

  /** A worked example: volumes 2, 4 and 9 with a window of 3. */
  lemma RollingMeanExample(d0: int, d1: int, d2: int)
    ensures RollingMean([Bar(d0, 1.0, 1.0, 1.0, 1.0, 2.0), Bar(d1, 1.0, 1.0, 1.0, 1.0, 4.0),
                         Bar(d2, 1.0, 1.0, 1.0, 1.0, 9.0)], 3) == [None, None, Some(5.0)]
  {
    var bars := [Bar(d0, 1.0, 1.0, 1.0, 1.0, 2.0), Bar(d1, 1.0, 1.0, 1.0, 1.0, 4.0),
                 Bar(d2, 1.0, 1.0, 1.0, 1.0, 9.0)];
    assert bars[0..3] == bars;
    assert bars[..2] == bars[..3][..2];
    assert VolumeSum(bars[..1]) == 2.0 by {
      assert bars[..1][..0] == [];
    }
    assert VolumeSum(bars[..2]) == 6.0 by {
      assert bars[..2][..1] == bars[..1];
    }
    assert VolumeSum(bars) == 15.0 by {
      assert bars[..|bars| - 1] == bars[..2];
    }
  }

  lemma {:induction false} VolumeSumAppend(a: seq<Bar>, b: seq<Bar>)
    ensures VolumeSum(a + b) == VolumeSum(a) + VolumeSum(b)
    decreases |b|
  {
    if b == [] {
      assert a + b == a;
    } else {
      var b' := b[..|b| - 1];
      assert (a + b)[..|a + b| - 1] == a + b';
      VolumeSumAppend(a, b');
    }
  }

  /** A run whose volumes all lie in [lo, hi] sums to between |s|*lo and |s|*hi. */
  lemma {:induction false} VolumeSumBounds(s: seq<Bar>, lo: real, hi: real)
    requires forall k :: 0 <= k < |s| ==> lo <= s[k].volume <= hi
    ensures (|s| as real) * lo <= VolumeSum(s) <= (|s| as real) * hi
    decreases |s|
  {
    if s != [] {
      var s' := s[..|s| - 1];
      VolumeSumBounds(s', lo, hi);
      assert (|s| as real) * lo == (|s'| as real) * lo + lo;
      assert (|s| as real) * hi == (|s'| as real) * hi + hi;
    }
  }

  /** Two runs with the same volumes have the same volume sum. */
  lemma {:induction false} VolumeSumVolumesOnly(a: seq<Bar>, b: seq<Bar>)
    requires |a| == |b|
    requires forall k :: 0 <= k < |a| ==> a[k].volume == b[k].volume
    ensures VolumeSum(a) == VolumeSum(b)
    decreases |a|
  {
    if a != [] {
      VolumeSumVolumesOnly(a[..|a| - 1], b[..|b| - 1]);
    }
  }

  /** Moving a window of `w` volumes one bar on drops the oldest volume and
      adds the newest. */
  lemma WindowSumSlides(bars: seq<Bar>, w: nat, i: nat)
    requires w > 0 && w <= i < |bars|
    ensures VolumeSum(bars[i + 1 - w .. i + 1]) == VolumeSum(bars[i - w .. i]) - bars[i - w].volume + bars[i].volume
  {
    var mid := bars[i + 1 - w .. i];
    assert bars[i - w .. i] == [bars[i - w]] + mid;
    assert bars[i + 1 - w .. i + 1] == mid + [bars[i]];
    VolumeSumAppend([bars[i - w]], mid);
    VolumeSumAppend(mid, [bars[i]]);
    assert VolumeSum([bars[i]]) == bars[i].volume by {
      assert [bars[i]][..0] == [];
    }
    assert VolumeSum([bars[i - w]]) == bars[i - w].volume by {
      assert [bars[i - w]][..0] == [];
    }
  }

  /** The running-sum relation between two consecutive defined means. */
  lemma RollingMeanSlides(bars: seq<Bar>, w: nat, i: nat)
    requires w > 0 && w <= i < |bars|
    ensures RollingMean(bars, w)[i].Some? && RollingMean(bars, w)[i - 1].Some?
    ensures RollingMean(bars, w)[i].value ==
      RollingMean(bars, w)[i - 1].value + (bars[i].volume - bars[i - w].volume) / (w as real)
  {
    var n := w as real;
    var sOld, sNew := VolumeSum(bars[i - w .. i]), VolumeSum(bars[i + 1 - w .. i + 1]);
    WindowSumSlides(bars, w, i);
    assert sNew / n == sOld / n + (bars[i].volume - bars[i - w].volume) / n;
    var r := RollingMean(bars, w);
    assert r[i] == Some(sNew / n);
    assert r[i - 1] == Some(sOld / n);
  }

  /** A defined mean lies between the smallest and largest volume of its window. */
  lemma RollingMeanBounded(bars: seq<Bar>, w: nat, i: nat, lo: real, hi: real)
    requires w > 0 && w - 1 <= i < |bars|
    requires forall k :: i + 1 - w <= k <= i ==> lo <= bars[k].volume <= hi
    ensures RollingMean(bars, w)[i].Some?
    ensures lo <= RollingMean(bars, w)[i].value <= hi
  {
    var win := bars[i + 1 - w .. i + 1];
    assert forall k :: 0 <= k < |win| ==> win[k] == bars[i + 1 - w + k];
    VolumeSumBounds(win, lo, hi);
    var m := VolumeSum(win) / (w as real);
    assert VolumeSum(win) == m * (w as real);
    assert (w as real) * lo <= m * (w as real) <= (w as real) * hi;
    DivideBounds(w as real, lo, m, hi);
  }

  lemma DivideBounds(n: real, lo: real, m: real, hi: real)
    requires n > 0.0
    requires n * lo <= m * n <= n * hi
    ensures lo <= m <= hi
  {
  }

  /** The rolling mean reads only the volume column. */
  lemma RollingMeanVolumesOnly(a: seq<Bar>, b: seq<Bar>, w: nat)
    requires w > 0 && |a| == |b|
    requires forall k :: 0 <= k < |a| ==> a[k].volume == b[k].volume
    ensures RollingMean(a, w) == RollingMean(b, w)
  {
    forall i | w - 1 <= i < |a|
      ensures RollingMean(a, w)[i] == RollingMean(b, w)[i]
    {
      VolumeSumVolumesOnly(a[i + 1 - w .. i + 1], b[i + 1 - w .. i + 1]);
    }
  }
}
