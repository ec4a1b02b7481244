# Candlestick tail scanner — a Dafny model

The scanner looks at daily and weekly OHLCV series of many securities.
It flags two reversal candles:

- a **bottoming tail**: a long lower wick, the close in the top quarter of
  the range, and a new low against recent history;
- a **topping tail**: the mirror image, with a new high.

For each flagged bar it suggests an entry, a stop-loss and a take-profit
price. This project models the four detectors `detect_bottoming_tails`,
`detect_topping_tails`, `detect_weekly_bottoming_tails` and
`detect_weekly_topping_tails`, plus the per-security loop of `main` that runs
them. It proves the detection rule, the price levels and the shape of the
alert list.

Layout, one module per component:

- `bars.dfy` (`Bars`): the bar record, the tunable constants
  (`TAIL_RATIO_THRESHOLD` = 2, `MIN_BODY_SIZE` = 0.1, `VOLUME_MULTIPLIER` = 1.2,
  `LOOKBACK_DAYS` = 10, `COMPARISON_DAYS` = 180) and the two granularity
  profiles. Daily uses a volume window of 5 and a warm-up of 10 bars. Weekly
  uses a window of 3 and a warm-up of `10 / 7` = 1 bar.
- `indicators.dfy` (`Indicators`): the trailing mean of volume (`AvgVolume`).
- `classifier.dfy` (`Classifier`): the per-bar rule `Fires`, unified over tail
  kind, and its properties.
- `annotator.dfy` (`Annotator`): the trade levels and the alert record.
- `scanner.dfy` (`Scanner`): the value of one detector run, `Detect`, and its
  properties.
- `detectors.dfy` (`Detectors`): the class `Frame`. It owns the price table
  that a detector annotates in place. It has the imperative detector loop and
  the four detector entry points.
- `driver.dfy` (`Driver`): the loop over securities.

Modelling decisions:

- Prices and volumes are exact `real`s. A bar's date is an integer day number.
- The scan time `now` is a `real` day number. `datetime.now()` has a time of
  day, so the cutoffs `now - 10` and `now - 180` are generally not whole days.
  Each detector call reads the clock for itself (main.py:111,158,205,253), so
  every security carries four readings of its own, one per detector call.
- The momentum indicator (RSI) is a caller-supplied function from the close
  column to a column of optional values. It is only carried into alerts and is
  never filtered on. Reading past the end of that column gives "absent".
- An alert is a record: kind, granularity, ticker, bar index, date, RSI, entry,
  stop-loss and take-profit. It is not a formatted string.
- The four source detectors share one rule, parameterised by tail kind and
  granularity. Each has its own entry point in `Frame`, proved equal to
  `Detect` with that detector's kind and profile.

Behaviours of the code worth knowing:

- **Past window.** The past window and the recency cutoff are both anchored at
  the scan time `now` (main.py:112-113,120,141). The window holds the bars
  dated before the current bar and no earlier than `now - COMPARISON_DAYS`.
- **Recency cutoff.** The variable `one_year_ago` is `now - LOOKBACK_DAYS`,
  that is 10 days. Only bars from the last ten days can raise an alert, on
  weekly series too.
- **Flat bar.** A bar with open = close = 100, high 101 and low 90 has a zero
  body, so the body filter (main.py:126) rejects it before the wick test.
  `NoBodyNeverFires` proves this, and `FlatBarLevels` gives the levels it
  would get (entry 94.4, stop 85.904, target 105.728).

## Model

| member | source | states |
|---|---|---|
| `Bars.WarmupValues` | main.py:118 | the daily scan starts at bar 10 and the weekly scan at bar `10 // 7` = 1 (main.py:212) |
| `Indicators.RollingMean` | main.py:115 | one entry per bar; absent exactly for the first `w - 1` bars; after that, the sum of the `w` volumes ending at the bar divided by `w` |
| `Indicators.RollingMeanExample` | main.py:115 | volumes 2, 4 and 9 with a window of 3 give the column absent, absent, 5 |
| `Indicators.RollingMeanSlides` | main.py:115 | two consecutive defined means differ by (newest volume − dropped volume) / `w`, the running-sum form of a rolling mean |
| `Indicators.RollingMeanBounded` | main.py:209 | a defined mean lies between any lower and upper bound of the volumes in its window |
| `Indicators.RollingMeanVolumesOnly` | main.py:162 | the average-volume column depends on the volume column alone |
| `Classifier.PastWindow` | main.py:120 | the window keeps at most the series' bars, each dated strictly before the current bar and not before `now - 180` |
| `Classifier.PastWindowMembers` | main.py:120 | a bar is in the past window iff it is in the series, dated strictly before the current bar and not before `now - 180` |
| `Classifier.MinLow` | main.py:140 | the minimum low of a non-empty window is at most every low in it and equal to one of them |
| `Classifier.MaxHigh` | main.py:187 | the maximum high of a non-empty window is at least every high in it and equal to one of them |
| `Classifier.WindowAsMask` | main.py:120-122 | the window is non-empty iff some bar passes the date mask, and its members are exactly the bars that pass it |
| `Classifier.Fires` | main.py:119-141 | the per-bar rule of all four detectors; a bar that fires is strictly below every low (bottoming) or above every high (topping) of its past window |
| `Classifier.BottomingIff` | main.py:119-141 | a bar fires as a bottoming tail iff: the window is non-empty; body ≥ 0.1; the average is absent or volume ≥ 1.2 × average; lower wick > 2 × body; close ≥ high − 0.25 × range; low below every low in the window; date ≥ `now - 10` |
| `Classifier.ToppingIff` | main.py:166-188 | the topping rule with the same shared filters: upper wick > 2 × body, close ≤ low + 0.25 × range, high above every high in the window |
| `Classifier.Boundaries` | main.py:126-140 | stated of `Fires`: at body = 0.1 the body filter drops out of the rule; at volume = 1.2 × average the bar fires exactly as with no average; a wick of exactly 2 × body, or a low (high) equal to that of a bar of the past window, never fires |
| `Classifier.PastIsEarlierBars` | main.py:120 | on a strictly ordered series the window's bars are the earlier bars dated no earlier than `now - 180` |
| `Classifier.NoBodyNeverFires` | main.py:125-127 | a bar whose open equals its close never fires, whatever its wicks |
| `Classifier.MirrorShape` | main.py:133-135 | reflecting prices about `k` keeps the body, turns the lower wick into the upper wick and the top quarter into the bottom quarter (source mirror at main.py:180-182) |
| `Classifier.MirrorFires` | main.py:119-141 | a bar fires as a topping tail in the reflected series iff it fires as a bottoming tail in the original |
| `Annotator.TradeLevels` | main.py:143-146 | the entry lies in [low, high] and is 0.4 of the range in from the rejected extreme; for a positive entry, bottoming has stop < entry < target and topping has target < entry < stop (main.py:190-193) |
| `Annotator.MirrorEntry` | main.py:191 | the topping entry of a reflected bar is the reflection of the bottoming entry |
| `Annotator.FlatBarLevels` | main.py:144-146 | a bar with low 90 and high 101 gets entry 94.4, stop 85.904 and target 105.728 |
| `Annotator.MakeAlert` | main.py:148-152 | an alert carries the detector's kind, granularity and ticker, the bar's index, date and RSI, and an entry within the bar's range |
| `Scanner.AlertsBetween` | main.py:118-152 | no alerts for an empty index range; at most `hi - lo` alerts otherwise |
| `Scanner.AlertsBetweenSound` | main.py:137-152 | every alert is for an index in range whose bar fires, and equals the alert built from that bar |
| `Scanner.AlertsBetweenComplete` | main.py:118-152 | every index in range whose bar fires has an alert |
| `Scanner.AlertsBetweenIncreasing` | main.py:118 | alert bar indices strictly increase: chronological order, at most one alert per bar |
| `Scanner.Annotate` | main.py:115-116 | the attached table keeps the bars and has one average-volume entry per bar |
| `Scanner.Detect` | main.py:109-154 | one detector run: no alerts for a series no longer than the warm-up offset (`range(offset, len)` is empty), else at most bars − warm-up alerts |
| `Scanner.DetectSpec` | main.py:118-154 | a detector returns an alert for bar `i` iff `i` ≥ warm-up and the bar fires against its rolling mean; each alert is built from its bar; indices ascend; count ≤ bars − warm-up |
| `Scanner.DetectAlertsOfScan` | main.py:148-151 | every alert of a run names that run's kind, granularity and ticker, and a bar of the series |
| `Scanner.DetectLevelsOrdered` | main.py:143-146 | on well-formed positive bars every alert's entry lies within its bar and the stop and target sit on the proper sides of it |
| `Scanner.DetectBottomingIff` | main.py:109-154 | end to end, daily or weekly: a bottoming alert for bar `i` iff `i` ≥ warm-up and every condition of `BottomingIff` holds, with the average absent for `i < w - 1` and otherwise the mean of the last `w` volumes |
| `Scanner.DetectToppingIff` | main.py:156-201 | the same end-to-end statement for topping tails |
| `Scanner.MirrorAlertsBetween` | main.py:118-152 | over any index range, topping alerts of the reflected table and bottoming alerts of the original match one to one, with equal bar indices and reflected entries |
| `Scanner.MirrorDetect` | main.py:109-201 | a topping scan of the reflected series flags the same bars as a bottoming scan of the original, with reflected entries |
| `Detectors.Frame.AttachIndicators` | main.py:115-116 | the OHLCV rows are unchanged; the average-volume and RSI columns are replaced by the rolling mean and the indicator's output |
| `Detectors.Frame.ScanAttached` | main.py:118-152 | the loop with its early exits returns exactly the alerts of the bars from the warm-up offset to the end |
| `Detectors.Frame.DetectTails` | main.py:109-154 | attaches the columns, leaves the rows unchanged, and returns `Detect` for the given kind and profile |
| `Detectors.Frame.DetectBottomingTails` | main.py:109-154 | daily bottoming detector: window 5, warm-up 10 |
| `Detectors.Frame.DetectToppingTails` | main.py:156-201 | daily topping detector: window 5, warm-up 10 |
| `Detectors.Frame.DetectWeeklyBottomingTails` | main.py:203-248 | weekly bottoming detector: window 3, warm-up 1 |
| `Detectors.Frame.DetectWeeklyToppingTails` | main.py:251-296 | weekly topping detector: window 3, warm-up 1 |
| `Detectors.Rescan` | main.py:115-116 | running a detector twice on the same table returns the same list and leaves the rows unchanged |
| `Driver.TickerAlerts` | main.py:315-317 | a security whose daily series has fewer than 11 bars contributes nothing, its weekly series included |
| `Driver.TickerAlertsNameTheirTicker` | main.py:319-332 | every alert of a security names that security |
| `Driver.AllAlerts` | main.py:303-336 | the alerts of all securities, grouped by security in the given order; none when every daily series is too short |
| `Driver.AllAlertsNameScannedTickers` | main.py:305-332 | every alert of the scan names one of the scanned securities |
| `Driver.ScanTicker` | main.py:307-332 | one security's turn returns its daily topping, daily bottoming, weekly topping and weekly bottoming alerts, in that order, each run with its own clock reading, or nothing when the daily series is short |
| `Driver.ScanUniverse` | main.py:303-336 | the loop over securities returns the concatenation of each security's alerts in the given order |

## Left out

- Market data download (`yf.download`), `dropna` and the flattening of column levels: network I/O and table plumbing. The model takes each security's daily and weekly series as given, clean and without gaps.
- Telegram delivery and the check for credentials in the environment: HTTP and process environment.
- The ticker lists and their de-duplication through a `set`: constant data, and the set's order is unspecified. The model takes the securities as a sequence in any order.
- The RSI computation (`RSIIndicator`): a foreign library. It is a function parameter whose output is carried into alerts and never filtered on.
- The wall clock (`datetime.now()`): each detector call's reading is an input, carried per security in `Driver.Readings`. The model does not constrain how the readings relate to each other (for instance that they increase). Timezone handling of the date index is not modelled.
- Alert text: the `:.2f` rounding, `.date()`, the emoji prefixes and the wording. Alerts are records with exact values.
- Binary floating-point error: all arithmetic is exact real arithmetic.
- Logging with `print` and the per-security `except Exception` isolation: I/O and error plumbing.
- MirrorDetect: relates only bar indices and entries. The stop and target are percentages of the entry, so reflecting prices does not carry them over.
