/** The per-security driver: for each security in the given order, run the
    daily detectors (topping, then bottoming) and the weekly detectors
    (topping, then bottoming), skipping a security whose daily series is
    too short, and concatenate the alerts. */
module Driver {
  import opened Bars
  import opened Classifier
  import opened Annotator
  import opened Scanner
  import opened Detectors

  /** The wall-clock readings taken during one security's turn: each of the
      four detector calls reads the clock for itself. */
  datatype Readings = Readings(dailyTopping: real, dailyBottoming: real,
                               weeklyTopping: real, weeklyBottoming: real)

  /** The series obtained for one security, with the clock readings its
      detector calls see. */
  datatype Download = Download(ticker: string, daily: seq<Bar>, weekly: seq<Bar>, clock: Readings)

  /** A security whose daily series has fewer than LOOKBACK_DAYS + 1 bars is
      skipped, its weekly series included. */
  predicate TooShort(d: Download) { |d.daily| < LookbackDays + 1 }

  /** The alerts of one security, in the order the detectors run. */
  function TickerAlerts(d: Download, rsiOf: seq<real> -> seq<Option<real>>): (r: seq<Alert>)
    ensures TooShort(d) ==> r == []
  {
    if TooShort(d) then []
    else
      Detect(d.daily, rsiOf, Scan(Topping, Daily, d.ticker, d.clock.dailyTopping))
      + Detect(d.daily, rsiOf, Scan(Bottoming, Daily, d.ticker, d.clock.dailyBottoming))
      + Detect(d.weekly, rsiOf, Scan(Topping, Weekly, d.ticker, d.clock.weeklyTopping))
      + Detect(d.weekly, rsiOf, Scan(Bottoming, Weekly, d.ticker, d.clock.weeklyBottoming))
  }

  /** The alerts of every security, grouped by security in the given order. */
  function AllAlerts(ds: seq<Download>, rsiOf: seq<real> -> seq<Option<real>>): (r: seq<Alert>)
    ensures (forall j :: 0 <= j < |ds| ==> TooShort(ds[j])) ==> r == []
    decreases |ds|
  {
    if ds == [] then []
    else AllAlerts(ds[..|ds| - 1], rsiOf) + TickerAlerts(ds[|ds| - 1], rsiOf)
  }

  /** Every alert of a security names that security. */
  lemma TickerAlertsNameTheirTicker(d: Download, rsiOf: seq<real> -> seq<Option<real>>)
    ensures forall a :: a in TickerAlerts(d, rsiOf) ==> a.ticker == d.ticker
  {
    if !TooShort(d) {
      DetectAlertsOfScan(d.daily, rsiOf, Scan(Topping, Daily, d.ticker, d.clock.dailyTopping));
      DetectAlertsOfScan(d.daily, rsiOf, Scan(Bottoming, Daily, d.ticker, d.clock.dailyBottoming));
      DetectAlertsOfScan(d.weekly, rsiOf, Scan(Topping, Weekly, d.ticker, d.clock.weeklyTopping));
      DetectAlertsOfScan(d.weekly, rsiOf, Scan(Bottoming, Weekly, d.ticker, d.clock.weeklyBottoming));
    }
  }

  /** Every alert of the scan names one of the scanned securities. */
  lemma {:induction false} AllAlertsNameScannedTickers(ds: seq<Download>,
                                                        rsiOf: seq<real> -> seq<Option<real>>)
    ensures forall a :: a in AllAlerts(ds, rsiOf) ==> exists j :: 0 <= j < |ds| && ds[j].ticker == a.ticker
    decreases |ds|
  {
    if ds != [] {
      var init := ds[..|ds| - 1];
      AllAlertsNameScannedTickers(init, rsiOf);
      TickerAlertsNameTheirTicker(ds[|ds| - 1], rsiOf);
      forall a | a in AllAlerts(ds, rsiOf)
        ensures exists j :: 0 <= j < |ds| && ds[j].ticker == a.ticker
      {
        if a in AllAlerts(init, rsiOf) {
          var j :| 0 <= j < |init| && init[j].ticker == a.ticker;
          assert ds[j] == init[j];
        } else {
          assert ds[|ds| - 1].ticker == a.ticker;
        }
      }
    }
  }

  /** One security's turn in the scan; each one gets freshly built tables. */
  method ScanTicker(d: Download, rsiOf: seq<real> -> seq<Option<real>>) returns (alerts: seq<Alert>)
    ensures alerts == TickerAlerts(d, rsiOf)
  {
    var data := new Frame(d.daily);
    if |data.bars| < LookbackDays + 1 {
      return [];
    }
    var topping := data.DetectToppingTails(d.ticker, d.clock.dailyTopping, rsiOf);
    var bottoming := data.DetectBottomingTails(d.ticker, d.clock.dailyBottoming, rsiOf);
    alerts := topping + bottoming;
    var weekly := new Frame(d.weekly);
    var weeklyTopping := weekly.DetectWeeklyToppingTails(d.ticker, d.clock.weeklyTopping, rsiOf);
    var weeklyBottoming := weekly.DetectWeeklyBottomingTails(d.ticker, d.clock.weeklyBottoming, rsiOf);
    alerts := alerts + (weeklyTopping + weeklyBottoming);
  }

  /** The scan over all securities, in the given order. */
  method ScanUniverse(ds: seq<Download>, rsiOf: seq<real> -> seq<Option<real>>)
    returns (all: seq<Alert>)
    ensures all == AllAlerts(ds, rsiOf)
  {
    all := [];
    var n := 0;
    while n < |ds|
      invariant n <= |ds|
      invariant all == AllAlerts(ds[..n], rsiOf)
    {
      assert ds[..n + 1][..n] == ds[..n];
      var alerts := ScanTicker(ds[n], rsiOf);
      all := all + alerts;
      n := n + 1;
    }
    assert ds[..|ds|] == ds;
  }
}
