/** executive_dashboard.php: the figures computed from the dashboard's
    query results. Percentages guarded against an empty customer base, the
    acquisition-cost table with its fixed fallback, revenue per cluster, the
    four threshold alerts and the metric status flags. */
module ExecutiveDashboard {
  import opened PhpLib

  function OrZero(x: Option<real>): real
  {
    if x.Some? then x.value else 0.0
  }

  // ---------------------------------------------------------------------------
  // Rates (lines 29-39, 82-85)
  // ---------------------------------------------------------------------------

  /** `($total > 0) ? ($count / $total * 100) : 0`. */
  function Rate(count: real, total: nat): (r: real)
    ensures total == 0 ==> r == 0.0
    ensures total > 0 ==> r * (total as real) == count * 100.0
  {
    if total > 0 then count / (total as real) * 100.0 else 0.0
  }

  /** A count that is part of the customer base gives a percentage between
      0 and 100, and a larger count never gives a smaller one. */
  lemma RateBounds(count: real, other: real, total: nat)
    requires 0.0 <= count <= total as real
    requires count <= other
    ensures 0.0 <= Rate(count, total) <= 100.0
    ensures Rate(count, total) <= Rate(other, total)
  {
    if total > 0 {
      var t := total as real;
      assert count / t <= 1.0 by {
        assert count / t * t == count;
      }
      var d := (other - count) / t;
      assert d * t == other - count;
      assert d >= 0.0;
      assert other / t == count / t + d;
    }
  }

  /** The number of units of 1 / scale that round($x, ...) keeps: the whole
      number nearest x * scale, a tie going away from zero. */
  function Units(x: real, scale: real): (k: int)
    requires scale > 0.0
    ensures x * scale - 0.5 <= k as real <= x * scale + 0.5
    ensures x >= 0.0 ==> k >= 0 && x * scale - k as real < 0.5
    ensures x < 0.0 ==> k <= 0 && k as real - x * scale < 0.5
  {
    if x >= 0.0 then (x * scale + 0.5).Floor else -((-x * scale + 0.5).Floor)
  }

  /** round($x, 2) and round($x, 1): a whole number of units of 1 / scale,
      within half a unit of x, a tie going away from zero. */
  function Round(x: real, scale: real): (r: real)
    requires scale > 0.0
    ensures r * scale == Units(x, scale) as real
    ensures x - 0.5 / scale <= r <= x + 0.5 / scale
    ensures x >= 0.0 ==> r >= 0.0 && (x - r) * scale < 0.5
    ensures x < 0.0 ==> r <= 0.0 && (r - x) * scale < 0.5
  {
    var k := Units(x, scale);
    ScaleBack(x, scale, k);
    k as real / scale
  }

  /** Dividing a whole number within half of x * scale by the scale gives a
      value within half of 1 / scale of x, on the same side. */
  lemma ScaleBack(x: real, scale: real, k: int)
    requires scale > 0.0
    requires x * scale - 0.5 <= k as real <= x * scale + 0.5
    ensures (k as real / scale) * scale == k as real
    ensures x - 0.5 / scale <= k as real / scale <= x + 0.5 / scale
    ensures (x - k as real / scale) * scale == x * scale - k as real
    ensures (k as real / scale - x) * scale == k as real - x * scale
    ensures k >= 0 ==> k as real / scale >= 0.0
    ensures k <= 0 ==> k as real / scale <= 0.0
  {
    var q := k as real / scale;
    var h := 0.5 / scale;
    assert q * scale == k as real;
    assert h * scale == 0.5;
    assert (q - x) * scale == k as real - x * scale;
    MulLeq(q - x, h, scale);
    MulLeq(x - q, h, scale);
    if k >= 0 {
      MulLeq(0.0, q, scale);
    } else {
      MulLeq(q, 0.0, scale);
    }
  }

  lemma MulLeq(a: real, b: real, scale: real)
    requires scale > 0.0 && a * scale <= b * scale
    ensures a <= b
  {
    assert (b - a) * scale >= 0.0;
  }

  // ---------------------------------------------------------------------------
  // Acquisition cost by segment (lines 42-62)
  // ---------------------------------------------------------------------------

  /** One cluster_metadata row of the CAC query. */
  datatype CacRow = CacRow(segment: Option<string>, customers: Option<int>, cac: Option<real>)

  datatype CacEntry = CacEntry(cac: real, customers: Option<int>)

  /** The array key a row is stored under: a null segment name becomes "". */
  function CacKey(row: CacRow): string
  {
    if row.segment.Some? then row.segment.value else ""
  }

  function CacEntryOf(row: CacRow): CacEntry
  {
    CacEntry(Round(OrZero(row.cac), 100.0), row.customers)
  }

  /** The keys the rows are stored under, in row order. */
  function CacKeys(rows: seq<CacRow>): seq<string>
  {
    seq(|rows|, i requires 0 <= i < |rows| => CacKey(rows[i]))
  }

  /** The entry of the last row stored under key: later rows overwrite. */
  function LastEntry(rows: seq<CacRow>, key: string): Option<CacEntry>
  {
    if rows == [] then None
    else if CacKey(rows[|rows| - 1]) == key then Some(CacEntryOf(rows[|rows| - 1]))
    else LastEntry(rows[..|rows| - 1], key)
  }

  /** The table used when the query yields nothing. */
  const FallbackCac: OrderedMap<CacEntry> := OrderedMap(
    ["Premium", "Standard", "Basic", "Emerging"],
    map["Premium" := CacEntry(85.0, Some(150)), "Standard" := CacEntry(65.0, Some(320)),
        "Basic" := CacEntry(45.0, Some(580)), "Emerging" := CacEntry(28.0, Some(950))])

  /** One turn of the CAC loop: writing row i keeps the keys in
      first-appearance order and each value the latest row's entry. */
  lemma CacStep(rows: seq<CacRow>, i: nat, cac: OrderedMap<CacEntry>)
    requires i < |rows|
    requires cac.Valid()
    requires cac.keys == FirstSeen(CacKeys(rows)[..i])
    requires forall k :: k in cac.values ==> LastEntry(rows[..i], k) == Some(cac.values[k])
    ensures var next := cac.Put(CacKey(rows[i]), CacEntryOf(rows[i]));
      && next.keys == FirstSeen(CacKeys(rows)[..i + 1])
      && forall k :: k in next.values ==> LastEntry(rows[..i + 1], k) == Some(next.values[k])
  {
    var xs := CacKeys(rows)[..i + 1];
    assert xs[..i] == CacKeys(rows)[..i] && xs[i] == CacKey(rows[i]);
    var next := cac.Put(CacKey(rows[i]), CacEntryOf(rows[i]));
    forall k | k in next.values ensures LastEntry(rows[..i + 1], k) == Some(next.values[k]) {
      LastEntryStep(rows, i, k);
    }
  }

  lemma LastEntryStep(rows: seq<CacRow>, i: nat, k: string)
    requires i < |rows|
    ensures LastEntry(rows[..i + 1], k) ==
      if CacKey(rows[i]) == k then Some(CacEntryOf(rows[i])) else LastEntry(rows[..i], k)
  {
    assert rows[..i + 1][..i] == rows[..i];
  }

  /** `$cac_data`: one entry per distinct segment in first-appearance order,
      holding the last row's rounded cost and customer count; the fixed
      four-segment table exactly when there are no rows. */
  method BuildCacData(rows: seq<CacRow>) returns (cac: OrderedMap<CacEntry>)
    ensures rows == [] ==> cac == FallbackCac
    ensures rows != [] ==> cac.Valid() && |cac.keys| >= 1
    ensures rows != [] ==> cac.keys == FirstSeen(CacKeys(rows))
    ensures rows != [] ==> forall k :: k in cac.values ==> LastEntry(rows, k) == Some(cac.values[k])
  {
    cac := EmptyMap();
    for i := 0 to |rows|
      invariant cac.Valid()
      invariant cac.keys == FirstSeen(CacKeys(rows)[..i])
      invariant forall k :: k in cac.values ==> LastEntry(rows[..i], k) == Some(cac.values[k])
    {
      CacStep(rows, i, cac);
      cac := cac.Put(CacKey(rows[i]), CacEntryOf(rows[i]));
    }
    assert CacKeys(rows)[..|rows|] == CacKeys(rows);
    assert rows[..|rows|] == rows;
    if rows != [] {
      FirstSeenSpec(CacKeys(rows));
      assert CacKeys(rows)[0] in FirstSeen(CacKeys(rows));
    }
    if |cac.keys| == 0 {
      cac := FallbackCac;
    }
  }

  // ---------------------------------------------------------------------------
  // Revenue by cluster (lines 88-106)
  // ---------------------------------------------------------------------------

  datatype ClusterRow = ClusterRow(clusterName: Option<string>, customerCount: Option<real>, avgPurchaseAmount: Option<real>)

  datatype RevenueEntry = RevenueEntry(clusterName: Option<string>, customerCount: real, avgPurchaseAmount: real, totalRevenue: real)

  /** `$revenue_by_cluster`: one entry per row in query order, missing
      figures read as 0 and the revenue their product. */
  method RevenueByCluster(rows: seq<ClusterRow>) returns (entries: seq<RevenueEntry>)
    ensures |entries| == |rows|
    ensures forall i :: 0 <= i < |rows| ==>
      && entries[i].clusterName == rows[i].clusterName
      && entries[i].customerCount == OrZero(rows[i].customerCount)
      && entries[i].avgPurchaseAmount == OrZero(rows[i].avgPurchaseAmount)
      && entries[i].totalRevenue == entries[i].customerCount * entries[i].avgPurchaseAmount
  {
    entries := [];
    for i := 0 to |rows|
      invariant |entries| == i
      invariant forall j :: 0 <= j < i ==>
        && entries[j].clusterName == rows[j].clusterName
        && entries[j].customerCount == OrZero(rows[j].customerCount)
        && entries[j].avgPurchaseAmount == OrZero(rows[j].avgPurchaseAmount)
        && entries[j].totalRevenue == entries[j].customerCount * entries[j].avgPurchaseAmount
    {
      var row := rows[i];
      var count := if row.customerCount.Some? then row.customerCount.value else 0.0;
      var avg := if row.avgPurchaseAmount.Some? then row.avgPurchaseAmount.value else 0.0;
      entries := entries + [RevenueEntry(row.clusterName, count, avg, count * avg)];
    }
  }

  /** A cluster with no count or no average contributes no revenue, and
      non-negative figures never give a negative revenue. */
  lemma RevenueEntrySigns(row: ClusterRow, e: RevenueEntry)
    requires e.customerCount == OrZero(row.customerCount)
    requires e.avgPurchaseAmount == OrZero(row.avgPurchaseAmount)
    requires e.totalRevenue == e.customerCount * e.avgPurchaseAmount
    ensures row.customerCount.None? || row.avgPurchaseAmount.None? ==> e.totalRevenue == 0.0
    ensures OrZero(row.customerCount) >= 0.0 && OrZero(row.avgPurchaseAmount) >= 0.0 ==> e.totalRevenue >= 0.0
  {
  }

  // ---------------------------------------------------------------------------
  // Alerts (lines 115-159)
  // ---------------------------------------------------------------------------

  /** The query results the dashboard's figures are computed from. */
  datatype Snapshot = Snapshot(
    totalCustomers: nat,
    currentRevenue: real,
    churned: Option<real>,
    stable: real,
    critical: Option<real>,
    lowValue: Option<real>,
    avgClv: real)

  function ChurnRate(s: Snapshot): real
  {
    Rate(OrZero(s.churned), s.totalCustomers)
  }

  function SegmentStability(s: Snapshot): real
  {
    Rate(s.stable, s.totalCustomers)
  }

  /** `$upsell_probability`: the customers below the average purchase, as a
      percentage of all customers (`low_value ?? 0`). */
  function UpsellProbability(s: Snapshot): real
  {
    Rate(OrZero(s.lowValue), s.totalCustomers)
  }

  /** The low-value customers are some of the customers, so the upsell
      probability is a percentage: 0 with no customers, never above 100, and
      the bar's `min($upsell_probability, 100)` is the value itself. */
  lemma UpsellProbabilityBounds(s: Snapshot)
    requires 0.0 <= OrZero(s.lowValue) <= s.totalCustomers as real
    ensures 0.0 <= UpsellProbability(s) <= 100.0
    ensures s.totalCustomers == 0 ==> UpsellProbability(s) == 0.0
    ensures s.totalCustomers > 0 && OrZero(s.lowValue) == s.totalCustomers as real ==> UpsellProbability(s) == 100.0
  {
    RateBounds(OrZero(s.lowValue), OrZero(s.lowValue), s.totalCustomers);
  }

  function AvgRevenuePerCustomer(s: Snapshot): real
  {
    if s.totalCustomers > 0 then s.currentRevenue / (s.totalCustomers as real) else 0.0
  }

  datatype AlertKind = ChurnRisk | RevenueAnomaly | ChurnRateAlert | RevenueTarget
  datatype Severity = Critical | High | Medium
  datatype Alert = Alert(kind: AlertKind, severity: Severity)

  function SeverityOf(k: AlertKind): Severity
  {
    match k
    case ChurnRisk => Critical
    case RevenueAnomaly => High
    case ChurnRateAlert => High
    case RevenueTarget => Medium
  }

  /** The position of each alert in the page's fixed order. */
  function Rank(k: AlertKind): nat
  {
    match k
    case ChurnRisk => 0
    case RevenueAnomaly => 1
    case ChurnRateAlert => 2
    case RevenueTarget => 3
  }

  /** The condition under which each alert is raised. */
  predicate Fires(k: AlertKind, s: Snapshot)
  {
    match k
    case ChurnRisk => OrZero(s.critical) > (s.totalCustomers as real) * 0.15
    case RevenueAnomaly => AvgRevenuePerCustomer(s) < 1000.0
    case ChurnRateAlert => ChurnRate(s) > 7.0
    case RevenueTarget => s.currentRevenue < 2400000.0
  }

  /** `$alerts`: exactly the alerts whose condition holds, each once, with
      its own severity, in the fixed order. */
  method BuildAlerts(s: Snapshot) returns (alerts: seq<Alert>)
    ensures |alerts| <= 4
    ensures forall i, j :: 0 <= i < j < |alerts| ==> Rank(alerts[i].kind) < Rank(alerts[j].kind)
    ensures forall i :: 0 <= i < |alerts| ==> alerts[i].severity == SeverityOf(alerts[i].kind) && Fires(alerts[i].kind, s)
    ensures forall k :: Fires(k, s) ==> Alert(k, SeverityOf(k)) in alerts
  {
    alerts := [];
    var critical := if s.critical.Some? then s.critical.value else 0.0;
    if critical > (s.totalCustomers as real) * 0.15 {
      alerts := alerts + [Alert(ChurnRisk, Critical)];
    }
    var avgRevenuePerCustomer := if s.totalCustomers > 0 then s.currentRevenue / (s.totalCustomers as real) else 0.0;
    if avgRevenuePerCustomer < 1000.0 {
      alerts := alerts + [Alert(RevenueAnomaly, High)];
    }
    var churnRate := ChurnRate(s);
    if churnRate > 7.0 {
      alerts := alerts + [Alert(ChurnRateAlert, High)];
    }
    if s.currentRevenue < 2400000.0 {
      alerts := alerts + [Alert(RevenueTarget, Medium)];
    }
  }

  /** With no customers the average revenue reads as 0, so the revenue
      anomaly alert is always raised, the churn-rate alert never, and the
      churn-risk alert whenever any critical customer is counted. */
  lemma EmptyBaseAlerts(s: Snapshot)
    requires s.totalCustomers == 0
    ensures Fires(RevenueAnomaly, s)
    ensures !Fires(ChurnRateAlert, s)
    ensures Fires(ChurnRisk, s) <==> OrZero(s.critical) > 0.0
  {
  }

  // ---------------------------------------------------------------------------
  // Metrics (lines 20-24, 77-79, 162-187)
  // ---------------------------------------------------------------------------

  datatype Status = Good | Warning

  function ChurnStatus(churnRate: real): Status
  {
    if churnRate < 8.0 then Good else Warning
  }

  function StabilityStatus(stability: real): Status
  {
    if stability >= 80.0 then Good else Warning
  }

  /** The churn-rate alert threshold (7) sits below the status threshold (8):
      a rate in between raises the alert while the metric still reads good,
      and a warning status always comes with the alert. */
  lemma ChurnAlertAndStatus(s: Snapshot)
    ensures Fires(ChurnRateAlert, s) && ChurnStatus(ChurnRate(s)) == Good <==> 7.0 < ChurnRate(s) < 8.0
    ensures ChurnStatus(ChurnRate(s)) == Warning ==> Fires(ChurnRateAlert, s)
  {
  }

  datatype Metrics = Metrics(
    revenueCurrent: real,
    revenuePrevious: real,
    revenueChangePercent: real,
    revenueTarget: real,
    customersCurrent: nat,
    customersTarget: nat,
    churnCurrent: real,
    churnTarget: real,
    churnStatus: Status,
    clvCurrent: real,
    clvTarget: real,
    stabilityCurrent: real,
    stabilityTarget: real,
    stabilityStatus: Status)

  /** `$metrics`: previous revenue estimated at 88% of current, fixed
      targets, rounded rates, and statuses read from the unrounded rates. */
  function BuildMetrics(s: Snapshot): (m: Metrics)
    ensures m.churnStatus == Good <==> ChurnRate(s) < 8.0
    ensures m.stabilityStatus == Good <==> SegmentStability(s) >= 80.0
    ensures ChurnRate(s) - 0.005 <= m.churnCurrent <= ChurnRate(s) + 0.005
    ensures SegmentStability(s) - 0.05 <= m.stabilityCurrent <= SegmentStability(s) + 0.05
    ensures s.currentRevenue > 0.0 ==> m.revenuePrevious < m.revenueCurrent
  {
    Metrics(
      s.currentRevenue, s.currentRevenue * 0.88, Round(12.4, 10.0), 2500000.0,
      s.totalCustomers, 5000,
      Round(ChurnRate(s), 100.0), 8.0, ChurnStatus(ChurnRate(s)),
      Round(s.avgClv, 100.0), 5000.0,
      Round(SegmentStability(s), 10.0), 80.0, StabilityStatus(SegmentStability(s)))
  }

  /** The revenue forecast: 15% above current. */
  function ForecastRevenue(currentRevenue: real): (r: real)
    ensures currentRevenue > 0.0 ==> r > currentRevenue
  {
    currentRevenue * 1.15
  }

  const ForecastConfidence: nat := 78
}
