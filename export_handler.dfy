/** exports/export_handler.php: request validation, the per-type column
    lists, the chart key field, radar scaling, and the CSV and spreadsheet
    layouts. The query results, whether the cluster-metadata query succeeds
    and which chart images the renderer produced are inputs; the spreadsheet
    the library builds is the map of cells and the list of drawings written
    into it. */
module ExportHandler {
  import opened PhpLib
  import opened Vocabulary
  import Api

  // ---------------------------------------------------------------------------
  // Request validation (lines 21-36)
  // ---------------------------------------------------------------------------

  /** The four parameters the script reads: type/format from the query string,
      segmentation_type/export_format from the form body. */
  datatype ExportRequest = ExportRequest(
    getType: Option<string>,
    postType: Option<string>,
    getFormat: Option<string>,
    postFormat: Option<string>)

  datatype Checked =
    | Accepted(segType: SegType, format: ExportFormat)
    | Rejected(message: string)

  const MissingMessage := "Missing required parameters: type and format"
  const InvalidMessage := "Invalid parameters"

  /** `a ?? b`: the query-string value whenever it is present, even if empty. */
  function Coalesce(a: Option<string>, b: Option<string>): Option<string>
  {
    if a.Some? then a else b
  }

  function RequestedType(req: ExportRequest): Option<string>
  {
    Coalesce(req.getType, req.postType)
  }

  function RequestedFormat(req: ExportRequest): Option<string>
  {
    Coalesce(req.getFormat, req.postFormat)
  }

  /** The request goes on only when both values are truthy (not missing, ""
      or "0"), the type is one of the seven and the format one of the three. */
  function ValidateRequest(req: ExportRequest): (r: Checked)
    ensures var t := RequestedType(req); var f := RequestedFormat(req);
      && (r == Rejected(MissingMessage) <==> EmptyString(t) || EmptyString(f))
      && (r.Accepted? <==>
            !EmptyString(t) && !EmptyString(f) && t.value in ValidSegNames && f.value in ValidFormatNames)
      && (r.Accepted? ==> SegName(r.segType) == t.value && FormatName(r.format) == f.value)
      && (r.Rejected? ==> r.message in {MissingMessage, InvalidMessage})
  {
    var t := RequestedType(req);
    var f := RequestedFormat(req);
    if EmptyString(t) || EmptyString(f) then Rejected(MissingMessage)
    else match (ParseSegType(t.value), ParseFormat(f.value))
      case (Some(st), Some(ef)) => Accepted(st, ef)
      case _ => Rejected(InvalidMessage)
  }

  /** A GET value shadows the POST one even when it is empty, so an empty
      `type` in the query string rejects a request whose form body is valid. */
  lemma EmptyGetShadowsPost(postType: string, format: string)
    requires postType in ValidSegNames && format in ValidFormatNames
    ensures ValidateRequest(ExportRequest(Some(""), Some(postType), Some(format), None)) == Rejected(MissingMessage)
    ensures ValidateRequest(ExportRequest(None, Some(postType), Some(format), None)).Accepted?
  {
  }

  // ---------------------------------------------------------------------------
  // Columns and chart key field (lines 145-163, 273-287)
  // ---------------------------------------------------------------------------

  /** getColumnsForSegmentation for the seven valid types; its default branch
      cannot be reached once the request has been validated. */
  function ColumnsFor(t: SegType): seq<string>
  {
    match t
    case Gender => ["gender", "total_customers", "avg_income", "avg_purchase_amount"]
    case Region => ["region", "total_customers", "avg_income", "avg_purchase_amount"]
    case AgeGroup => ["age_group", "total_customers", "avg_income", "avg_purchase_amount"]
    case IncomeBracket => ["income_bracket", "total_customers", "avg_purchase_amount"]
    case Cluster => ["cluster_label", "total_customers", "avg_income", "avg_purchase_amount", "min_age", "max_age"]
    case PurchaseTier => ["purchase_tier", "total_customers", "avg_income"]
    case Clv => ["clv_tier", "total_customers", "avg_purchase_amount", "avg_frequency", "avg_clv", "avg_income", "avg_lifespan_years"]
  }

  /** The key-field chain of generateCharts as written: its last branch
      appends `_tier` to the type name. */
  function ChartKeyFieldAsWritten(t: string): string
  {
    if t == "clv" then "clv_tier"
    else if t == "cluster" then "cluster_label"
    else if t == "gender" then "gender"
    else if t == "region" then "region"
    else if t == "age_group" then "age_group"
    else if t == "income_bracket" then "income_bracket"
    else t + "_tier"
  }

  /** The key field the chart should label its bars with: the grouping
      column of the type's query. */
  function ChartKeyField(t: SegType): string
  {
    match t
    case Clv => "clv_tier"
    case Cluster => "cluster_label"
    case PurchaseTier => "purchase_tier"
    case _ => SegName(t)
  }

  /** The corrected key field heads the column list of every valid type,
      followed by the count, and is the one the API groups by. */
  lemma ColumnsLeadWithKeyField(t: SegType)
    ensures |ColumnsFor(t)| >= 3
    ensures ColumnsFor(t)[0] == ChartKeyField(t)
    ensures ColumnsFor(t)[1] == "total_customers"
    ensures ChartKeyField(t) == Api.KeyFieldFor(SegName(t))
  {
  }

  /** The chain as written agrees with the corrected key field on six of the
      seven types; on purchase_tier it asks for `purchase_tier_tier`, a column
      no query returns. */
  lemma ChartKeyFieldAsWrittenDiffers(t: SegType)
    ensures t != PurchaseTier ==> ChartKeyFieldAsWritten(SegName(t)) == ChartKeyField(t)
    ensures t == PurchaseTier ==>
      ChartKeyFieldAsWritten(SegName(t)) == "purchase_tier_tier" && ChartKeyFieldAsWritten(SegName(t)) !in ColumnsFor(t)
  {
  }

  /** array_column(rows, key): the values of the rows that have the key, in
      order, a NULL value kept as null; rows without the key are skipped. */
  function ArrayColumn(rows: seq<Row>, key: string): (r: seq<Option<string>>)
    ensures |r| <= |rows|
    ensures (forall i :: 0 <= i < |rows| ==> key !in rows[i]) ==> r == []
    ensures (forall i :: 0 <= i < |rows| ==> key in rows[i]) ==>
      |r| == |rows| && forall i :: 0 <= i < |rows| ==> r[i] == rows[i][key]
  {
    if rows == [] then []
    else (if key in rows[0] then [rows[0][key]] else []) + ArrayColumn(rows[1..], key)
  }

  /** The labels and values of the bar and pie charts (lines 289-290) as
      written, keyed by the type name the request carried. */
  function ChartSeriesAsWritten(t: string, rows: seq<Row>): (r: (seq<Option<string>>, seq<Option<string>>))
    ensures |r.0| <= |rows| && |r.1| <= |rows|
  {
    (ArrayColumn(rows, ChartKeyFieldAsWritten(t)), ArrayColumn(rows, "total_customers"))
  }

  /** The same series with the corrected key field: when every row carries
      the key field and the count, as every row of the type's query does,
      there is one label per value and each label is its row's group, a NULL
      group giving a null label. */
  function ChartSeries(t: SegType, rows: seq<Row>): (r: (seq<Option<string>>, seq<Option<string>>))
    ensures (forall i :: 0 <= i < |rows| ==> ChartKeyField(t) in rows[i] && "total_customers" in rows[i]) ==>
      && |r.0| == |rows|
      && |r.1| == |rows|
      && (forall i :: 0 <= i < |rows| ==> r.0[i] == rows[i][ChartKeyField(t)] && r.1[i] == rows[i]["total_customers"])
  {
    (ArrayColumn(rows, ChartKeyField(t)), ArrayColumn(rows, "total_customers"))
  }

  /** As written, a purchase_tier export whose rows carry only the query's
      own columns gets a bar and pie chart with no labels but one value per
      row; with the corrected key field labels and values line up. */
  lemma PurchaseTierChartLabels(rows: seq<Row>)
    requires forall i, k :: 0 <= i < |rows| && k in rows[i] ==> k in ColumnsFor(PurchaseTier)
    requires forall i :: 0 <= i < |rows| ==> "purchase_tier" in rows[i] && "total_customers" in rows[i]
    ensures ChartSeriesAsWritten("purchase_tier", rows).0 == []
    ensures |ChartSeriesAsWritten("purchase_tier", rows).1| == |rows|
    ensures |ChartSeries(PurchaseTier, rows).0| == |ChartSeries(PurchaseTier, rows).1| == |rows|
  {
    ChartKeyFieldAsWrittenDiffers(PurchaseTier);
  }

  // ---------------------------------------------------------------------------
  // Charts (lines 268-599)
  // ---------------------------------------------------------------------------

  datatype Chart = BarChart | PieChart | RadarChart | ComparisonChart | ClvHorizontalChart | ClvCombinationChart

  /** The keys generateCharts puts in `$charts`: bar and pie always, radar and
      comparison for cluster when the metadata query succeeds, the two CLV
      charts for clv. */
  function GeneratedCharts(t: SegType, metadataAvailable: bool): set<Chart>
  {
    {BarChart, PieChart}
    + (if t == Cluster && metadataAvailable then {RadarChart, ComparisonChart} else {})
    + (if t == Clv then {ClvHorizontalChart, ClvCombinationChart} else {})
  }

  /** `$chartsToAdd` in exportToExcel: the chart set depends on the type only. */
  function ChartsToAdd(t: SegType): (r: seq<Chart>)
    ensures |r| == (if t == Clv then 3 else if t == Cluster then 4 else 2)
    ensures forall i, j :: 0 <= i < j < |r| ==> r[i] != r[j]
  {
    if t == Clv then [ClvHorizontalChart, PieChart, ClvCombinationChart]
    else if t == Cluster then [BarChart, PieChart, RadarChart, ComparisonChart]
    else [BarChart, PieChart]
  }

  /** The charts of `toAdd` that exist, in order. */
  function Present(toAdd: seq<Chart>, exists_: set<Chart>): (r: seq<Chart>)
    ensures |r| <= |toAdd|
  {
    if toAdd == [] then []
    else Present(toAdd[..|toAdd| - 1], exists_)
         + (if toAdd[|toAdd| - 1] in exists_ then [toAdd[|toAdd| - 1]] else [])
  }

  lemma {:induction false} PresentMembers(toAdd: seq<Chart>, exists_: set<Chart>)
    ensures forall c :: c in Present(toAdd, exists_) <==> c in toAdd && c in exists_
  {
    if toAdd != [] {
      PresentMembers(toAdd[..|toAdd| - 1], exists_);
      assert toAdd == toAdd[..|toAdd| - 1] + [toAdd[|toAdd| - 1]];
    }
  }

  datatype Drawing = Drawing(chart: Chart, column: int, row: int)

  /** Where the k-th placed chart goes: four columns apart, seven to a band,
      each band 15 rows below the previous. */
  function ChartLayout(charts: seq<Chart>, startRow: int): (r: seq<Drawing>)
    ensures |r| == |charts|
  {
    seq(|charts|, k requires 0 <= k < |charts| => Drawing(charts[k], 1 + 4 * (k % 7), startRow + 15 * (k / 7)))
  }

  /** No type has more than four charts to add, so all of them sit in the
      first band, at columns 1, 5, 9 and 13: the wrap at column 26 never fires. */
  lemma ChartsStayInOneBand(t: SegType, exists_: set<Chart>, startRow: int)
    ensures var d := ChartLayout(Present(ChartsToAdd(t), exists_), startRow);
      |d| <= 4 && forall k :: 0 <= k < |d| ==> d[k].row == startRow && d[k].column == 1 + 4 * k <= 13
  {
  }

  lemma DivModStep(n: nat, q: nat, m: nat)
    requires n == 7 * q + m && m < 7
    ensures n % 7 == m && n / 7 == q
  {
  }

  /** The placement loop of exportToExcel (lines 692-724): only charts that
      exist advance the column, and a column past 26 starts a new band. */
  method PlaceCharts(toAdd: seq<Chart>, exists_: set<Chart>, startRow: int) returns (drawings: seq<Drawing>)
    ensures drawings == ChartLayout(Present(toAdd, exists_), startRow)
  {
    var colIndex := 1;
    var chartStartRow := startRow;
    drawings := [];
    ghost var band: nat := 0;
    ghost var slot: nat := 0;
    var i := 0;
    while i < |toAdd|
      invariant 0 <= i <= |toAdd|
      invariant slot < 7 && |drawings| == 7 * band + slot
      invariant colIndex == 1 + 4 * slot && chartStartRow == startRow + 15 * band
      invariant drawings == ChartLayout(Present(toAdd[..i], exists_), startRow)
    {
      assert toAdd[..i + 1][..i] == toAdd[..i];
      if toAdd[i] in exists_ {
        DivModStep(|drawings|, band, slot);
        drawings := drawings + [Drawing(toAdd[i], colIndex, chartStartRow)];
        colIndex := colIndex + 4;
        slot := slot + 1;
        if colIndex > 26 {
          chartStartRow := chartStartRow + 15;
          colIndex := 1;
          band, slot := band + 1, 0;
        }
      }
      i := i + 1;
    }
    assert toAdd[..i] == toAdd;
  }

  /** One cluster_metadata row as the radar chart reads it. */
  datatype ClusterMeta = ClusterMeta(
    clusterId: Option<string>,
    clusterName: Option<string>,
    avgIncome: Option<real>,
    avgPurchaseAmount: Option<real>,
    customerCount: Option<real>)

  function OrZero(x: Option<real>): real
  {
    if x.Some? then x.value else 0.0
  }

  /** `min(100, x / d)`. */
  function Scale(x: real, d: real): real
    requires d > 0.0
  {
    if x / d < 100.0 then x / d else 100.0
  }

  /** The radar scale caps every value at 100 and is exact below the cap. */
  lemma ScaleBounded(x: real, d: real)
    requires d > 0.0
    ensures Scale(x, d) <= 100.0
    ensures x <= 100.0 * d ==> Scale(x, d) == x / d
    ensures x >= 100.0 * d ==> Scale(x, d) == 100.0
  {
    if x <= 100.0 * d {
      assert x / d <= 100.0 by {
        assert x / d * d == x;
      }
    } else {
      assert x / d > 100.0 by {
        assert x / d * d == x;
      }
    }
  }

  const RadarMetrics: seq<string> := ["avg_income", "avg_purchase_amount", "customer_count"]

  datatype RadarDataset = RadarDataset(name: string, data: seq<real>)

  function RadarLabel(c: ClusterMeta): string
  {
    if c.clusterName.Some? then c.clusterName.value
    else "Cluster " + (if c.clusterId.Some? then c.clusterId.value else "Unknown")
  }

  /** The three scaled values of one cluster (lines 391-400). */
  function RadarData(c: ClusterMeta): (r: seq<real>)
    ensures |r| == 3 && forall k :: 0 <= k < 3 ==> r[k] <= 100.0
  {
    ScaleBounded(OrZero(c.avgIncome), 1000.0);
    ScaleBounded(OrZero(c.avgPurchaseAmount), 100.0);
    ScaleBounded(OrZero(c.customerCount), 100.0);
    [Scale(OrZero(c.avgIncome), 1000.0), Scale(OrZero(c.avgPurchaseAmount), 100.0), Scale(OrZero(c.customerCount), 100.0)]
  }

  /** The radar loop (lines 386-410): labels are the metric names once a
      cluster exists, and one dataset per cluster, in order. */
  method BuildRadar(clusters: seq<ClusterMeta>) returns (labels: seq<string>, datasets: seq<RadarDataset>)
    ensures labels == if |clusters| == 0 then [] else RadarMetrics
    ensures |datasets| == |clusters|
    ensures forall i :: 0 <= i < |clusters| ==>
      datasets[i].name == RadarLabel(clusters[i]) && datasets[i].data == RadarData(clusters[i])
    ensures forall i, k :: 0 <= i < |datasets| && 0 <= k < |datasets[i].data| ==> datasets[i].data[k] <= 100.0
  {
    labels := [];
    datasets := [];
    var i := 0;
    while i < |clusters|
      invariant 0 <= i <= |clusters|
      invariant labels == if i == 0 then [] else RadarMetrics
      invariant |datasets| == i
      invariant forall j :: 0 <= j < i ==>
        datasets[j].name == RadarLabel(clusters[j]) && datasets[j].data == RadarData(clusters[j])
    {
      if labels == [] {
        labels := RadarMetrics;
      }
      var data: seq<real> := [];
      var m := 0;
      while m < |RadarMetrics|
        invariant 0 <= m <= 3
        invariant data == RadarData(clusters[i])[..m]
      {
        var normalized;
        if RadarMetrics[m] == "avg_income" {
          normalized := Scale(OrZero(clusters[i].avgIncome), 1000.0);
        } else if RadarMetrics[m] == "avg_purchase_amount" {
          normalized := Scale(OrZero(clusters[i].avgPurchaseAmount), 100.0);
        } else {
          normalized := Scale(OrZero(clusters[i].customerCount), 100.0);
        }
        data := data + [normalized];
        m := m + 1;
      }
      datasets := datasets + [RadarDataset(RadarLabel(clusters[i]), data)];
      i := i + 1;
    }
  }

  // ---------------------------------------------------------------------------
  // CSV and spreadsheet layout (lines 620-724)
  // ---------------------------------------------------------------------------

  /** The heading of a column: `ucfirst(str_replace('_', ' ', col))`. */
  function HeaderLabel(col: string): (r: string)
    ensures |r| == |col| && '_' !in r
    ensures |col| > 0 && IsLower(col[0]) ==> IsUpper(r[0])
  {
    Ucfirst(ReplaceChar(col, '_', ' '))
  }

  /** `$row[$col] ?? ''`. */
  function CellValue(row: Row, col: string): string
  {
    FieldOr(row, col, "")
  }

  /** One CSV record: a cell per column, in column order. */
  method CsvRow(row: Row, columns: seq<string>) returns (cells: seq<string>)
    ensures |cells| == |columns|
    ensures forall j :: 0 <= j < |columns| ==> cells[j] == CellValue(row, columns[j])
    ensures forall j :: 0 <= j < |columns| && (columns[j] !in row || row[columns[j]].None?) ==> cells[j] == ""
  {
    cells := [];
    for j := 0 to |columns|
      invariant |cells| == j
      invariant forall k :: 0 <= k < j ==> cells[k] == CellValue(row, columns[k])
    {
      cells := cells + [CellValue(row, columns[j])];
    }
  }

  /** exportToCSV: a header record of column headings, then one record per
      result row, each exactly as wide as the header. */
  method ExportToCsv(results: seq<Row>, columns: seq<string>) returns (header: seq<string>, records: seq<seq<string>>)
    ensures |header| == |columns|
    ensures forall j :: 0 <= j < |columns| ==> header[j] == HeaderLabel(columns[j])
    ensures |records| == |results|
    ensures forall i :: 0 <= i < |results| ==> |records[i]| == |columns|
    ensures forall i, j :: 0 <= i < |results| && 0 <= j < |columns| ==>
      records[i][j] == CellValue(results[i], columns[j])
  {
    header := [];
    for j := 0 to |columns|
      invariant |header| == j
      invariant forall k :: 0 <= k < j ==> header[k] == HeaderLabel(columns[k])
    {
      header := header + [HeaderLabel(columns[j])];
    }
    records := [];
    for i := 0 to |results|
      invariant |records| == i
      invariant forall r :: 0 <= r < i ==> |records[r]| == |columns|
      invariant forall r, j :: 0 <= r < i && 0 <= j < |columns| ==> records[r][j] == CellValue(results[r], columns[j])
    {
      var cells := CsvRow(results[i], columns);
      records := records + [cells];
    }
  }

  /** A cell address as (row, column), both counted from 1. */
  type Cell = (int, int)

  /** Writes `values` into row `row` from column 1 on, leaving every other
      cell, in that row or another, as it was. */
  method WriteRow(cells: map<Cell, string>, row: int, values: seq<string>) returns (out: map<Cell, string>)
    ensures forall c :: 1 <= c <= |values| ==> (row, c) in out && out[(row, c)] == values[c - 1]
    ensures forall a :: a in out <==> a in cells || (a.0 == row && 1 <= a.1 <= |values|)
    ensures forall a :: a in cells && !(a.0 == row && 1 <= a.1 <= |values|) ==> out[a] == cells[a]
  {
    out := cells;
    var colIndex := 1;
    for j := 0 to |values|
      invariant colIndex == j + 1
      invariant forall c :: 1 <= c <= j ==> (row, c) in out && out[(row, c)] == values[c - 1]
      invariant forall a :: a in out <==> a in cells || (a.0 == row && 1 <= a.1 <= j)
      invariant forall a :: a in cells && !(a.0 == row && 1 <= a.1 <= j) ==> out[a] == cells[a]
    {
      out := out[(row, colIndex) := values[j]];
      colIndex := colIndex + 1;
    }
  }

  function Headings(columns: seq<string>): seq<string>
  {
    seq(|columns|, j requires 0 <= j < |columns| => HeaderLabel(columns[j]))
  }

  function Cells(row: Row, columns: seq<string>): seq<string>
  {
    seq(|columns|, j requires 0 <= j < |columns| => CellValue(row, columns[j]))
  }

  /** The table after the headings and the first n results: headings in
      row 1, result r - 2 in row r, column c - 1 in column c, nothing else. */
  ghost predicate Laid(cells: map<Cell, string>, results: seq<Row>, columns: seq<string>, n: nat)
    requires n <= |results|
  {
    && (forall c :: 1 <= c <= |columns| ==> (1, c) in cells && cells[(1, c)] == HeaderLabel(columns[c - 1]))
    && (forall r, c :: 2 <= r <= n + 1 && 1 <= c <= |columns| ==>
          (r, c) in cells && cells[(r, c)] == CellValue(results[r - 2], columns[c - 1]))
    && (forall a :: a in cells ==> 1 <= a.0 <= n + 1 && 1 <= a.1 <= |columns|)
  }

  /** Writing the headings into an empty sheet lays out no result yet. */
  lemma HeadingRowLaid(cells: map<Cell, string>, results: seq<Row>, columns: seq<string>, values: seq<string>)
    requires values == Headings(columns)
    requires forall c :: 1 <= c <= |values| ==> (1, c) in cells && cells[(1, c)] == values[c - 1]
    requires forall a :: a in cells ==> a.0 == 1 && 1 <= a.1 <= |values|
    ensures Laid(cells, results, columns, 0)
  {
  }

  /** Writing the cells of result i into row i + 2 extends the layout by
      that result and keeps the rows above it. */
  lemma DataRowLaid(before: map<Cell, string>, after: map<Cell, string>, results: seq<Row>, columns: seq<string>,
                    i: nat, row: int, values: seq<string>)
    requires i < |results| && Laid(before, results, columns, i)
    requires row == i + 2 && values == Cells(results[i], columns)
    requires forall c :: 1 <= c <= |values| ==> (row, c) in after && after[(row, c)] == values[c - 1]
    requires forall a :: a in after <==> a in before || (a.0 == row && 1 <= a.1 <= |values|)
    requires forall a :: a in before && !(a.0 == row && 1 <= a.1 <= |values|) ==> after[a] == before[a]
    ensures Laid(after, results, columns, i + 1)
  {
    forall c | 1 <= c <= |columns|
      ensures (1, c) in after && after[(1, c)] == HeaderLabel(columns[c - 1])
    {
      assert (1, c) in before;
    }
    forall r, c | 2 <= r <= i + 2 && 1 <= c <= |columns|
      ensures (r, c) in after && after[(r, c)] == CellValue(results[r - 2], columns[c - 1])
    {
      if r <= i + 1 {
        assert (r, c) in before;
      }
    }
  }

  /** exportToExcel's table: headings in row 1, result r - 2 in row r,
      column c - 1 in column c, nothing else; then the charts from row
      |results| + 4. */
  method ExportToExcel(results: seq<Row>, columns: seq<string>, t: SegType, exists_: set<Chart>)
    returns (cells: map<Cell, string>, drawings: seq<Drawing>)
    ensures forall c :: 1 <= c <= |columns| ==> (1, c) in cells && cells[(1, c)] == HeaderLabel(columns[c - 1])
    ensures forall r, c :: 2 <= r <= |results| + 1 && 1 <= c <= |columns| ==>
      (r, c) in cells && cells[(r, c)] == CellValue(results[r - 2], columns[c - 1])
    ensures forall a :: a in cells ==> 1 <= a.0 <= |results| + 1 && 1 <= a.1 <= |columns|
    ensures drawings == ChartLayout(Present(ChartsToAdd(t), exists_), |results| + 4)
  {
    var headings := Headings(columns);
    cells := WriteRow(map[], 1, headings);
    HeadingRowLaid(cells, results, columns, headings);
    var rowIndex := 2;
    for i := 0 to |results|
      invariant rowIndex == i + 2
      invariant Laid(cells, results, columns, i)
    {
      var values := Cells(results[i], columns);
      ghost var before := cells;
      cells := WriteRow(cells, rowIndex, values);
      DataRowLaid(before, cells, results, columns, i, rowIndex, values);
      rowIndex := rowIndex + 1;
    }
    drawings := PlaceCharts(ChartsToAdd(t), exists_, rowIndex + 2);
  }

  // ---------------------------------------------------------------------------
  // Main execution (lines 905-943)
  // ---------------------------------------------------------------------------

  datatype ExportOutcome =
    | Refused(message: string)
    | CsvFile(header: seq<string>, records: seq<seq<string>>)
    | ExcelFile(cells: map<Cell, string>, drawings: seq<Drawing>)
    | PdfFile(segType: SegType)

  const NoDataMessage := "No data found for this segmentation type"

  /** The script: validate, fetch, refuse an empty result, then lay out the
      rows in the requested format with the type's own columns. */
  method RunExport(req: ExportRequest, fetched: Api.QueryResult, metadataAvailable: bool, rendered: set<Chart>)
    returns (out: ExportOutcome)
    ensures ValidateRequest(req).Rejected? ==> out == Refused(ValidateRequest(req).message)
    ensures ValidateRequest(req).Accepted? && fetched.DbError? ==>
      out == Refused("Database query failed: " + fetched.message)
    ensures ValidateRequest(req).Accepted? && fetched.Rows? && |fetched.rows| == 0 ==> out == Refused(NoDataMessage)
    ensures out.Refused? <==>
      ValidateRequest(req).Rejected? || fetched.DbError? || |fetched.rows| == 0
    ensures ValidateRequest(req).Accepted? && out.CsvFile? ==>
      var cols := ColumnsFor(ValidateRequest(req).segType);
      && ValidateRequest(req).format == Csv
      && |out.header| == |cols| && |out.records| == |fetched.rows|
      && (forall j :: 0 <= j < |cols| ==> out.header[j] == HeaderLabel(cols[j]))
      && forall i, j :: 0 <= i < |fetched.rows| && 0 <= j < |cols| ==>
           |out.records[i]| == |cols| && out.records[i][j] == CellValue(fetched.rows[i], cols[j])
    ensures ValidateRequest(req).Accepted? && out.ExcelFile? ==>
      var t := ValidateRequest(req).segType;
      var cols := ColumnsFor(t);
      && ValidateRequest(req).format == Excel
      && (forall c :: 1 <= c <= |cols| ==> (1, c) in out.cells && out.cells[(1, c)] == HeaderLabel(cols[c - 1]))
      && (forall r, c :: 2 <= r <= |fetched.rows| + 1 && 1 <= c <= |cols| ==>
            (r, c) in out.cells && out.cells[(r, c)] == CellValue(fetched.rows[r - 2], cols[c - 1]))
      && (forall a :: a in out.cells ==> 1 <= a.0 <= |fetched.rows| + 1 && 1 <= a.1 <= |cols|)
      && out.drawings == ChartLayout(Present(ChartsToAdd(t), GeneratedCharts(t, metadataAvailable) * rendered), |fetched.rows| + 4)
    ensures !out.Refused? ==>
      && ValidateRequest(req).Accepted?
      && (out.CsvFile? <==> ValidateRequest(req).format == Csv)
      && (out.ExcelFile? <==> ValidateRequest(req).format == Excel)
      && (out.PdfFile? <==> ValidateRequest(req).format == Pdf)
  {
    var checked := ValidateRequest(req);
    if checked.Rejected? {
      return Refused(checked.message);
    }
    if fetched.DbError? {
      return Refused("Database query failed: " + fetched.message);
    }
    var results := fetched.rows;
    if |results| == 0 {
      return Refused(NoDataMessage);
    }
    var t := checked.segType;
    var columns := ColumnsFor(t);
    var charts := GeneratedCharts(t, metadataAvailable) * rendered;
    match checked.format {
      case Csv =>
        var header, records := ExportToCsv(results, columns);
        out := CsvFile(header, records);
      case Excel =>
        var cells, drawings := ExportToExcel(results, columns, t, charts);
        out := ExcelFile(cells, drawings);
      case Pdf =>
        out := PdfFile(t);
    }
  }
}
