/** exports/export_functions.php: the export query built from a column list
    and named filters, and the log record written for every export. */
module ExportFunctions {
  import opened PhpLib

  /** `"$col = :$col"` for each filter column, in filter order. */
  function Conditions(cols: seq<string>): seq<string>
  {
    seq(|cols|, j requires 0 <= j < |cols| => cols[j] + " = " + Placeholder(cols[j]))
  }

  function Placeholder(col: string): string
  {
    ":" + col
  }

  function SelectClause(columns: seq<string>): string
  {
    "SELECT " + Join(columns, ", ") + " FROM segmentation_results"
  }

  /** The query text: the WHERE clause only when filters exist. */
  function QueryText(columns: seq<string>, filters: OrderedMap<string>): string
  {
    if filters.keys == [] then SelectClause(columns)
    else SelectClause(columns) + " WHERE " + Join(Conditions(filters.keys), " AND ")
  }

  /** The query always starts with the SELECT of the requested columns,
      and is nothing more exactly when there are no filters. */
  lemma QueryTextWhere(columns: seq<string>, filters: OrderedMap<string>)
    ensures StartsWith(QueryText(columns, filters), SelectClause(columns))
    ensures QueryText(columns, filters) == SelectClause(columns) <==> filters.keys == []
  {
    var sel := SelectClause(columns);
    if filters.keys != [] {
      var rest := " WHERE " + Join(Conditions(filters.keys), " AND ");
      assert QueryText(columns, filters) == sel + rest;
      assert (sel + rest)[..|sel|] == sel;
    }
  }

  /** getExportData's query text and bindings: a WHERE clause only when
      filters exist, one `col = :col` condition and one binding per filter. */
  method GetExportQuery(columns: seq<string>, filters: OrderedMap<string>) returns (sql: string, bindings: seq<(string, string)>)
    requires filters.Valid()
    ensures sql == QueryText(columns, filters)
    ensures |bindings| == |filters.keys|
    ensures forall j :: 0 <= j < |bindings| ==>
      bindings[j] == (Placeholder(filters.keys[j]), filters.values[filters.keys[j]])
  {
    sql := "SELECT " + Join(columns, ", ") + " FROM segmentation_results";
    if |filters.keys| != 0 {
      var conditions: seq<string> := [];
      for j := 0 to |filters.keys|
        invariant |conditions| == j
        invariant forall m :: 0 <= m < j ==> conditions[m] == Conditions(filters.keys)[m]
      {
        var col := filters.keys[j];
        conditions := conditions + [col + " = " + ":" + col];
      }
      assert conditions == Conditions(filters.keys);
      sql := sql + " WHERE " + Join(conditions, " AND ");
    }
    bindings := [];
    for j := 0 to |filters.keys|
      invariant |bindings| == j
      invariant forall m :: 0 <= m < j ==> bindings[m] == (Placeholder(filters.keys[m]), filters.values[filters.keys[m]])
    {
      var col := filters.keys[j];
      bindings := bindings + [(":" + col, filters.values[col])];
    }
  }

  /** Every bound placeholder is written in the query text, at the
      returned offset. */
  lemma BoundPlaceholdersAppear(columns: seq<string>, filters: OrderedMap<string>, j: nat) returns (at: nat)
    requires filters.Valid() && j < |filters.keys|
    ensures at + |Placeholder(filters.keys[j])| <= |QueryText(columns, filters)|
    ensures QueryText(columns, filters)[at..at + |Placeholder(filters.keys[j])|] == Placeholder(filters.keys[j])
  {
    var col := filters.keys[j];
    var pre := SelectClause(columns) + " WHERE ";
    assert QueryText(columns, filters) == pre + Join(Conditions(filters.keys), " AND ");
    at := PieceTailInText(pre, Conditions(filters.keys), " AND ", j, col + " = ", Placeholder(col));
  }

  /** The tail `t` of the j-th piece of an implode occurs in any text that
      ends with that implode. */
  lemma PieceTailInText(pre: string, parts: seq<string>, sep: string, j: nat, lead: string, t: string) returns (at: nat)
    requires j < |parts| && parts[j] == lead + t
    ensures at + |t| <= |pre + Join(parts, sep)|
    ensures (pre + Join(parts, sep))[at..at + |t|] == t
  {
    var w := Join(parts, sep);
    var c := JoinContains(parts, sep, j);
    at := |pre| + c + |lead|;
    assert (pre + w)[at..at + |t|] == w[c + |lead|..c + |lead| + |t|];
    assert w[c + |lead|..c + |lead| + |t|] == w[c..c + |parts[j]|][|lead|..];
  }

  /** One row of the exports table, as the history page reads it; a column
      the insert leaves unset is NULL. */
  datatype ExportRecord = ExportRecord(
    exportType: Option<string>,
    exportFormat: Option<string>,
    exportedColumns: Option<string>,
    exportFile: Option<string>)

  /** The exports table, appended to by logExport and by the column CSV
      download. */
  class ExportsTable {
    var rows: seq<ExportRecord>

    constructor()
      ensures rows == []
    {
      rows := [];
    }

    /** logExport: one new record whose column field is the comma-join of
        the exported columns; export_format is left NULL and earlier
        records are untouched. */
    method LogExport(exportType: string, columns: seq<string>, filePath: string)
      modifies this
      ensures rows == old(rows) + [ExportRecord(Some(exportType), None, Some(Join(columns, ",")), Some(filePath))]
    {
      rows := rows + [ExportRecord(Some(exportType), None, Some(Join(columns, ",")), Some(filePath))];
    }

    /** The insert of export_csv.php: format 'CSV' and the JSON text of the
        exported columns; export_type and export_file are left NULL. */
    method LogColumnExport(columnsJson: string)
      modifies this
      ensures rows == old(rows) + [ExportRecord(None, Some("CSV"), Some(columnsJson), None)]
    {
      rows := rows + [ExportRecord(None, Some("CSV"), Some(columnsJson), None)];
    }
  }

  /** Splitting a logged column field on commas gives back the exported
      columns whenever there is at least one and none contains a comma. */
  lemma LoggedColumnsRoundTrip(columns: seq<string>)
    requires |columns| >= 1
    requires forall i :: 0 <= i < |columns| ==> ',' !in columns[i]
    ensures Split(Join(columns, ","), ',') == columns
  {
    SplitJoin(columns, ',');
  }

  /** An export of no columns is logged as "", which reads back as one empty
      column name. */
  lemma EmptyColumnListReadsAsOne()
    ensures Join([], ",") == "" && Split(Join([], ","), ',') == [""]
  {
  }
}
