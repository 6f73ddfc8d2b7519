/** export_history.php: the badge colour of a format, the segmentation type
    read back from an export's file name, the summary of its column list,
    and the most-common format and type statistics. */
module ExportHistory {
  import opened PhpLib
  import opened Vocabulary
  import ExportFunctions
  import ColumnCsvExport

  // ---------------------------------------------------------------------------
  // Format colour (lines 11-23)
  // ---------------------------------------------------------------------------

  datatype Colour = Primary | Success | Danger | Secondary

  function FormatColor(format: string): (r: Colour)
  {
    var f := ToLower(format);
    if f == "csv" then Primary
    else if f == "excel" then Success
    else if f == "pdf" then Danger
    else Secondary
  }

  lemma ToLowerIdempotent(s: string)
    ensures ToLower(ToLower(s)) == ToLower(s)
  {
  }

  /** The colour ignores case, gives each of the three formats its own
      colour and every other string the neutral one. */
  lemma FormatColorCaseInsensitive(format: string)
    ensures FormatColor(format) == FormatColor(ToLower(format))
    ensures FormatColor(format) == Secondary <==> ToLower(format) !in ValidFormatNames
  {
    ToLowerIdempotent(format);
  }

  lemma FormatColorOfFormats()
    ensures FormatColor(FormatName(Csv)) == Primary
    ensures FormatColor(FormatName(Excel)) == Success
    ensures FormatColor(FormatName(Pdf)) == Danger
    ensures FormatColor("CSV") == Primary && FormatColor("Excel") == Success
  {
    assert ToLower("CSV") == "csv";
    assert ToLower("Excel") == "excel";
  }

  // ---------------------------------------------------------------------------
  // Segmentation type from a file name: preg_match('/export_(\w+)_/') (lines 26-31)
  // ---------------------------------------------------------------------------

  const Marker: string := "export_"

  predicate MarkerAt(s: string, i: int)
  {
    0 <= i && i + 7 <= |s| && s[i..i + 7] == Marker
  }

  /** The pattern matches at offset i with the capture ending at k: the
      marker, at least one word character, then an underscore at k. */
  predicate IsMatch(s: string, i: int, k: int)
  {
    && MarkerAt(s, i) && i + 7 < k < |s|
    && s[k] == '_'
    && forall j :: i + 7 <= j < k ==> IsWordChar(s[j])
  }

  /** The end of the run of word characters starting at j. */
  function WordRunEnd(s: string, j: nat): (e: nat)
    requires j <= |s|
    ensures j <= e <= |s|
    ensures forall m :: j <= m < e ==> IsWordChar(s[m])
    ensures e == |s| || !IsWordChar(s[e])
    decreases |s| - j
  {
    if j == |s| || !IsWordChar(s[j]) then j else WordRunEnd(s, j + 1)
  }

  /** A run that holds word characters up to k ends after k. */
  lemma {:induction false} WordRunCovers(s: string, j: nat, k: nat)
    requires j <= k < |s|
    requires forall m :: j <= m <= k ==> IsWordChar(s[m])
    ensures k < WordRunEnd(s, j)
    decreases k - j
  {
    if j < k {
      WordRunCovers(s, j + 1, k);
    }
  }

  /** The last underscore in s[lo..hi]. */
  function LastUnderscore(s: string, lo: nat, hi: nat): (r: Option<nat>)
    requires hi <= |s|
    ensures r.Some? ==> lo <= r.value < hi && s[r.value] == '_'
    ensures r.Some? ==> forall m :: r.value < m < hi ==> s[m] != '_'
    ensures r.None? ==> forall m :: lo <= m < hi ==> s[m] != '_'
    decreases hi
  {
    if hi <= lo then None
    else if s[hi - 1] == '_' then Some(hi - 1)
    else LastUnderscore(s, lo, hi - 1)
  }

  /** The match at offset i: `\w+` takes the whole word run, then backs off
      to its last underscore. */
  function MatchAt(s: string, i: nat): (r: Option<nat>)
    requires i <= |s|
    ensures r.Some? ==> IsMatch(s, i, r.value)
  {
    if i + 7 <= |s| && s[i..i + 7] == Marker then LastUnderscore(s, i + 8, WordRunEnd(s, i + 7))
    else None
  }

  /** Greediness: whenever the pattern can match at i ending at k, MatchAt
      finds a match at i ending at k or later. */
  lemma MatchAtGreedy(s: string, i: nat, k: nat)
    requires IsMatch(s, i, k)
    ensures MatchAt(s, i).Some? && k <= MatchAt(s, i).value
  {
    WordRunCovers(s, i + 7, k);
  }

  /** The first offset from i on at which the pattern matches. */
  function FindFrom(s: string, i: nat): (r: Option<(nat, nat)>)
    requires i <= |s|
    ensures r.Some? ==> i <= r.value.0 && IsMatch(s, r.value.0, r.value.1)
    decreases |s| - i
  {
    if i == |s| then None
    else match MatchAt(s, i)
      case Some(k) => Some((i, k))
      case None => FindFrom(s, i + 1)
  }

  lemma {:induction false} FindFromLeftmost(s: string, i: nat, i': nat, k': nat)
    requires i <= i' && IsMatch(s, i', k')
    ensures FindFrom(s, i).Some?
    ensures FindFrom(s, i).value.0 < i' || (FindFrom(s, i).value.0 == i' && k' <= FindFrom(s, i).value.1)
    decreases |s| - i
  {
    if i == i' {
      MatchAtGreedy(s, i, k');
    } else {
      FindFromLeftmost(s, i + 1, i', k');
    }
  }

  /** preg_match's match: the leftmost offset, and there the longest capture. */
  function FindExport(s: string): Option<(nat, nat)>
  {
    FindFrom(s, 0)
  }

  /** The match found is a match, no match starts further left, none at the
      same offset ends later, and there is none exactly when none is found. */
  lemma FindExportLeftmostGreedy(s: string)
    ensures FindExport(s).Some? ==> IsMatch(s, FindExport(s).value.0, FindExport(s).value.1)
    ensures forall i, k :: IsMatch(s, i, k) ==>
      && FindExport(s).Some?
      && (FindExport(s).value.0 < i || (FindExport(s).value.0 == i && k <= FindExport(s).value.1))
    ensures FindExport(s).None? <==> forall i, k :: !IsMatch(s, i, k)
  {
    forall i, k | IsMatch(s, i, k)
      ensures FindExport(s).Some?
      ensures FindExport(s).value.0 < i || (FindExport(s).value.0 == i && k <= FindExport(s).value.1)
    {
      FindFromLeftmost(s, 0, i, k);
    }
  }

  /** `$matches[1]`: the captured word characters. */
  function Capture(s: string): (r: Option<string>)
    ensures r.Some? ==> |r.value| >= 1 && forall j :: 0 <= j < |r.value| ==> IsWordChar(r.value[j])
    ensures r.Some? <==> FindExport(s).Some?
  {
    match FindExport(s)
    case Some((i, k)) => Some(s[i + 7..k])
    case None => None
  }

  /** getSegmentationFromFile. */
  function SegmentationFromFile(filename: string): (r: string)
    ensures Capture(filename).None? ==> r == "Unknown"
    ensures Capture(filename).Some? ==>
      |r| == |Capture(filename).value| && r[1..] == Capture(filename).value[1..]
      && r[0] == ToUpperChar(Capture(filename).value[0])
  {
    match Capture(filename)
    case Some(c) => Ucfirst(c)
    case None => "Unknown"
  }

  lemma UcfirstUnknown(c: string)
    ensures Ucfirst(c) == "Unknown" <==> c in {"unknown", "Unknown"}
  {
    var r := Ucfirst(c);
    if r == "Unknown" {
      assert c[1..] == r[1..] == "nknown";
      assert c[0] == 'u' || c[0] == 'U';
      assert c == [c[0]] + c[1..];
    }
    if c == "unknown" || c == "Unknown" {
      assert r[0] == 'U';
      assert r[1..] == c[1..] == "nknown";
      assert r == [r[0]] + r[1..];
    }
  }

  /** "Unknown" comes back both when nothing matches and when the capture is
      itself "unknown" or "Unknown". */
  lemma SegmentationUnknown(filename: string)
    ensures SegmentationFromFile(filename) == "Unknown" <==>
      Capture(filename).None? || Capture(filename).value in {"unknown", "Unknown"}
  {
    if Capture(filename).Some? {
      UcfirstUnknown(Capture(filename).value);
    }
  }

  const ExampleName: string := "export_cluster_20240101_1.csv"

  lemma ExampleMatches()
    ensures IsMatch(ExampleName, 0, 23)
    ensures forall m :: 23 < m < |ExampleName| ==> ExampleName[m] != '_'
  {
    assert ExampleName[..7] == Marker;
  }

  lemma ExampleCapture()
    ensures ExampleName[7..23] == "cluster_20240101"
  {
    var b := "cluster_20240101";
    assert ExampleName == Marker + b + "_1.csv";
    assert (Marker + b + "_1.csv")[7..23] == b;
  }

  /** A match at offset 0 with no underscore after it is the capture. */
  lemma CaptureAtStart(s: string, k: nat)
    requires IsMatch(s, 0, k)
    requires forall m :: k < m < |s| ==> s[m] != '_'
    ensures Capture(s) == Some(s[7..k])
  {
    FindExportLeftmostGreedy(s);
  }

  /** The greedy capture runs to the last underscore of the word run:
      export_cluster_20240101_1.csv is read as Cluster_20240101. */
  lemma SegmentationExample()
    ensures SegmentationFromFile(ExampleName) == "Cluster_20240101"
  {
    ExampleMatches();
    CaptureAtStart(ExampleName, 23);
    ExampleCapture();
    UcfirstCluster();
  }

  lemma UcfirstCluster()
    ensures Ucfirst("cluster_20240101") == "Cluster_20240101"
  {
    var r := Ucfirst("cluster_20240101");
    assert r == [r[0]] + r[1..];
  }

  /** The CSV and spreadsheet exports log files named by a timestamp,
      `<dir>/export_<digits><ext>`; with no other underscore in the name the
      pattern finds no second underscore and such rows read as Unknown. */
  lemma TimestampFileNameUnknown(dir: string, stamp: string, ext: string)
    requires '_' !in dir && '_' !in ext
    requires forall j :: 0 <= j < |stamp| ==> IsDigit(stamp[j])
    ensures SegmentationFromFile(dir + "/" + Marker + stamp + ext) == "Unknown"
  {
    var s := dir + "/" + Marker + stamp + ext;
    var u := |dir| + 7;
    forall m | 0 <= m < |s| && m != u ensures s[m] != '_' {
      if m < |dir| {
        assert s[m] == dir[m];
      } else if m < u {
        assert s[m] == ("/" + Marker)[m - |dir|];
      } else if m < u + 1 + |stamp| {
        assert s[m] == stamp[m - u - 1];
      } else {
        assert s[m] == ext[m - u - 1 - |stamp|];
      }
    }
    forall i | MarkerAt(s, i) ensures i + 6 == u {
      assert s[i + 6] == s[i..i + 7][6];
    }
    FindExportLeftmostGreedy(s);
  }

  // ---------------------------------------------------------------------------
  // Column summary (lines 116-121)
  // ---------------------------------------------------------------------------

  /** The cell text: the first names joined by ", ", and "+n" for the rest. */
  datatype ColumnSummary = ColumnSummary(shown: string, more: Option<nat>)

  function SummarizeColumns(exported: string): (r: ColumnSummary)
    ensures var names := Split(exported, ',');
      && (r.more.Some? <==> |names| > 3)
      && (r.more.Some? ==> r.more.value == |names| - 3)
  {
    var names := Split(exported, ',');
    ColumnSummary(Join(ArraySlice(names, 0, 3), ", "), if |names| > 3 then Some(|names| - 3) else None)
  }

  /** Read back from a logged record, the summary shows the first three of
      the exported columns and counts the rest. */
  lemma LoggedColumnsSummary(columns: seq<string>)
    requires |columns| >= 1
    requires forall i :: 0 <= i < |columns| ==> ',' !in columns[i]
    ensures var shown := if |columns| < 3 then |columns| else 3;
      SummarizeColumns(Join(columns, ",")) ==
        ColumnSummary(Join(columns[..shown], ", "), if |columns| > 3 then Some(|columns| - 3) else None)
  {
    ExportFunctions.LoggedColumnsRoundTrip(columns);
    var shown := if |columns| < 3 then |columns| else 3;
    assert ArraySlice(columns, 0, 3) == columns[..shown];
  }

  // ---------------------------------------------------------------------------
  // One table row (lines 97-124)
  // ---------------------------------------------------------------------------

  /** What a row of the table shows from its record: the segmentation badge,
      the colour of the format badge, and the column summary. A NULL field
      reads as "". */
  datatype HistoryRow = HistoryRow(segmentation: string, colour: Colour, columns: ColumnSummary)

  function ShowRecord(e: ExportFunctions.ExportRecord): HistoryRow
  {
    HistoryRow(
      SegmentationFromFile(StringOf(e.exportFile)),
      FormatColor(StringOf(e.exportType)),
      SummarizeColumns(StringOf(e.exportedColumns)))
  }

  /** A record written by logExport shows its file's segmentation, its
      type's colour and the first three of its columns. */
  lemma LoggedRecordShown(exportType: string, columns: seq<string>, file: string)
    requires |columns| >= 1
    requires forall i :: 0 <= i < |columns| ==> ',' !in columns[i]
    ensures var shown := if |columns| < 3 then |columns| else 3;
      ShowRecord(ExportFunctions.ExportRecord(Some(exportType), None, Some(Join(columns, ",")), Some(file))) ==
        HistoryRow(SegmentationFromFile(file), FormatColor(exportType),
          ColumnSummary(Join(columns[..shown], ", "), if |columns| > 3 then Some(|columns| - 3) else None))
  {
    LoggedColumnsSummary(columns);
  }

  /** A record of the column CSV download shows "Unknown" and the neutral
      colour, since its type and file are NULL although its format is 'CSV';
      its JSON column text still yields the right "+n" count. */
  lemma ColumnExportRecordShown(columns: seq<string>)
    ensures var n := |ColumnCsvExport.ArrayIntersect(columns, ColumnCsvExport.AllowedColumns)|;
      var row := ShowRecord(ExportFunctions.ExportRecord(None, Some("CSV"), Some(ColumnCsvExport.ColumnsJson(columns)), None));
      && row.segmentation == "Unknown"
      && row.colour == Secondary
      && row.columns.more == if n > 3 then Some(n - 3) else None
  {
    ColumnCsvExport.ColumnsJsonPieces(columns);
  }

  // ---------------------------------------------------------------------------
  // Most-common statistics (lines 152-174)
  // ---------------------------------------------------------------------------

  /** How often v occurs in xs. */
  function Occurrences(xs: seq<string>, v: string): (n: nat)
    ensures n <= |xs|
  {
    if xs == [] then 0
    else Occurrences(xs[..|xs| - 1], v) + (if xs[|xs| - 1] == v then 1 else 0)
  }

  lemma {:induction false} OccurrencesPositive(xs: seq<string>, v: string)
    ensures Occurrences(xs, v) > 0 <==> v in xs
  {
    if xs != [] {
      OccurrencesPositive(xs[..|xs| - 1], v);
      assert xs == xs[..|xs| - 1] + [xs[|xs| - 1]];
    }
  }

  /** array_count_values: each distinct value once, in first-occurrence
      order, with its number of occurrences. */
  method CountValues(values: seq<string>) returns (counts: OrderedMap<nat>)
    ensures counts.Valid()
    ensures counts.keys == FirstSeen(values)
    ensures forall v :: v in counts.values ==> counts.values[v] == Occurrences(values, v)
  {
    counts := EmptyMap();
    for i := 0 to |values|
      invariant counts.Valid()
      invariant counts.keys == FirstSeen(values[..i])
      invariant forall v :: v in counts.values ==> counts.values[v] == Occurrences(values[..i], v)
    {
      var v := values[i];
      assert values[..i + 1][..i] == values[..i];
      FirstSeenSpec(values[..i]);
      if v in counts.values {
        counts := counts.Put(v, counts.values[v] + 1);
      } else {
        OccurrencesPositive(values[..i], v);
        counts := counts.Put(v, 1);
      }
      forall w | w in counts.values ensures counts.values[w] == Occurrences(values[..i + 1], w) {
        if w != v {
          assert w in values[..i] by {
            FirstSeenSpec(values[..i]);
          }
        }
      }
    }
    assert values[..|values|] == values;
  }

  /** The most frequent value: its count is its frequency, no value is more
      frequent, and among equally frequent values it is the one that shows
      up first (arsort keeps equal counts in insertion order and key() takes
      the first). */
  method MostCommon(values: seq<string>) returns (found: bool, top: string, count: nat)
    ensures found <==> |values| > 0
    ensures found ==> top in values && count == Occurrences(values, top)
    ensures found ==> forall j :: 0 <= j < |values| ==> Occurrences(values, values[j]) <= count
    ensures found ==> forall j :: 0 <= j < |values| && Occurrences(values, values[j]) == count ==> top in values[..j + 1]
  {
    var counts := CountValues(values);
    var keys := counts.keys;
    if |values| == 0 {
      return false, "", 0;
    }
    assert |keys| > 0 by {
      FirstSeenSpec(values);
      assert values[0] in values;
    }
    var best := 0;
    for j := 1 to |keys|
      invariant 0 <= best < j
      invariant forall m :: 0 <= m < j ==> counts.values[keys[m]] <= counts.values[keys[best]]
      invariant forall m :: 0 <= m < best ==> counts.values[keys[m]] < counts.values[keys[best]]
    {
      if counts.values[keys[j]] > counts.values[keys[best]] {
        best := j;
      }
    }
    found, top, count := true, keys[best], counts.values[keys[best]];
    assert forall m :: 0 <= m < |keys| ==> counts.values[keys[m]] == Occurrences(values, keys[m]) by {
      assert forall m :: 0 <= m < |keys| ==> keys[m] in counts.values;
    }
    FirstMaximum(values, best);
    assert top in values by {
      FirstSeenSpec(values);
    }
  }

  /** The key at position `best` of the array_count_values order, when no
      key is more frequent and every earlier key is less frequent, is a most
      frequent value, and it occurs no later than any value as frequent. */
  lemma FirstMaximum(values: seq<string>, best: nat)
    requires best < |FirstSeen(values)|
    requires forall m :: 0 <= m < |FirstSeen(values)| ==>
      Occurrences(values, FirstSeen(values)[m]) <= Occurrences(values, FirstSeen(values)[best])
    requires forall m :: 0 <= m < best ==>
      Occurrences(values, FirstSeen(values)[m]) < Occurrences(values, FirstSeen(values)[best])
    ensures forall j :: 0 <= j < |values| ==>
      Occurrences(values, values[j]) <= Occurrences(values, FirstSeen(values)[best])
    ensures forall j :: 0 <= j < |values| && Occurrences(values, values[j]) == Occurrences(values, FirstSeen(values)[best]) ==>
      FirstSeen(values)[best] in values[..j + 1]
  {
    var keys := FirstSeen(values);
    var top := keys[best];
    FirstSeenSpec(values);
    forall j | 0 <= j < |values| ensures Occurrences(values, values[j]) <= Occurrences(values, top) {
      assert values[j] in values;
      var q :| 0 <= q < |keys| && keys[q] == values[j];
    }
    forall j | 0 <= j < |values| && Occurrences(values, values[j]) == Occurrences(values, top)
      ensures top in values[..j + 1]
    {
      var x := values[j];
      assert x in values;
      var q :| 0 <= q < |keys| && keys[q] == x;
      assert best <= q;
      var p := FirstSeen(values[..j + 1]);
      FirstSeenPrefix(values, j + 1);
      FirstSeenSpec(values[..j + 1]);
      assert x in p by {
        assert values[..j + 1][j] == x;
      }
      var q' :| 0 <= q' < |p| && p[q'] == x;
      assert keys[q'] == x;
      assert q' == q;
      assert p[best] == top;
    }
  }

  /** A statistic line: a name with its count, N/A, or the blank line
      `" ()"` that `key()` of an empty count array prints. */
  datatype Statistic = NotAvailable | Blank | Top(name: string, count: nat)

  /** array_column($exports, 'export_type'): every record has the key, so
      NULL types stay in the column. */
  function ExportTypes(exports: seq<ExportFunctions.ExportRecord>): seq<Option<string>>
  {
    seq(|exports|, i requires 0 <= i < |exports| => exports[i].exportType)
  }

  /** The entries array_count_values counts: it skips NULLs (with a warning)
      and keeps the strings in order. */
  function Countable(xs: seq<Option<string>>): (r: seq<string>)
    ensures |r| <= |xs|
  {
    if xs == [] then []
    else Countable(xs[..|xs| - 1]) + (if xs[|xs| - 1].Some? then [xs[|xs| - 1].value] else [])
  }

  /** The counted strings are exactly the non-NULL entries: nothing is
      counted iff every entry is NULL. */
  lemma {:induction false} CountableMembers(xs: seq<Option<string>>)
    ensures forall v :: v in Countable(xs) <==> Some(v) in xs
    ensures Countable(xs) == [] <==> forall i :: 0 <= i < |xs| ==> xs[i].None?
  {
    if xs != [] {
      var init := xs[..|xs| - 1];
      CountableMembers(init);
      assert xs == init + [xs[|xs| - 1]];
      if Countable(xs) == [] {
        forall i | 0 <= i < |xs| ensures xs[i].None? {
          if i < |init| {
            assert xs[i] == init[i];
          }
        }
      }
    }
  }

  /** Most Common Format: the most frequent non-NULL export_type, first
      letter upper-cased; the blank line when every type is NULL. */
  method MostCommonFormat(exports: seq<ExportFunctions.ExportRecord>) returns (stat: Statistic)
    ensures !stat.NotAvailable?
    ensures stat.Blank? <==> forall i :: 0 <= i < |exports| ==> exports[i].exportType.None?
    ensures stat.Top? ==>
      exists f :: Some(f) in ExportTypes(exports) && stat.name == Ucfirst(f)
        && stat.count == Occurrences(Countable(ExportTypes(exports)), f)
    ensures stat.Top? ==> forall i :: 0 <= i < |exports| && exports[i].exportType.Some? ==>
      Occurrences(Countable(ExportTypes(exports)), exports[i].exportType.value) <= stat.count
  {
    var column := ExportTypes(exports);
    var types := Countable(column);
    CountableMembers(column);
    var found, top, count := MostCommon(types);
    if found {
      stat := Top(Ucfirst(top), count);
      forall i | 0 <= i < |exports| && exports[i].exportType.Some?
        ensures Occurrences(types, exports[i].exportType.value) <= count
      {
        assert column[i] == exports[i].exportType;
        var j :| 0 <= j < |types| && types[j] == exports[i].exportType.value;
      }
    } else {
      stat := Blank;
      forall i | 0 <= i < |exports| ensures exports[i].exportType.None? {
        assert column[i] == exports[i].exportType;
      }
    }
  }

  /** The captures of the file names that match, in order. */
  function Captures(files: seq<string>): (r: seq<string>)
    ensures |r| <= |files|
  {
    if files == [] then []
    else
      var last := files[|files| - 1];
      Captures(files[..|files| - 1]) + (if Capture(last).Some? then [Capture(last).value] else [])
  }

  lemma {:induction false} CapturesEmpty(files: seq<string>)
    ensures Captures(files) == [] <==> forall i :: 0 <= i < |files| ==> Capture(files[i]).None?
  {
    if files != [] {
      CapturesEmpty(files[..|files| - 1]);
    }
  }

  /** The loop over the export rows that collects each matching file name's
      capture. */
  method CollectTypes(files: seq<string>) returns (types: seq<string>)
    ensures types == Captures(files)
  {
    types := [];
    for i := 0 to |files|
      invariant types == Captures(files[..i])
    {
      assert files[..i + 1][..i] == files[..i];
      var c := Capture(files[i]);
      if c.Some? {
        types := types + [c.value];
      }
    }
    assert files[..|files|] == files;
  }

  /** The file names the loop matches; preg_match reads a NULL file as "". */
  function ExportFiles(exports: seq<ExportFunctions.ExportRecord>): seq<string>
  {
    seq(|exports|, i requires 0 <= i < |exports| => StringOf(exports[i].exportFile))
  }

  /** Most Common Type: N/A exactly when no file name matches; otherwise the
      most frequent capture, first letter upper-cased. */
  method MostCommonType(exports: seq<ExportFunctions.ExportRecord>) returns (stat: Statistic)
    ensures !stat.Blank?
    ensures stat.NotAvailable? <==> forall i :: 0 <= i < |exports| ==> Capture(StringOf(exports[i].exportFile)).None?
    ensures stat.Top? ==>
      exists t :: t in Captures(ExportFiles(exports)) && stat.name == Ucfirst(t) && stat.count == Occurrences(Captures(ExportFiles(exports)), t)
    ensures stat.Top? ==> forall t :: t in Captures(ExportFiles(exports)) ==> Occurrences(Captures(ExportFiles(exports)), t) <= stat.count
  {
    var files := ExportFiles(exports);
    assert forall i :: 0 <= i < |exports| ==> files[i] == StringOf(exports[i].exportFile);
    var types := CollectTypes(files);
    CapturesEmpty(files);
    var found, top, count := MostCommon(types);
    if found {
      stat := Top(Ucfirst(top), count);
    } else {
      stat := NotAvailable;
    }
  }
}
