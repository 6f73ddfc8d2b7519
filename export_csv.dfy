/** export_csv.php: the column download. The requested columns are cut down
    to an allowlist, the query gets one optional segment filter with a
    positional parameter, and the CSV header is the surviving column list. */
module ColumnCsvExport {
  import opened PhpLib
  import ExportFunctions

  const AllowedColumns: seq<string> :=
    ["segment_id", "user_name", "age_group", "region", "segment_label", "confidence_score"]

  /** array_intersect(columns, allowed): the requested columns that are
      allowed, in request order, duplicates kept. */
  function ArrayIntersect(columns: seq<string>, allowed: seq<string>): (r: seq<string>)
    ensures |r| <= |columns|
    ensures forall c :: c in r <==> c in columns && c in allowed
  {
    if columns == [] then []
    else
      var init := ArrayIntersect(columns[..|columns| - 1], allowed);
      var last := columns[|columns| - 1];
      assert columns == columns[..|columns| - 1] + [last];
      if last in allowed then init + [last] else init
  }

  /** Filtering twice changes nothing, and a request made only of allowed
      columns passes through whole. */
  lemma {:induction false} ArrayIntersectIdempotent(columns: seq<string>, allowed: seq<string>)
    ensures ArrayIntersect(ArrayIntersect(columns, allowed), allowed) == ArrayIntersect(columns, allowed)
  {
    ArrayIntersectKeepsAllowed(ArrayIntersect(columns, allowed), allowed);
  }

  lemma {:induction false} ArrayIntersectKeepsAllowed(columns: seq<string>, allowed: seq<string>)
    requires forall i :: 0 <= i < |columns| ==> columns[i] in allowed
    ensures ArrayIntersect(columns, allowed) == columns
  {
    if columns != [] {
      ArrayIntersectKeepsAllowed(columns[..|columns| - 1], allowed);
      assert columns == columns[..|columns| - 1] + [columns[|columns| - 1]];
    }
  }

  /** array_intersect works column by column: the result for a request made
      of two parts is the two results one after the other, so the survivors
      keep their request order and every repetition. */
  lemma {:induction false} ArrayIntersectAppend(a: seq<string>, b: seq<string>, allowed: seq<string>)
    ensures ArrayIntersect(a + b, allowed) == ArrayIntersect(a, allowed) + ArrayIntersect(b, allowed)
  {
    if b == [] {
      assert a + b == a;
    } else {
      var init := b[..|b| - 1];
      ArrayIntersectAppend(a, init, allowed);
      assert (a + b)[..|a + b| - 1] == a + init;
      assert (a + b)[|a + b| - 1] == b[|b| - 1];
    }
  }

  /** The keys array_intersect keeps: each survivor stays under its request
      index. */
  function KeptKeys(columns: seq<string>, allowed: seq<string>): seq<nat>
  {
    if columns == [] then []
    else
      var init := KeptKeys(columns[..|columns| - 1], allowed);
      if columns[|columns| - 1] in allowed then init + [|columns| - 1] else init
  }

  lemma {:induction false} KeptKeysLength(columns: seq<string>, allowed: seq<string>)
    ensures |KeptKeys(columns, allowed)| == |ArrayIntersect(columns, allowed)|
  {
    if columns != [] {
      KeptKeysLength(columns[..|columns| - 1], allowed);
    }
  }

  /** Every kept key is the position of an allowed column. */
  lemma {:induction false} KeptKeysBound(columns: seq<string>, allowed: seq<string>)
    ensures forall i :: 0 <= i < |KeptKeys(columns, allowed)| ==>
      KeptKeys(columns, allowed)[i] < |columns| && columns[KeptKeys(columns, allowed)[i]] in allowed
  {
    if columns != [] {
      var init := columns[..|columns| - 1];
      KeptKeysBound(init, allowed);
      var r0 := KeptKeys(init, allowed);
      var r := KeptKeys(columns, allowed);
      assert r == r0 + (if columns[|columns| - 1] in allowed then [|init|] else []);
      forall i | 0 <= i < |r0| ensures r[i] < |columns| && columns[r[i]] in allowed {
        assert r[i] == r0[i];
        assert columns[r0[i]] == init[r0[i]];
      }
    }
  }

  /** The value under each kept key is the column requested there. */
  lemma {:induction false} KeptKeysIndex(columns: seq<string>, allowed: seq<string>)
    ensures |KeptKeys(columns, allowed)| == |ArrayIntersect(columns, allowed)|
    ensures forall i :: 0 <= i < |KeptKeys(columns, allowed)| ==>
      KeptKeys(columns, allowed)[i] < |columns| && columns[KeptKeys(columns, allowed)[i]] == ArrayIntersect(columns, allowed)[i]
  {
    KeptKeysLength(columns, allowed);
    if columns != [] {
      var init := columns[..|columns| - 1];
      var last := columns[|columns| - 1];
      KeptKeysIndex(init, allowed);
      var r0 := KeptKeys(init, allowed);
      var a0 := ArrayIntersect(init, allowed);
      var r := KeptKeys(columns, allowed);
      var a := ArrayIntersect(columns, allowed);
      assert r == r0 + (if last in allowed then [|init|] else []);
      assert a == a0 + (if last in allowed then [last] else []);
      forall i | 0 <= i < |r0| ensures r[i] < |columns| && columns[r[i]] == a[i] {
        assert r[i] == r0[i] && a[i] == a0[i];
        assert columns[r0[i]] == init[r0[i]];
      }
    }
  }

  /** The kept keys increase. */
  lemma {:induction false} KeptKeysIncreasing(columns: seq<string>, allowed: seq<string>)
    ensures forall i, j :: 0 <= i < j < |KeptKeys(columns, allowed)| ==>
      KeptKeys(columns, allowed)[i] < KeptKeys(columns, allowed)[j]
  {
    if columns != [] {
      var init := columns[..|columns| - 1];
      KeptKeysIncreasing(init, allowed);
      KeptKeysBound(init, allowed);
      var r0 := KeptKeys(init, allowed);
      var r := KeptKeys(columns, allowed);
      assert r == r0 + (if columns[|columns| - 1] in allowed then [|init|] else []);
      forall i, j | 0 <= i < j < |r| ensures r[i] < r[j] {
        assert r[i] == r0[i];
        if j < |r0| {
          assert r[j] == r0[j];
        }
      }
    }
  }

  /** Every position of an allowed column is kept. */
  lemma {:induction false} KeptKeysCover(columns: seq<string>, allowed: seq<string>)
    ensures forall k :: 0 <= k < |columns| && columns[k] in allowed ==> k in KeptKeys(columns, allowed)
  {
    if columns != [] {
      var init := columns[..|columns| - 1];
      KeptKeysCover(init, allowed);
      var r0 := KeptKeys(init, allowed);
      var r := KeptKeys(columns, allowed);
      assert r == r0 + (if columns[|columns| - 1] in allowed then [|init|] else []);
      forall k | 0 <= k < |columns| && columns[k] in allowed ensures k in r {
        if k < |init| {
          assert init[k] == columns[k];
          assert k in r0;
        }
      }
    }
  }

  /** array_intersect is the subsequence of the allowed columns, in request
      order and with every repetition: its keys, increasing, are exactly the
      positions of the allowed columns, and the value under each key is the
      column requested there. */
  lemma ArrayIntersectKeys(columns: seq<string>, allowed: seq<string>)
    ensures var r := KeptKeys(columns, allowed);
      && |r| == |ArrayIntersect(columns, allowed)|
      && (forall i :: 0 <= i < |r| ==>
            r[i] < |columns| && columns[r[i]] == ArrayIntersect(columns, allowed)[i] && columns[r[i]] in allowed)
      && (forall i, j :: 0 <= i < j < |r| ==> r[i] < r[j])
      && (forall k :: 0 <= k < |columns| && columns[k] in allowed ==> k in r)
  {
    KeptKeysIndex(columns, allowed);
    KeptKeysBound(columns, allowed);
    KeptKeysIncreasing(columns, allowed);
    KeptKeysCover(columns, allowed);
  }

  lemma NoPlaceholderInAllowed(c: string)
    requires c in AllowedColumns
    ensures '?' !in c
  {
  }

  const SelectHead := "SELECT "
  const SelectTail := " FROM segmentation_results WHERE 1=1"
  const SegmentTest := " AND segment_label = "
  const SegmentCondition := " AND segment_label = ?"

  /** The query text for the kept columns, with or without the segment
      condition. */
  function ColumnQuery(kept: seq<string>, bySegment: bool): string
  {
    SelectHead + Join(kept, ", ") + SelectTail + (if bySegment then SegmentCondition else "")
  }

  lemma TestCount()
    ensures Count(SegmentTest, '?') == 0
  {
    assert '?' !in SegmentTest;
    CountAbsent(SegmentTest, '?');
  }

  lemma MarkCount()
    ensures Count(['?'], '?') == 1
  {
    var q := ['?'];
    assert q[1..] == [];
  }

  lemma ConditionSplit()
    ensures SegmentCondition == SegmentTest + ['?']
  {
  }

  lemma ConditionCount()
    ensures Count(SegmentCondition, '?') == 1
  {
    TestCount();
    MarkCount();
    ConditionSplit();
    CountAppend(SegmentTest, ['?'], '?');
  }

  lemma CountAfterFree(a: string, b: string, c: string, d: string, ch: char)
    requires ch !in a && ch !in b && ch !in c
    ensures Count(a + b + c + d, ch) == Count(d, ch)
  {
    CountAbsent(a, ch);
    CountAbsent(b, ch);
    CountAbsent(c, ch);
    CountAppend(a, b, ch);
    CountAppend(a + b, c, ch);
    CountAppend(a + b + c, d, ch);
  }

  /** The only placeholder the query can hold is the segment condition's:
      allowlisted column names contain none. */
  lemma ColumnQueryPlaceholders(kept: seq<string>, bySegment: bool)
    requires forall i :: 0 <= i < |kept| ==> kept[i] in AllowedColumns
    ensures Count(ColumnQuery(kept, bySegment), '?') == if bySegment then 1 else 0
  {
    forall i | 0 <= i < |kept| ensures '?' !in kept[i] {
      NoPlaceholderInAllowed(kept[i]);
    }
    JoinAvoids(kept, ", ", '?');
    assert '?' !in SelectHead && '?' !in SelectTail;
    if bySegment {
      ConditionCount();
      CountAfterFree(SelectHead, Join(kept, ", "), SelectTail, SegmentCondition, '?');
    } else {
      CountAfterFree(SelectHead, Join(kept, ", "), SelectTail, "", '?');
    }
  }

  // ---------------------------------------------------------------------------
  // The log record (lines 42-45)
  // ---------------------------------------------------------------------------

  /** A JSON string for a name that needs no escaping. */
  function JsonString(s: string): string
  {
    "\"" + s + "\""
  }

  /** The decimal digits of an array key. */
  function DecimalText(n: nat): (r: string)
    ensures |r| >= 1 && forall i :: 0 <= i < |r| ==> IsDigit(r[i])
  {
    if n < 10 then [('0' as int + n) as char] else DecimalText(n / 10) + DecimalText(n % 10)
  }

  /** The members of a JSON list of names, and of a JSON object keyed by
      array index. */
  function ListMembers(items: seq<string>): (r: seq<string>)
    ensures |r| == |items|
  {
    seq(|items|, i requires 0 <= i < |items| => JsonString(items[i]))
  }

  function ObjectMembers(keys: seq<nat>, items: seq<string>): (r: seq<string>)
    requires |keys| == |items|
    ensures |r| == |items|
  {
    seq(|items|, i requires 0 <= i < |items| => JsonString(DecimalText(keys[i])) + ":" + JsonString(items[i]))
  }

  /** json_encode of the filtered column array. It is a JSON list when the
      surviving keys are 0, 1, 2, ..., which holds when the allowed columns
      lead the request; otherwise array_intersect has left a gap in the keys
      and json_encode writes an object keyed by request index. */
  function ColumnsJson(columns: seq<string>): string
  {
    var kept := ArrayIntersect(columns, AllowedColumns);
    var keys := KeptKeys(columns, AllowedColumns);
    KeptKeysLength(columns, AllowedColumns);
    if forall i :: 0 <= i < |keys| ==> keys[i] == i then "[" + Join(ListMembers(kept), ",") + "]"
    else "{" + Join(ObjectMembers(keys, kept), ",") + "}"
  }

  lemma NoCommaInAllowed(c: string)
    requires c in AllowedColumns
    ensures ',' !in c
  {
  }

  lemma NoCommaInDecimal(n: nat)
    ensures ',' !in DecimalText(n)
  {
  }

  /** Comma-free members between comma-free brackets split back into one
      piece per member, or a single piece when there are none. */
  lemma BracketedPieces(open: string, members: seq<string>, close: string)
    requires ',' !in open && ',' !in close
    requires forall i :: 0 <= i < |members| ==> ',' !in members[i]
    ensures |Split(open + Join(members, ",") + close, ',')| == if |members| == 0 then 1 else |members|
  {
    JoinCount(members, ',');
    CountAbsent(open, ',');
    CountAbsent(close, ',');
    CountAppend(open, Join(members, ","), ',');
    CountAppend(open + Join(members, ","), close, ',');
    SplitLength(open + Join(members, ",") + close, ',');
  }

  /** The members of either JSON form hold no comma when the names hold none. */
  lemma MembersCommaFree(keys: seq<nat>, items: seq<string>)
    requires |keys| == |items|
    requires forall i :: 0 <= i < |items| ==> ',' !in items[i]
    ensures forall i :: 0 <= i < |items| ==> ',' !in ListMembers(items)[i]
    ensures forall i :: 0 <= i < |items| ==> ',' !in ObjectMembers(keys, items)[i]
  {
    forall i | 0 <= i < |items| ensures ',' !in ObjectMembers(keys, items)[i] {
      NoCommaInDecimal(keys[i]);
    }
  }

  /** The logged JSON splits on ',' into one piece per kept column (one
      piece, "[]", when none is kept), so the history page counts the
      columns right. */
  lemma ColumnsJsonPieces(columns: seq<string>)
    ensures var n := |ArrayIntersect(columns, AllowedColumns)|;
      |Split(ColumnsJson(columns), ',')| == if n == 0 then 1 else n
  {
    var kept := ArrayIntersect(columns, AllowedColumns);
    var keys := KeptKeys(columns, AllowedColumns);
    KeptKeysLength(columns, AllowedColumns);
    forall i | 0 <= i < |kept| ensures ',' !in kept[i] {
      assert kept[i] in kept;
      NoCommaInAllowed(kept[i]);
    }
    MembersCommaFree(keys, kept);
    if forall i :: 0 <= i < |keys| ==> keys[i] == i {
      BracketedPieces("[", ListMembers(kept), "]");
    } else {
      BracketedPieces("{", ObjectMembers(keys, kept), "}");
    }
  }

  /** When the allowed columns all come first, they survive whole under the
      keys 0, 1, 2, .... */
  lemma LeadingKept(columns: seq<string>, rest: seq<string>, allowed: seq<string>)
    requires forall i :: 0 <= i < |columns| ==> columns[i] in allowed
    requires forall i :: 0 <= i < |rest| ==> rest[i] !in allowed
    ensures ArrayIntersect(columns + rest, allowed) == columns
    ensures forall i :: 0 <= i < |KeptKeys(columns + rest, allowed)| ==> KeptKeys(columns + rest, allowed)[i] == i
  {
    ArrayIntersectAppend(columns, rest, allowed);
    ArrayIntersectKeepsAllowed(columns, allowed);
    ArrayIntersectNone(rest, allowed);
    KeptKeysLength(columns + rest, allowed);
    LeadingKeysBelow(columns, rest, allowed);
    KeptKeysIncreasing(columns + rest, allowed);
    var keys := KeptKeys(columns + rest, allowed);
    forall i | 0 <= i < |keys| ensures keys[i] == i {
      KeysAreIdentity(keys, |columns|, i);
    }
  }

  lemma LeadingKeysBelow(columns: seq<string>, rest: seq<string>, allowed: seq<string>)
    requires forall i :: 0 <= i < |rest| ==> rest[i] !in allowed
    ensures forall j :: 0 <= j < |KeptKeys(columns + rest, allowed)| ==> KeptKeys(columns + rest, allowed)[j] < |columns|
  {
    KeptKeysBound(columns + rest, allowed);
    var all := columns + rest;
    forall j | 0 <= j < |KeptKeys(all, allowed)| ensures KeptKeys(all, allowed)[j] < |columns| {
      var k := KeptKeys(all, allowed)[j];
      assert all[k] in allowed;
    }
  }

  /** A request whose allowed columns all come first is logged as a JSON
      list of them. */
  lemma ColumnsJsonLeading(columns: seq<string>, rest: seq<string>)
    requires forall i :: 0 <= i < |columns| ==> columns[i] in AllowedColumns
    requires forall i :: 0 <= i < |rest| ==> rest[i] !in AllowedColumns
    ensures ColumnsJson(columns + rest) == "[" + Join(ListMembers(columns), ",") + "]"
  {
    LeadingKept(columns, rest, AllowedColumns);
  }

  /** Increasing keys below n, n of them, are 0, 1, ..., n - 1. */
  lemma {:induction false} KeysAreIdentity(keys: seq<nat>, n: nat, i: nat)
    requires |keys| == n && i < n
    requires forall j :: 0 <= j < n ==> keys[j] < n
    requires forall j, k :: 0 <= j < k < n ==> keys[j] < keys[k]
    ensures keys[i] == i
  {
    KeyLowerBound(keys, n, i);
    KeyUpperBound(keys, n, i);
  }

  lemma {:induction false} KeyLowerBound(keys: seq<nat>, n: nat, i: nat)
    requires |keys| == n && i < n
    requires forall j, k :: 0 <= j < k < n ==> keys[j] < keys[k]
    ensures keys[i] >= i
    decreases i
  {
    if i > 0 {
      KeyLowerBound(keys, n, i - 1);
    }
  }

  lemma {:induction false} KeyUpperBound(keys: seq<nat>, n: nat, i: nat)
    requires |keys| == n && i < n
    requires forall j :: 0 <= j < n ==> keys[j] < n
    requires forall j, k :: 0 <= j < k < n ==> keys[j] < keys[k]
    ensures keys[i] <= i
    decreases n - i
  {
    if i + 1 < n {
      KeyUpperBound(keys, n, i + 1);
    }
  }

  lemma {:induction false} ArrayIntersectNone(columns: seq<string>, allowed: seq<string>)
    requires forall i :: 0 <= i < |columns| ==> columns[i] !in allowed
    ensures ArrayIntersect(columns, allowed) == []
  {
    if columns != [] {
      ArrayIntersectNone(columns[..|columns| - 1], allowed);
    }
  }

  /** A disallowed column ahead of an allowed one leaves a gap in the keys,
      and the log records a JSON object rather than a list. */
  lemma ColumnsJsonGap()
    ensures ColumnsJson(["user_id", "region"]) == "{" + JsonString("1") + ":" + JsonString("region") + "}"
  {
    GapKept();
    assert DecimalText(1) == "1";
    var member := JsonString("1") + ":" + JsonString("region");
    assert ObjectMembers([1], ["region"]) == [member];
    assert Join([member], ",") == member;
  }

  /** user_id is refused and region kept under its request index 1. */
  lemma GapKept()
    ensures ArrayIntersect(["user_id", "region"], AllowedColumns) == ["region"]
    ensures KeptKeys(["user_id", "region"], AllowedColumns) == [1]
  {
    var columns := ["user_id", "region"];
    assert columns[..1] == ["user_id"] && ["user_id"][..0] == [];
    assert "user_id" !in AllowedColumns;
  }

  /** The script up to the header row: filter the columns, build the query
      text and its parameter list, and write the filtered columns as the
      header. Every column named in the query is allowlisted, and the query
      has exactly one placeholder per parameter. */
  method BuildColumnExport(columns: seq<string>, segment: Option<string>)
    returns (sql: string, params: seq<string>, header: seq<string>)
    ensures header == ArrayIntersect(columns, AllowedColumns)
    ensures forall i :: 0 <= i < |header| ==> header[i] in AllowedColumns
    ensures sql == ColumnQuery(header, !EmptyString(segment))
    ensures params == if EmptyString(segment) then [] else [segment.value]
    ensures Count(sql, '?') == |params|
  {
    var kept := ArrayIntersect(columns, AllowedColumns);
    var columnList := Join(kept, ", ");
    sql := SelectHead + columnList + SelectTail;
    params := [];
    if !EmptyString(segment) {
      sql := sql + SegmentCondition;
      params := params + [segment.value];
    }
    header := kept;
    forall i | 0 <= i < |header| ensures header[i] in AllowedColumns {
      assert header[i] in header;
    }
    ColumnQueryPlaceholders(header, !EmptyString(segment));
  }

  /** With no allowed column the select list is empty: the text is
      `SELECT  FROM ...`, which no SQL database accepts. */
  lemma EmptySelectList(bySegment: bool)
    ensures StartsWith(ColumnQuery([], bySegment), "SELECT  FROM ")
  {
    var q := ColumnQuery([], bySegment);
    assert Join([], ", ") == "";
    assert q == "SELECT  FROM " + (SelectTail[6..] + (if bySegment then SegmentCondition else ""));
    assert q[..|"SELECT  FROM "|] == "SELECT  FROM ";
  }

  /** The whole download. The database raises on failure and nothing
      catches it, so a failed statement ends the script. The SELECT fails
      when `selectRuns` is false, and always when no requested column is
      allowed, since its column list is then empty (`SELECT  FROM ...`).
      Only when it runs is the CSV header written, as `written`. The log
      insert comes after the file and fails when `insertRuns` is false;
      only when it runs is one record appended, with format 'CSV' and the
      JSON of the kept columns. */
  method RunColumnExport(table: ExportFunctions.ExportsTable, columns: seq<string>, segment: Option<string>,
                         selectRuns: bool, insertRuns: bool)
    returns (sql: string, params: seq<string>, written: Option<seq<string>>)
    modifies table
    ensures sql == ColumnQuery(ArrayIntersect(columns, AllowedColumns), !EmptyString(segment))
    ensures params == if EmptyString(segment) then [] else [segment.value]
    ensures Count(sql, '?') == |params|
    ensures written.Some? <==> selectRuns && ArrayIntersect(columns, AllowedColumns) != []
    ensures written.Some? ==> written.value == ArrayIntersect(columns, AllowedColumns)
    ensures written.Some? && insertRuns ==>
      table.rows == old(table.rows) + [ExportFunctions.ExportRecord(None, Some("CSV"), Some(ColumnsJson(columns)), None)]
    ensures written.None? || !insertRuns ==> table.rows == old(table.rows)
  {
    var header;
    sql, params, header := BuildColumnExport(columns, segment);
    written := None;
    if selectRuns && header != [] {
      written := Some(header);
      if insertRuns {
        table.LogColumnExport(ColumnsJson(columns));
      }
    }
  }
}
