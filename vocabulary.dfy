/** The fixed vocabularies shared by the API and the export pages: the seven
    segmentation types and the three export formats, with their wire names. */
module Vocabulary {
  import opened PhpLib

  datatype SegType = Gender | Region | AgeGroup | IncomeBracket | Cluster | PurchaseTier | Clv

  /** The wire name of a segmentation type, as listed in `$valid_types`. */
  function SegName(t: SegType): string
  {
    match t
    case Gender => "gender"
    case Region => "region"
    case AgeGroup => "age_group"
    case IncomeBracket => "income_bracket"
    case Cluster => "cluster"
    case PurchaseTier => "purchase_tier"
    case Clv => "clv"
  }

  /** `$valid_types` / `$validSegmentations`, in source order. */
  const ValidSegNames: seq<string> :=
    ["gender", "region", "age_group", "income_bracket", "cluster", "purchase_tier", "clv"]

  /** in_array($s, $valid_types): the names are non-numeric, so PHP's loose
      comparison is plain string equality here. */
  function ParseSegType(s: string): (r: Option<SegType>)
    ensures r.Some? <==> s in ValidSegNames
    ensures r.Some? ==> SegName(r.value) == s
  {
    if s == "gender" then Some(Gender)
    else if s == "region" then Some(Region)
    else if s == "age_group" then Some(AgeGroup)
    else if s == "income_bracket" then Some(IncomeBracket)
    else if s == "cluster" then Some(Cluster)
    else if s == "purchase_tier" then Some(PurchaseTier)
    else if s == "clv" then Some(Clv)
    else None
  }

  /** Every type's name parses back to the type, and every name is listed. */
  lemma ParseSegName(t: SegType)
    ensures ParseSegType(SegName(t)) == Some(t)
    ensures SegName(t) in ValidSegNames
  {
  }

  datatype ExportFormat = Csv | Excel | Pdf

  function FormatName(f: ExportFormat): string
  {
    match f
    case Csv => "csv"
    case Excel => "excel"
    case Pdf => "pdf"
  }

  const ValidFormatNames: seq<string> := ["csv", "excel", "pdf"]

  function ParseFormat(s: string): (r: Option<ExportFormat>)
    ensures r.Some? <==> s in ValidFormatNames
    ensures r.Some? ==> FormatName(r.value) == s
  {
    if s == "csv" then Some(Csv)
    else if s == "excel" then Some(Excel)
    else if s == "pdf" then Some(Pdf)
    else None
  }

  lemma ParseFormatName(f: ExportFormat)
    ensures ParseFormat(FormatName(f)) == Some(f)
  {
  }

  /** A database row fetched with PDO::FETCH_ASSOC: each selected column is a
      key, whose value is None when the column holds SQL NULL. A key that is
      absent is a column the query did not select. */
  type Row = map<string, Option<string>>

  /** `$row[$key] ?? $default`: the stored value, or the default when the
      column is missing or NULL (`??` treats the two alike). */
  function FieldOr(row: Row, key: string, default: string): string
  {
    if key in row && row[key].Some? then row[key].value else default
  }
}
