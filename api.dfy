/** The REST router of api/index.php: path normalisation, the first-match
    routing chain and the per-endpoint handlers. Each handler's single
    `http_response_code` + `echo` is a returned Response; database results,
    clock readings and the parsed JSON body are inputs. */
module Api {
  import opened PhpLib
  import opened Vocabulary

  // ---------------------------------------------------------------------------
  // Requests and responses
  // ---------------------------------------------------------------------------

  /** The query-string parameters the handlers read, after PHP's (int) cast. */
  datatype QueryParams = QueryParams(limit: Option<int>, offset: Option<int>)

  /** The fields of the decoded JSON body; a body that is absent or not JSON
      decodes to null, so every field is then None. */
  datatype Body = Body(
    username: Option<string>,
    password: Option<string>,
    nClusters: Option<int>,
    algorithm: Option<string>,
    format: Option<string>)

  const NoBody := Body(None, None, None, None, None)

  datatype Request = Request(verb: string, urlPath: string, query: QueryParams, body: Body)

  /** What a PDO query returns, or the PDOException it throws. */
  datatype QueryResult = Rows(rows: seq<Row>) | DbError(message: string)

  /** The outcome of `SELECT * FROM customers WHERE customer_id = :id LIMIT 1`. */
  datatype CustomerLookup = Found(row: Row) | Missing | LookupError(message: string)

  /** The SQL `buildSegmentationQuery` returns, one constructor per distinct text. */
  datatype SegmentationQuery = GenderQuery | RegionQuery | ClvQuery | AgeGroupQuery | CountQuery

  /** The database and the clock as seen by one request; `t1` and `t2` are two
      successive readings of time(). */
  datatype Env = Env(
    segmentRows: SegmentationQuery -> QueryResult,
    clusterRows: QueryResult,
    customer: string -> CustomerLookup,
    t1: int,
    t2: int)

  datatype Payload =
    | NoContent  // no body at all
    | Failure(error: string, message: string)
    | Healthy(apiVersion: string)
    | TokenIssued(username: string, iat: int, exp: int, expiresIn: int)
    | SegmentPage(segmentationType: string, totalRecords: nat, limit: int, offset: int, segments: seq<Row>)
    | ClusterList(totalClusters: nat, clusters: seq<Row>)
    | JobQueued(status: string, estimatedSeconds: nat)
    | CustomerSegments(customerId: Option<string>, fields: seq<(string, string)>)
    | Insights(segmentationType: string, titles: seq<string>)
    | ExportQueued(status: string, format: string)

  /** A response: its HTTP status, the body's `success` field (None when
      the body has none), and the rest of the body. */
  datatype Response = Response(status: nat, success: Option<bool>, payload: Payload)

  const ApiVersion := "1.0"

  function BadRequest(message: string): Response
  {
    Response(400, Some(false), Failure("Bad Request", message))
  }

  // ---------------------------------------------------------------------------
  // Path normalisation (lines 30-32)
  // ---------------------------------------------------------------------------

  const ApiPrefix := "/csapp/api"

  /** The routed path: `/csapp/api` deleted by str_replace, then every leading
      and trailing `/` trimmed. */
  function NormalizePath(urlPath: string): (r: string)
    ensures r == [] || (r[0] != '/' && r[|r| - 1] != '/')
  {
    Trim(RemoveAll(urlPath, ApiPrefix), '/')
  }

  /** A URL under the API prefix routes on what follows it. */
  lemma NormalizeUnderPrefix(p: string)
    requires Free("/" + p, ApiPrefix)
    requires p == [] || (p[0] != '/' && p[|p| - 1] != '/')
    ensures NormalizePath(ApiPrefix + "/" + p) == p
  {
    var s := "/" + p;
    assert ApiPrefix + "/" + p == ApiPrefix + s;
    RemoveAllPrefix(ApiPrefix, s);
    RemoveAllNoOccurrence(s, ApiPrefix);
    TrimIdle(p, '/');
    assert s == ['/'] + p;
  }

  /** str_replace makes a single pass: removing an inner occurrence can join
      the text around it into a new one, which is then routed as it stands. */
  lemma NormalizeSinglePass()
    ensures NormalizePath("/csapp/a/csapp/apipi") == "csapp/api"
  {
    SinglePassRemoval();
    var joined := "/csapp/api";
    assert joined[0] == '/' && joined[1..] == "csapp/api";
    assert TrimLeft(joined, '/') == "csapp/api";
    assert TrimRight("csapp/api", '/') == "csapp/api";
  }

  lemma SinglePassRemoval()
    ensures RemoveAll("/csapp/a/csapp/apipi", ApiPrefix) == "/csapp/api"
  {
    var a := "/csapp/a";
    var t := a + (ApiPrefix + "pi");
    NoPrefixStartsIn(t);
    RemoveAllSkip(a, ApiPrefix + "pi", ApiPrefix);
    PrefixThenShortTail();
    SinglePassSpelling();
  }

  lemma PrefixThenShortTail()
    ensures RemoveAll(ApiPrefix + "pi", ApiPrefix) == "pi"
  {
    RemoveAllPrefix(ApiPrefix, "pi");
  }

  lemma SinglePassSpelling()
    ensures "/csapp/a" + (ApiPrefix + "pi") == "/csapp/a/csapp/apipi"
    ensures "/csapp/a" + "pi" == "/csapp/api"
  {
  }

  lemma NoPrefixStartsIn(t: string)
    requires t == "/csapp/a" + (ApiPrefix + "pi")
    ensures forall i :: 0 <= i < 8 ==> !StartsWith(t[i..], ApiPrefix)
  {
    forall i | 0 <= i < 8 ensures !StartsWith(t[i..], ApiPrefix) {
      if i == 0 {
        NotPrefixAt(t[i..], ApiPrefix, 8);
      } else if i == 6 {
        NotPrefixAt(t[i..], ApiPrefix, 1);
      } else {
        NotPrefixAt(t[i..], ApiPrefix, 0);
      }
    }
  }

  // ---------------------------------------------------------------------------
  // The route patterns
  // ---------------------------------------------------------------------------

  /** A capture that PCRE's `$` (without the D modifier) accepts: the subject
      may end right after it, or one newline after it. */
  predicate EndsAfter(path: string, head: string)
  {
    path == head || path == head + "\n"
  }

  predicate AllDigits(s: string)
  {
    forall i :: 0 <= i < |s| ==> IsDigit(s[i])
  }

  /** `#^prefix(.+)$#`: the capture is the rest of the path, non-empty and
      without newline (`.` does not match one). */
  function MatchTail(path: string, prefix: string): (r: Option<string>)
    ensures r.Some? ==> |r.value| > 0 && '\n' !in r.value && EndsAfter(path, prefix + r.value)
    ensures r.Some? ==> StartsWith(path, prefix)
  {
    if StartsWith(path, prefix) then
      var rest := path[|prefix|..];
      assert path == prefix + rest;
      var body := if |rest| > 0 && rest[|rest| - 1] == '\n' then rest[..|rest| - 1] else rest;
      assert rest == body || rest == body + "\n";
      if |body| > 0 && '\n' !in body then Some(body) else None
    else None
  }

  /** The tail pattern accepts every path of its shape, with the tail as the
      capture. */
  lemma MatchTailComplete(path: string, prefix: string, v: string)
    requires |v| > 0 && '\n' !in v
    requires EndsAfter(path, prefix + v)
    ensures MatchTail(path, prefix) == Some(v)
  {
    assert path[..|prefix|] == prefix;
    var rest := path[|prefix|..];
    if path == prefix + v {
      assert rest == v;
    } else {
      assert rest == v + "\n";
      assert rest[..|rest| - 1] == v;
    }
  }

  /** `#^customers/(\d+)/segment$#`: digits between a fixed prefix and suffix. */
  function MatchCustomer(path: string): (r: Option<string>)
    ensures r.Some? ==> |r.value| > 0 && AllDigits(r.value) && EndsAfter(path, "customers/" + r.value + "/segment")
  {
    var body := if |path| > 0 && path[|path| - 1] == '\n' then path[..|path| - 1] else path;
    assert path == body || path == body + "\n";
    if |body| > 18 && body[..10] == "customers/" && body[|body| - 8..] == "/segment" then
      var d := body[10..|body| - 8];
      assert body == "customers/" + d + "/segment";
      if AllDigits(d) then Some(d) else None
    else None
  }

  /** The customer pattern accepts every path of its shape, with the digits as
      the capture. */
  lemma MatchCustomerComplete(path: string, d: string)
    requires |d| > 0 && AllDigits(d)
    requires EndsAfter(path, "customers/" + d + "/segment")
    ensures MatchCustomer(path) == Some(d)
  {
    var h := "customers/" + d + "/segment";
    assert h[|h| - 1] == 't';
    var body := if |path| > 0 && path[|path| - 1] == '\n' then path[..|path| - 1] else path;
    if path == h + "\n" {
      assert path[..|path| - 1] == h;
    }
    assert body == h;
    assert body[..10] == "customers/";
    assert body[|body| - 8..] == "/segment";
    assert body[10..|body| - 8] == d;
  }

  // ---------------------------------------------------------------------------
  // Dispatch (lines 18-21, 55-137)
  // ---------------------------------------------------------------------------

  datatype Route =
    | Preflight
    | Health
    | Login
    | GetSegments(segmentType: string)
    | ListClusters
    | RunClustering
    | GetCustomerSegment(customerId: string)
    | GetInsights(insightType: string)
    | RequestExport(exportType: string)
    | NotFound(path: string)

  /** The routing chain: OPTIONS is answered before the path is even read,
      then the first rule whose method and pattern match wins. */
  function Dispatch(verb: string, urlPath: string): Route
  {
    if verb == "OPTIONS" then Preflight else RouteChain(verb, NormalizePath(urlPath))
  }

  /** The chain of lines 55-137 on the normalised path. */
  function RouteChain(verb: string, path: string): Route
  {
      if path == "health" && verb == "GET" then Health
      else if path == "auth/login" && verb == "POST" then Login
      else if MatchTail(path, "segments/").Some? && verb == "GET" then
        GetSegments(MatchTail(path, "segments/").value)
      else if path == "clusters" && verb == "GET" then ListClusters
      else if path == "clusters/run" && verb == "POST" then RunClustering
      else if MatchCustomer(path).Some? && verb == "GET" then
        GetCustomerSegment(MatchCustomer(path).value)
      else if MatchTail(path, "insights/").Some? && verb == "GET" then
        GetInsights(MatchTail(path, "insights/").value)
      else if MatchTail(path, "export/").Some? && verb == "POST" then
        RequestExport(MatchTail(path, "export/").value)
      else NotFound(path)
  }

  /** Rule `i` of the chain (0 = health ... 7 = export) accepts the request. */
  predicate RuleMatches(i: nat, verb: string, path: string)
  {
    match i
    case 0 => verb == "GET" && path == "health"
    case 1 => verb == "POST" && path == "auth/login"
    case 2 => verb == "GET" && MatchTail(path, "segments/").Some?
    case 3 => verb == "GET" && path == "clusters"
    case 4 => verb == "POST" && path == "clusters/run"
    case 5 => verb == "GET" && MatchCustomer(path).Some?
    case 6 => verb == "GET" && MatchTail(path, "insights/").Some?
    case 7 => verb == "POST" && MatchTail(path, "export/").Some?
    case _ => false
  }

  function RuleOf(r: Route): nat
  {
    match r
    case Health => 0
    case Login => 1
    case GetSegments(_) => 2
    case ListClusters => 3
    case RunClustering => 4
    case GetCustomerSegment(_) => 5
    case GetInsights(_) => 6
    case RequestExport(_) => 7
    case _ => 8
  }

  /** A string differing from `pre` at position k (or ending before it) does
      not start with `pre`. */
  lemma NotPrefixAt(path: string, pre: string, k: nat)
    requires k < |pre|
    requires k >= |path| || path[k] != pre[k]
    ensures !StartsWith(path, pre)
  {
    if |pre| <= |path| {
      assert path[..|pre|][k] == path[k];
    }
  }

  /** What each pattern rule demands of the path's first characters. */
  lemma RuleShape(i: nat, verb: string, path: string)
    requires RuleMatches(i, verb, path)
    ensures i == 2 ==> StartsWith(path, "segments/")
    ensures i == 5 ==> StartsWith(path, "customers/")
    ensures i == 6 ==> StartsWith(path, "insights/")
    ensures i == 7 ==> StartsWith(path, "export/")
  {
    if i == 5 {
      var d := MatchCustomer(path).value;
      assert path[..10] == ("customers/" + d + "/segment")[..10];
    }
  }

  /** No request satisfies two rules of the chain. */
  lemma RulesExclusive(i: nat, j: nat, verb: string, path: string)
    requires i < j < 8
    requires RuleMatches(i, verb, path)
    ensures !RuleMatches(j, verb, path)
  {
    RuleShape(i, verb, path);
    if i == 2 {
      NotPrefixAt(path, "customers/", 0);
      NotPrefixAt(path, "insights/", 0);
    } else if i == 5 {
      NotPrefixAt(path, "insights/", 0);
    } else if i == 0 {
      NotPrefixAt(path, "segments/", 6);
      NotPrefixAt(path, "customers/", 6);
      NotPrefixAt(path, "insights/", 6);
    } else if i == 1 {
      NotPrefixAt(path, "export/", 0);
    } else if i == 3 {
      NotPrefixAt(path, "customers/", 1);
      NotPrefixAt(path, "insights/", 0);
    } else if i == 4 {
      NotPrefixAt(path, "export/", 0);
    }
    if RuleMatches(j, verb, path) {
      RuleShape(j, verb, path);
    }
  }

  /** Dispatch: OPTIONS is always a preflight; otherwise the request reaches
      the one rule that accepts it, and 404 exactly when none does. The eight
      patterns are pairwise exclusive, so the order of the chain never decides
      between two of them. */
  lemma DispatchCorrect(verb: string, urlPath: string)
    ensures Dispatch(verb, urlPath) == Preflight <==> verb == "OPTIONS"
    ensures var path := NormalizePath(urlPath); var r := Dispatch(verb, urlPath);
      verb != "OPTIONS" ==>
        && (r.NotFound? <==> forall i :: 0 <= i < 8 ==> !RuleMatches(i, verb, path))
        && (r.NotFound? ==> r.path == path)
        && (!r.NotFound? ==>
              && RuleOf(r) < 8 && RuleMatches(RuleOf(r), verb, path)
              && forall j :: 0 <= j < 8 && j != RuleOf(r) ==> !RuleMatches(j, verb, path))
  {
    if verb != "OPTIONS" {
      RouteChainCorrect(verb, NormalizePath(urlPath));
    }
  }

  lemma RouteChainCorrect(verb: string, path: string)
    ensures var r := RouteChain(verb, path);
      && r != Preflight
      && (r.NotFound? <==> forall i :: 0 <= i < 8 ==> !RuleMatches(i, verb, path))
      && (r.NotFound? ==> r.path == path)
      && (!r.NotFound? ==>
            && RuleOf(r) < 8 && RuleMatches(RuleOf(r), verb, path)
            && forall j :: 0 <= j < 8 && j != RuleOf(r) ==> !RuleMatches(j, verb, path))
  {
    var r := RouteChain(verb, path);
    if !r.NotFound? {
      var k := RuleOf(r);
      assert RuleMatches(k, verb, path);
      forall j | 0 <= j < 8 && j != k ensures !RuleMatches(j, verb, path) {
        if j < k {
          if RuleMatches(j, verb, path) {
            RulesExclusive(j, k, verb, path);
          }
        } else {
          RulesExclusive(k, j, verb, path);
        }
      }
    }
  }

  // ---------------------------------------------------------------------------
  // Handlers
  // ---------------------------------------------------------------------------

  function HandleHealth(): (r: Response)
    ensures r.status == 200 && r.success.None? && r.payload.Healthy?
  {
    Response(200, None, Healthy(ApiVersion))
  }

  /** handleLogin: both fields must be non-empty in PHP's sense (missing, ""
      and "0" are empty); the token's iat and exp come from two readings of
      the clock, so its lifetime is at least an hour and exactly one when both
      readings fall in the same second. */
  function HandleLogin(username: Option<string>, password: Option<string>, t1: int, t2: int): (r: Response)
    ensures r.status == 400 <==> EmptyString(username) || EmptyString(password)
    ensures r.status == 400 ==> r == BadRequest("Missing username or password")
    ensures r.status != 400 ==>
      && r.status == 200 && r.success == Some(true) && r.payload.TokenIssued?
      && r.payload.username == username.value
      && r.payload.iat == t1 && r.payload.exp == t2 + 3600
      && r.payload.expiresIn == 3600
      && (t1 <= t2 ==> r.payload.exp - r.payload.iat >= 3600)
      && (t1 == t2 ==> r.payload.exp - r.payload.iat == 3600)
  {
    if EmptyString(username) || EmptyString(password) then
      BadRequest("Missing username or password")
    else
      Response(200, Some(true), TokenIssued(username.value, t1, t2 + 3600, 3600))
  }

  /** The page size: 50 by default, capped at 500 (a negative value passes). */
  function EffectiveLimit(limit: Option<int>): (l: int)
    ensures l <= 500
    ensures limit.None? ==> l == 50
    ensures limit.Some? && limit.value <= 500 ==> l == limit.value
    ensures limit.Some? && limit.value > 500 ==> l == 500
  {
    if limit.Some? then (if limit.value < 500 then limit.value else 500) else 50
  }

  /** `$_GET['offset'] ?? 0`. */
  function EffectiveOffset(offset: Option<int>): int
  {
    if offset.Some? then offset.value else 0
  }

  /** buildSegmentationQuery: dedicated SQL for four types only. */
  function BuildSegmentationQuery(t: string): SegmentationQuery
  {
    if t == "gender" then GenderQuery
    else if t == "region" then RegionQuery
    else if t == "clv" then ClvQuery
    else if t == "age_group" then AgeGroupQuery
    else CountQuery
  }

  /** Every type without a dedicated query, income_bracket, cluster and
      purchase_tier among the valid ones, falls through to the bare count, and
      the dedicated queries are distinct. */
  lemma BuildSegmentationQueryFallsThrough(t: string)
    ensures BuildSegmentationQuery(t) == CountQuery <==>
      t != "gender" && t != "region" && t != "clv" && t != "age_group"
    ensures forall u :: BuildSegmentationQuery(t) == BuildSegmentationQuery(u) != CountQuery ==> t == u
  {
  }

  /** getKeyFieldForSegmentType: the `$key_map` lookup with the type itself
      as the fallback. */
  function KeyFieldFor(t: string): string
  {
    if t == "gender" then "gender"
    else if t == "region" then "region"
    else if t == "age_group" then "age_group"
    else if t == "income_bracket" then "income_bracket"
    else if t == "cluster" then "cluster_label"
    else if t == "purchase_tier" then "purchase_tier"
    else if t == "clv" then "clv_tier"
    else t
  }

  /** Only cluster and clv are renamed; every other name, valid or not, is its
      own key field. */
  lemma KeyFieldRenames(t: string)
    ensures KeyFieldFor(t) != t <==> t == "cluster" || t == "clv"
    ensures t == "cluster" ==> KeyFieldFor(t) == "cluster_label"
    ensures t == "clv" ==> KeyFieldFor(t) == "clv_tier"
  {
  }

  /** handleGetSegments: an unknown type is a 400 whatever the database holds;
      otherwise one query, 500 if it throws, else the page
      array_slice(results, offset, limit) with the unsliced count. */
  function HandleGetSegments(segType: string, query: QueryParams, db: SegmentationQuery -> QueryResult): (r: Response)
    ensures ParseSegType(segType).None? ==> r == BadRequest("Invalid segmentation type: " + segType)
    ensures ParseSegType(segType).Some? ==>
      match db(BuildSegmentationQuery(segType))
      case DbError(m) => r == Response(500, Some(false), Failure("Database Error", m))
      case Rows(rows) =>
        && r.status == 200 && r.success == Some(true) && r.payload.SegmentPage?
        && r.payload.segmentationType == segType
        && r.payload.totalRecords == |rows|
        && r.payload.limit == EffectiveLimit(query.limit) <= 500
        && r.payload.offset == EffectiveOffset(query.offset)
        && r.payload.segments == ArraySlice(rows, r.payload.offset, r.payload.limit)
  {
    var limit := EffectiveLimit(query.limit);
    var offset := EffectiveOffset(query.offset);
    if ParseSegType(segType).None? then
      BadRequest("Invalid segmentation type: " + segType)
    else
      match db(BuildSegmentationQuery(segType))
      case DbError(m) => Response(500, Some(false), Failure("Database Error", m))
      case Rows(rows) =>
        Response(200, Some(true), SegmentPage(segType, |rows|, limit, offset, ArraySlice(rows, offset, limit)))
  }

  /** A page of the default size holds min(50, n - offset) rows, and a page
      never holds more than 500. */
  lemma SegmentPageSize(segType: string, query: QueryParams, db: SegmentationQuery -> QueryResult)
    requires ParseSegType(segType).Some? && db(BuildSegmentationQuery(segType)).Rows?
    requires query.offset.None? || query.offset.value >= 0
    requires query.limit.None? || query.limit.value >= 0
    ensures var r := HandleGetSegments(segType, query, db);
      var n := |db(BuildSegmentationQuery(segType)).rows|;
      var o := r.payload.offset; var l := r.payload.limit;
      && |r.payload.segments| <= 500
      && |r.payload.segments| == (if l < n - o then l else if n - o < 0 then 0 else n - o)
      && (query.limit.None? ==> |r.payload.segments| <= 50)
  {
  }

  function HandleListClusters(db: QueryResult): (r: Response)
    ensures db.DbError? ==> r.status == 500 && r.success == Some(false)
    ensures db.Rows? ==> r.status == 200 && r.payload == ClusterList(|db.rows|, db.rows)
  {
    match db
    case DbError(m) => Response(500, Some(false), Failure("Database Error", m))
    case Rows(rows) => Response(200, Some(true), ClusterList(|rows|, rows))
  }

  /** handleRunClustering: n_clusters defaults to 5 and must lie in [2, 20];
      the algorithm is read (default kmeans) but never checked. */
  function HandleRunClustering(nClusters: Option<int>, algorithm: Option<string>): (r: Response)
    ensures var n := if nClusters.Some? then nClusters.value else 5;
      && (r.status == 202 <==> 2 <= n <= 20)
      && (r.status != 202 ==> r == BadRequest("n_clusters must be between 2 and 20"))
      && (r.status == 202 ==> r.success == Some(true) && r.payload == JobQueued("processing", 120))
  {
    var n := if nClusters.Some? then nClusters.value else 5;
    if n < 2 || n > 20 then BadRequest("n_clusters must be between 2 and 20")
    else Response(202, Some(true), JobQueued("processing", 120))
  }

  /** The keys of the customer payload in response order: name and email,
      then the seven entries of `segments`. */
  const CustomerFields: seq<string> :=
    ["name", "email", "gender", "region", "age_group", "income_bracket", "purchase_tier", "clv_tier", "calculated_clv"]

  /** handleGetCustomerSegment: 404 when no row, else the row's customer_id
      (read without `??`, so NULL stays null) and the stored fields with
      'N/A' (0 for calculated_clv) for any that is NULL. */
  function HandleGetCustomerSegment(customerId: string, lookup: CustomerLookup): (r: Response)
    ensures lookup.Missing? ==> r.status == 404 && r.payload == Failure("Not Found", "Customer with ID " + customerId + " not found")
    ensures lookup.LookupError? ==> r == Response(500, Some(false), Failure("Database Error", lookup.message))
    ensures lookup.Found? ==>
      && r.status == 200 && r.success == Some(true) && r.payload.CustomerSegments?
      && r.payload.customerId == (if "customer_id" in lookup.row then lookup.row["customer_id"] else None)
      && |r.payload.fields| == |CustomerFields|
      && forall i :: 0 <= i < |CustomerFields| ==>
           var k := CustomerFields[i];
           && r.payload.fields[i].0 == k
           && r.payload.fields[i].1 ==
                if k in lookup.row && lookup.row[k].Some? then lookup.row[k].value
                else if k == "calculated_clv" then "0" else "N/A"
  {
    match lookup
    case Missing => Response(404, Some(false), Failure("Not Found", "Customer with ID " + customerId + " not found"))
    case LookupError(m) => Response(500, Some(false), Failure("Database Error", m))
    case Found(row) =>
      var id := if "customer_id" in row then row["customer_id"] else None;
      Response(200, Some(true), CustomerSegments(id, [
        ("name", FieldOr(row, "name", "N/A")),
        ("email", FieldOr(row, "email", "N/A")),
        ("gender", FieldOr(row, "gender", "N/A")),
        ("region", FieldOr(row, "region", "N/A")),
        ("age_group", FieldOr(row, "age_group", "N/A")),
        ("income_bracket", FieldOr(row, "income_bracket", "N/A")),
        ("purchase_tier", FieldOr(row, "purchase_tier", "N/A")),
        ("clv_tier", FieldOr(row, "clv_tier", "N/A")),
        ("calculated_clv", FieldOr(row, "calculated_clv", "0"))]))
  }

  /** handleGetInsights: the same seven-name check, then two fixed insights
      titled after the type. */
  function HandleGetInsights(insightType: string): (r: Response)
    ensures ParseSegType(insightType).None? <==> r.status == 400
    ensures r.status == 400 ==> r == BadRequest("Invalid insight type: " + insightType)
    ensures r.status != 400 ==>
      && r.status == 200 && r.payload.Insights?
      && r.payload.titles == [Ucfirst(insightType) + " Insight 1", Ucfirst(insightType) + " Insight 2"]
  {
    if ParseSegType(insightType).None? then BadRequest("Invalid insight type: " + insightType)
    else
      Response(200, Some(true), Insights(insightType,
        [Ucfirst(insightType) + " Insight 1", Ucfirst(insightType) + " Insight 2"]))
  }

  /** handleRequestExport: format defaults to csv and must be csv, excel or pdf;
      the export type in the path is not checked. */
  function HandleRequestExport(exportType: string, format: Option<string>): (r: Response)
    ensures var f := if format.Some? then format.value else "csv";
      && (r.status == 202 <==> ParseFormat(f).Some?)
      && (r.status != 202 ==> r == BadRequest("Invalid export format: " + f))
      && (r.status == 202 ==> r.payload == ExportQueued("processing", f))
  {
    var f := if format.Some? then format.value else "csv";
    if ParseFormat(f).None? then BadRequest("Invalid export format: " + f)
    else Response(202, Some(true), ExportQueued("processing", f))
  }

  // ---------------------------------------------------------------------------
  // The whole script
  // ---------------------------------------------------------------------------

  /** One request through api/index.php. */
  function Serve(req: Request, env: Env): (r: Response)
    ensures req.verb == "OPTIONS" ==> r == Response(200, None, NoContent)
    ensures Dispatch(req.verb, req.urlPath).NotFound? ==>
      r.status == 404 && r.payload == Failure("Not Found", "Endpoint '" + NormalizePath(req.urlPath) + "' not found")
    ensures r.status == 404 ==>
      Dispatch(req.verb, req.urlPath).NotFound? || Dispatch(req.verb, req.urlPath).GetCustomerSegment?
  {
    match Dispatch(req.verb, req.urlPath)
    case Preflight => Response(200, None, NoContent)
    case Health => HandleHealth()
    case Login => HandleLogin(req.body.username, req.body.password, env.t1, env.t2)
    case GetSegments(t) => HandleGetSegments(t, req.query, env.segmentRows)
    case ListClusters => HandleListClusters(env.clusterRows)
    case RunClustering => HandleRunClustering(req.body.nClusters, req.body.algorithm)
    case GetCustomerSegment(id) => HandleGetCustomerSegment(id, env.customer(id))
    case GetInsights(t) => HandleGetInsights(t)
    case RequestExport(t) => HandleRequestExport(t, req.body.format)
    case NotFound(path) => Response(404, Some(false), Failure("Not Found", "Endpoint '" + path + "' not found"))
  }
}
