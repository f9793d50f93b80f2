/** query_optimizer/views.py: the three pieces of the views with logic of
    their own -- `query_analyze_view`, which runs the optimizer on one stored
    record and stores its analysis; the filter and ordering selection of
    `QueryListView.get_queryset`; and the analysis data that
    `AnalysisDetailView` shows, with its defaults. */
module Views {
  import opened Wrappers
  import opened Text
  import opened Settings
  import opened Models
  import opened Store
  import Services

  /** `d.get(key, default)` on a string-to-string dictionary. */
  function GetOr(d: map<string, string>, key: string, default: string): (v: string)
    ensures key in d ==> v == d[key]
    ensures key !in d ==> v == default
  {
    if key in d then d[key] else default
  }

  // ---------------------------------------------------------------------
  // query_analyze_view
  // ---------------------------------------------------------------------

  datatype Level = ErrorLevel | InfoLevel | SuccessLevel

  /** A message flashed with `messages.error`, `.info` or `.success`. */
  datatype Flash = Flash(level: Level, text: string)

  const NoQuerySelected := Flash(ErrorLevel, "No query selected for analysis.")
  const QueryNotFound := Flash(ErrorLevel, "Query not found.")
  const AlreadyAnalyzed := Flash(InfoLevel, "This query has already been analyzed.")
  const AnalysisFailed := Flash(ErrorLevel, "Failed to analyze the query. Please try again later.")
  const AnalysisStored := Flash(SuccessLevel, "Query analyzed successfully!")

  /** How the view answers: a redirect to the list or to a record's detail
      page with the message it flashes, or an exception that escapes it. */
  datatype Redirect =
    | ToList(flash: Option<Flash>)
    | ToDetail(pk: nat, message: Flash)
    | Raised(exception: string)

  /** The submitted request: its method and `request.POST.get('query_id')`. */
  datatype AnalyzeRequest = AnalyzeRequest(httpMethod: string, queryId: Option<string>)

  /** What the view reads besides the request and the store: the settings
      the optimizer is built from, the conversion of the submitted id to
      the integer Django looks up (None when that lookup raises
      `ValueError`), and the collaborators of
      `QueryOptimizerAI.analyze_query`. */
  datatype Env = Env(
    config: Option<Config>,
    toId: string -> Option<int>,
    repr: real -> string,
    transport: Services.ProviderCall -> Services.Reply,
    decode: string -> Option<Services.Json>)

  /** The value `suggested_optimization` is given for a parsed analysis. */
  function SuggestionOf(analysis: map<string, string>): (s: string)
    ensures "optimization_suggestions" in analysis ==> s == analysis["optimization_suggestions"]
    ensures "optimization_suggestions" !in analysis ==> s == ""
  {
    GetOr(analysis, "optimization_suggestions", "")
  }

  /** What one submission decides: the answer, and the analysis it stores
      (the record's id and the parsed mapping), if any. */
  datatype Decision = Decision(redirect: Redirect, created: Option<(nat, map<string, string>)>)

  /** A POST that carries a non-empty `query_id`. */
  predicate Submitted(req: AnalyzeRequest) {
    req.httpMethod == "POST" && req.queryId.Some? && req.queryId.value != ""
  }

  /** The stored record a submission names, if any. */
  function Named(req: AnalyzeRequest, env: Env, records: seq<QueryRecord>): (id: Option<nat>)
    ensures id.Some? ==> Submitted(req) && env.toId(req.queryId.value) == Some(id.value as int) && HasRecord(records, id.value)
  {
    if Submitted(req) && env.toId(req.queryId.value).Some? && env.toId(req.queryId.value).value >= 0
       && HasRecord(records, env.toId(req.queryId.value).value as nat)
    then Some(env.toId(req.queryId.value).value as nat)
    else None
  }

  /** `query_analyze_view` against a store holding `records` and `analyses`. */
  function Decide(req: AnalyzeRequest, env: Env, records: seq<QueryRecord>, analyses: map<nat, QueryAnalysis>): (d: Decision)
    // The guarded early returns create nothing.
    ensures req.httpMethod != "POST" ==> d == Decision(ToList(None), None)
    ensures req.httpMethod == "POST" && !Submitted(req) ==> d == Decision(ToList(Some(NoQuerySelected)), None)
    ensures Submitted(req) && env.toId(req.queryId.value).None? ==> d == Decision(Raised("ValueError"), None)
    ensures Submitted(req) && env.toId(req.queryId.value).Some? && Named(req, env, records).None? ==>
      d == Decision(ToList(Some(QueryNotFound)), None)
    ensures Named(req, env, records).Some? && Named(req, env, records).value in analyses ==>
      d == Decision(ToDetail(Named(req, env, records).value, AlreadyAnalyzed), None)
    // A record not analysed yet: the optimizer's construction errors
    // escape; otherwise a falsy result reports failure, a truthy value
    // that is not an object fails on `.get`, and a non-empty object is
    // stored.
    ensures Named(req, env, records).Some? && Named(req, env, records).value !in analyses ==>
      var id := Named(req, env, records).value;
      match Services.Init(env.config)
      case Failure(_) => d == Decision(Raised("ValueError"), None)
      case Success(optimizer) =>
        var r := Services.AnalyzeQuery(optimizer, Find(records, id).value, env.repr, env.transport, env.decode);
        if r.None? || !Services.JsonTruthy(r.value) then d == Decision(ToDetail(id, AnalysisFailed), None)
        else if r.value.Other? then d == Decision(Raised("AttributeError"), None)
        else d == Decision(ToDetail(id, AnalysisStored), Some((id, r.value.fields)))
    // An analysis is stored only for a stored, unanalysed record, only with
    // a non-empty parsed mapping, and exactly when success is reported.
    ensures d.created.Some? ==>
      var (id, analysis) := d.created.value;
      && Named(req, env, records) == Some(id) && id !in analyses && analysis != map[]
      && Services.Init(env.config).Success?
    ensures d.created.Some? <==> d.redirect.ToDetail? && d.redirect.message == AnalysisStored
    ensures d.created.Some? ==> d.redirect.pk == d.created.value.0
  {
    if req.httpMethod != "POST" then Decision(ToList(None), None)
    else if req.queryId.None? || req.queryId.value == "" then Decision(ToList(Some(NoQuerySelected)), None)
    else
      match env.toId(req.queryId.value)
      case None => Decision(Raised("ValueError"), None)
      case Some(key) =>
        if key < 0 then Decision(ToList(Some(QueryNotFound)), None)
        else
          match Find(records, key as nat)
          case None => Decision(ToList(Some(QueryNotFound)), None)
          case Some(record) =>
            var id := key as nat;
            if id in analyses then Decision(ToDetail(id, AlreadyAnalyzed), None)
            else
              match Services.Init(env.config)
              case Failure(_) => Decision(Raised("ValueError"), None)
              case Success(optimizer) =>
                var result := Services.AnalyzeQuery(optimizer, record, env.repr, env.transport, env.decode);
                if result.None? || !Services.JsonTruthy(result.value) then Decision(ToDetail(id, AnalysisFailed), None)
                else if result.value.Other? then Decision(Raised("AttributeError"), None)
                else Decision(ToDetail(id, AnalysisStored), Some((id, result.value.fields)))
  }

  /** The analyses once a decision is carried out at store time `clock`. */
  function Carry(created: Option<(nat, map<string, string>)>, analyses: map<nat, QueryAnalysis>, clock: nat): map<nat, QueryAnalysis> {
    match created
    case None => analyses
    case Some((id, analysis)) => analyses[id := NewAnalysis(id, analysis, SuggestionOf(analysis), clock)]
  }

  /** A successful submission stores one analysis, for its record, and
      leaves every other record's analysis as it was; the stored analysis
      holds the parsed mapping and its suggestion, and is not applied. */
  lemma SuccessStoresOne(req: AnalyzeRequest, env: Env, records: seq<QueryRecord>, analyses: map<nat, QueryAnalysis>, clock: nat)
    requires Decide(req, env, records, analyses).created.Some?
    ensures var (id, analysis) := Decide(req, env, records, analyses).created.value;
      var after := Carry(Some((id, analysis)), analyses, clock);
      && after.Keys == analyses.Keys + {id} && id !in analyses
      && (forall k :: k in analyses ==> after[k] == analyses[k])
      && after[id].recordId == id && after[id].analysis == analysis
      && Services.AnalyzeQuery(Services.Init(env.config).value, Find(records, id).value,
                               env.repr, env.transport, env.decode) == Some(Services.Object(analysis))
      && after[id].suggestedOptimization == GetOr(analysis, "optimization_suggestions", "")
      && !after[id].applied && after[id].appliedAt.None?
  {
  }

  /** Submitting the same record again, after a submission that stored an
      analysis, stores nothing and reports that it was already analysed. */
  lemma SecondSubmissionIsNoOp(req: AnalyzeRequest, env: Env, records: seq<QueryRecord>, analyses: map<nat, QueryAnalysis>, clock: nat)
    requires Decide(req, env, records, analyses).created.Some?
    ensures var id := Decide(req, env, records, analyses).created.value.0;
      Decide(req, env, records, Carry(Decide(req, env, records, analyses).created, analyses, clock))
        == Decision(ToDetail(id, AlreadyAnalyzed), None)
  {
    var (id, analysis) := Decide(req, env, records, analyses).created.value;
    var after := Carry(Some((id, analysis)), analyses, clock);
    assert id in after;
  }

  /** A provider failure, or a reply that parses to a falsy value (an
      empty object, `null`, `0`, `[]`, `""`), stores nothing and reports
      the failure. */
  lemma FalsyResultStoresNothing(req: AnalyzeRequest, env: Env, records: seq<QueryRecord>, analyses: map<nat, QueryAnalysis>,
                                 id: nat, optimizer: Services.QueryOptimizerAI)
    requires req.httpMethod == "POST" && req.queryId.Some? && req.queryId.value != ""
    requires env.toId(req.queryId.value) == Some(id as int) && HasRecord(records, id) && id !in analyses
    requires Services.Init(env.config) == Result.Success(optimizer)
    requires var result := Services.AnalyzeQuery(optimizer, Find(records, id).value, env.repr, env.transport, env.decode);
      result.None? || !Services.JsonTruthy(result.value)
    ensures Decide(req, env, records, analyses) == Decision(ToDetail(id, AnalysisFailed), None)
  {
  }

  /** A reply that parses to a truthy value other than an object (a number,
      a non-empty array or string, `true`) passes the falsiness test and
      then fails on `.get`: the view raises and stores nothing. */
  lemma NonObjectResultRaises(req: AnalyzeRequest, env: Env, records: seq<QueryRecord>, analyses: map<nat, QueryAnalysis>,
                              id: nat, optimizer: Services.QueryOptimizerAI)
    requires req.httpMethod == "POST" && req.queryId.Some? && req.queryId.value != ""
    requires env.toId(req.queryId.value) == Some(id as int) && HasRecord(records, id) && id !in analyses
    requires Services.Init(env.config) == Result.Success(optimizer)
    requires Services.AnalyzeQuery(optimizer, Find(records, id).value, env.repr, env.transport, env.decode)
      == Some(Services.Other(true))
    ensures Decide(req, env, records, analyses) == Decision(Raised("AttributeError"), None)
  {
  }

  /** `query_analyze_view`. */
  method QueryAnalyzeView(req: AnalyzeRequest, env: Env, ledger: QueryLedger) returns (redirect: Redirect)
    requires ledger.Valid()
    modifies ledger
    ensures ledger.Valid()
    ensures redirect == Decide(req, env, old(ledger.records), old(ledger.analyses)).redirect
    ensures ledger.records == old(ledger.records)
    ensures ledger.analyses == Carry(Decide(req, env, old(ledger.records), old(ledger.analyses)).created,
                                     old(ledger.analyses), old(ledger.clock))
  {
    if req.httpMethod != "POST" {
      return ToList(None);
    }
    var queryId := req.queryId;
    if queryId.None? || queryId.value == "" {
      return ToList(Some(NoQuerySelected));
    }
    var id := env.toId(queryId.value);
    if id.None? {
      return Raised("ValueError");
    }
    if id.value < 0 {
      return ToList(Some(QueryNotFound));
    }
    var record := ledger.Get(id.value as nat);
    if record.None? {
      return ToList(Some(QueryNotFound));
    }
    var analysed := ledger.HasAnalysis(record.value.id);
    if analysed {
      return ToDetail(record.value.id, AlreadyAnalyzed);
    }
    var optimizer := Services.Init(env.config);
    if optimizer.Failure? {
      return Raised("ValueError");
    }
    var analysis := Services.AnalyzeQuery(optimizer.value, record.value, env.repr, env.transport, env.decode);
    if analysis.None? || !Services.JsonTruthy(analysis.value) {
      return ToDetail(record.value.id, AnalysisFailed);
    }
    if analysis.value.Other? {
      return Raised("AttributeError");
    }
    var fields := analysis.value.fields;
    var created := ledger.CreateAnalysis(record.value.id, fields, SuggestionOf(fields));
    return ToDetail(record.value.id, AnalysisStored);
  }

  // ---------------------------------------------------------------------
  // QueryListView.get_queryset
  // ---------------------------------------------------------------------

  /** `request.GET`, one value per parameter (`get` returns the last one). */
  type QueryString = map<string, string>

  /** `request.GET.get(key)` */
  function Param(get: QueryString, key: string): Option<string> {
    if key in get then Some(get[key]) else None
  }

  /** `if request.GET.get(key):` -- present and not empty. */
  predicate Given(get: QueryString, key: string) {
    key in get && get[key] != ""
  }

  /** The lookups the list view filters on, with their values. */
  datatype Lookup =
    | DateFrom(day: int)            // timestamp__date__gte
    | DateTo(day: int)              // timestamp__date__lte
    | SlowIs(slow: bool)            // is_slow
    | AnalysisIsNull(none: bool)    // analysis__isnull
    | ViewNameContains(part: string) // view_name__icontains
    | DurationAtLeast(min: real)    // duration__gte
    | DurationAtMost(max: real)     // duration__lte

  /** The keys of the `filters` dictionary, named after the Django lookups
      they spell: `timestamp__date__gte`, `timestamp__date__lte`, `is_slow`,
      `analysis__isnull`, `view_name__icontains`, `duration__gte`,
      `duration__lte`. */
  datatype FilterKey =
    | DateFromKey | DateToKey | IsSlowKey | AnalysisNullKey | ViewNameKey | DurationMinKey | DurationMaxKey

  /** The orderings `sort_by` may ask for. */
  const ValidSortFields: seq<string> := ["timestamp", "-timestamp", "duration", "-duration", "view_name", "-view_name"]

  /** A query set: the filters it applies and the field it is ordered by. */
  datatype QuerySet = QuerySet(filters: map<FilterKey, Lookup>, ordering: string)

  /** `filters.get(key)` */
  function Entry(filters: map<FilterKey, Lookup>, key: FilterKey): Option<Lookup> {
    if key in filters then Some(filters[key]) else None
  }

  /** A parsed parameter: None when it is absent or empty (falsy), or when
      its conversion raises. */
  function Parsed<T>(get: QueryString, name: string, parse: string -> Option<T>): (v: Option<T>)
    ensures v.Some? <==> Given(get, name) && parse(get[name]).Some?
  {
    if Given(get, name) then parse(get[name]) else None
  }

  /** The slowness filter: `is_slow` for a slowness of exactly "slow" or "fast". */
  function SlownessLookup(get: QueryString): Option<Lookup> {
    if Param(get, "slowness") == Some("slow") then Some(SlowIs(true))
    else if Param(get, "slowness") == Some("fast") then Some(SlowIs(false))
    else None
  }

  /** The analysis-status filter: `analysis__isnull` for a status of exactly
      "analyzed" (not null) or "unanalyzed" (null). */
  function AnalysisStatusLookup(get: QueryString): Option<Lookup> {
    if Param(get, "analysis_status") == Some("analyzed") then Some(AnalysisIsNull(false))
    else if Param(get, "analysis_status") == Some("unanalyzed") then Some(AnalysisIsNull(true))
    else None
  }

  /** The lookup each filter key gets from the request parameters, if any:
      the dates and durations when present and convertible, the slowness and
      analysis status as above, and the view name when present. */
  function FilterFor(get: QueryString, parseDate: string -> Option<int>, parseFloat: string -> Option<real>,
                     key: FilterKey): Option<Lookup>
  {
    match key
    case DateFromKey =>
      var day := Parsed(get, "date_from", parseDate); if day.Some? then Some(DateFrom(day.value)) else None
    case DateToKey =>
      var day := Parsed(get, "date_to", parseDate); if day.Some? then Some(DateTo(day.value)) else None
    case IsSlowKey => SlownessLookup(get)
    case AnalysisNullKey => AnalysisStatusLookup(get)
    case ViewNameKey =>
      if Given(get, "view_name") then Some(ViewNameContains(get["view_name"])) else None
    case DurationMinKey =>
      var x := Parsed(get, "min_duration", parseFloat); if x.Some? then Some(DurationAtLeast(x.value)) else None
    case DurationMaxKey =>
      var x := Parsed(get, "max_duration", parseFloat); if x.Some? then Some(DurationAtMost(x.value)) else None
  }

  /** `slowness` and `analysis_status` add a filter for their two named
      values only; any other value, or none, adds nothing. */
  lemma ChoiceFiltersMapping(get: QueryString, parseDate: string -> Option<int>, parseFloat: string -> Option<real>)
    ensures FilterFor(get, parseDate, parseFloat, IsSlowKey) == Some(SlowIs(true)) <==> Param(get, "slowness") == Some("slow")
    ensures FilterFor(get, parseDate, parseFloat, IsSlowKey) == Some(SlowIs(false)) <==> Param(get, "slowness") == Some("fast")
    ensures FilterFor(get, parseDate, parseFloat, IsSlowKey).None? <==>
      Param(get, "slowness") != Some("slow") && Param(get, "slowness") != Some("fast")
    ensures FilterFor(get, parseDate, parseFloat, AnalysisNullKey) == Some(AnalysisIsNull(false)) <==>
      Param(get, "analysis_status") == Some("analyzed")
    ensures FilterFor(get, parseDate, parseFloat, AnalysisNullKey) == Some(AnalysisIsNull(true)) <==>
      Param(get, "analysis_status") == Some("unanalyzed")
    ensures FilterFor(get, parseDate, parseFloat, AnalysisNullKey).None? <==>
      Param(get, "analysis_status") != Some("analyzed") && Param(get, "analysis_status") != Some("unanalyzed")
  {
  }

  /** The ordering: `sort_by` when it names one of the six valid orderings,
      newest first otherwise. */
  function OrderingFor(get: QueryString): (ordering: string)
    ensures ordering in ValidSortFields
    ensures Param(get, "sort_by").Some? && get["sort_by"] in ValidSortFields ==> ordering == get["sort_by"]
    ensures !(Param(get, "sort_by").Some? && get["sort_by"] in ValidSortFields) ==> ordering == "-timestamp"
  {
    if "sort_by" in get && get["sort_by"] in ValidSortFields then get["sort_by"] else "-timestamp"
  }

  /** The filters after a section that handles `keys`: those of them with a
      lookup take it, every other key is as before. */
  predicate SetsOnly(after: map<FilterKey, Lookup>, before: map<FilterKey, Lookup>, keys: set<FilterKey>,
                     get: QueryString, parseDate: string -> Option<int>, parseFloat: string -> Option<real>)
  {
    forall key :: Entry(after, key) ==
      if key in keys && FilterFor(get, parseDate, parseFloat, key).Some? then FilterFor(get, parseDate, parseFloat, key)
      else Entry(before, key)
  }

  /** The date range section of `get_queryset`. */
  method DateRangeFilters(filters: map<FilterKey, Lookup>, get: QueryString, parseDate: string -> Option<int>,
                          ghost parseFloat: string -> Option<real>) returns (f: map<FilterKey, Lookup>)
    ensures SetsOnly(f, filters, {DateFromKey, DateToKey}, get, parseDate, parseFloat)
  {
    f := filters;
    var dateFrom := Param(get, "date_from");
    var dateTo := Param(get, "date_to");
    if dateFrom.Some? && dateFrom.value != "" {
      var day := parseDate(dateFrom.value);
      if day.Some? {
        f := f[DateFromKey := DateFrom(day.value)];
      }
    }

    if dateTo.Some? && dateTo.value != "" {
      var day := parseDate(dateTo.value);
      if day.Some? {
        f := f[DateToKey := DateTo(day.value)];
      }
    }
  }

  /** The slowness, analysis status and view name sections. */
  method ChoiceFilters(filters: map<FilterKey, Lookup>, get: QueryString, ghost parseDate: string -> Option<int>,
                       ghost parseFloat: string -> Option<real>) returns (f: map<FilterKey, Lookup>)
    ensures SetsOnly(f, filters, {IsSlowKey, AnalysisNullKey, ViewNameKey}, get, parseDate, parseFloat)
  {
    f := filters;
    var slowness := Param(get, "slowness");
    if slowness == Some("slow") {
      f := f[IsSlowKey := SlowIs(true)];
    } else if slowness == Some("fast") {
      f := f[IsSlowKey := SlowIs(false)];
    }
    var analysisStatus := Param(get, "analysis_status");
    if analysisStatus == Some("analyzed") {
      f := f[AnalysisNullKey := AnalysisIsNull(false)];
    } else if analysisStatus == Some("unanalyzed") {
      f := f[AnalysisNullKey := AnalysisIsNull(true)];
    }
    var viewName := Param(get, "view_name");
    if viewName.Some? && viewName.value != "" {
      f := f[ViewNameKey := ViewNameContains(viewName.value)];
    }
  }

  /** The duration range section. */
  method DurationRangeFilters(filters: map<FilterKey, Lookup>, get: QueryString, ghost parseDate: string -> Option<int>,
                              parseFloat: string -> Option<real>) returns (f: map<FilterKey, Lookup>)
    ensures SetsOnly(f, filters, {DurationMinKey, DurationMaxKey}, get, parseDate, parseFloat)
  {
    f := filters;
    var minDuration := Param(get, "min_duration");
    var maxDuration := Param(get, "max_duration");
    if minDuration.Some? && minDuration.value != "" {
      var x := parseFloat(minDuration.value);
      if x.Some? {
        f := f[DurationMinKey := DurationAtLeast(x.value)];
      }
    }
    if maxDuration.Some? && maxDuration.value != "" {
      var x := parseFloat(maxDuration.value);
      if x.Some? {
        f := f[DurationMaxKey := DurationAtMost(x.value)];
      }
    }
  }

  /** `QueryListView.get_queryset`. `parseDate` is `strptime(..., '%Y-%m-%d')`
      giving a day number, `parseFloat` is `float()`; None is the exception
      the view swallows. */
  method GetQueryset(get: QueryString, parseDate: string -> Option<int>, parseFloat: string -> Option<real>)
    returns (qs: QuerySet)
    ensures forall key :: Entry(qs.filters, key) == FilterFor(get, parseDate, parseFloat, key)
    ensures qs.ordering == OrderingFor(get)
  {
    var ordering := "-timestamp";
    var filters: map<FilterKey, Lookup> := map[];
    filters := DateRangeFilters(filters, get, parseDate, parseFloat);
    filters := ChoiceFilters(filters, get, parseDate, parseFloat);
    filters := DurationRangeFilters(filters, get, parseDate, parseFloat);

    var sortBy := GetOr(get, "sort_by", "-timestamp");
    if sortBy in ValidSortFields {
      ordering := sortBy;
    }
    qs := QuerySet(filters, ordering);
  }

  /** Whether a record passes one lookup. `analysed` says whether it has an
      analysis; `dayOf` gives the calendar day of a store timestamp. */
  predicate Holds(r: QueryRecord, analysed: bool, l: Lookup, dayOf: nat -> int) {
    match l
    case DateFrom(day) => dayOf(r.timestamp) >= day
    case DateTo(day) => dayOf(r.timestamp) <= day
    case SlowIs(slow) => r.data.isSlow == slow
    case AnalysisIsNull(none) => analysed != none
    case ViewNameContains(part) => r.data.viewName.Some? && Contains(Lower(r.data.viewName.value), Lower(part))
    case DurationAtLeast(min) => r.data.duration >= min
    case DurationAtMost(max) => r.data.duration <= max
  }

  predicate Satisfies(r: QueryRecord, analysed: bool, filters: map<FilterKey, Lookup>, dayOf: nat -> int) {
    forall k :: k in filters ==> Holds(r, analysed, filters[k], dayOf)
  }

  /** The records a query set selects, in store order: `filter(**filters)`. */
  function Rows(qs: QuerySet, records: seq<QueryRecord>, analyses: map<nat, QueryAnalysis>, dayOf: nat -> int): (rows: seq<QueryRecord>)
    ensures forall r :: r in rows <==> r in records && Satisfies(r, r.id in analyses, qs.filters, dayOf)
    ensures |rows| <= |records|
  {
    if |records| == 0 then []
    else
      var r := records[0];
      (if Satisfies(r, r.id in analyses, qs.filters, dayOf) then [r] else []) + Rows(qs, records[1..], analyses, dayOf)
  }

  /** The slowness and analysis-status filters select what their names say. */
  lemma {:induction false} FilterMeanings(qs: QuerySet, records: seq<QueryRecord>, analyses: map<nat, QueryAnalysis>, dayOf: nat -> int)
    ensures IsSlowKey in qs.filters && qs.filters[IsSlowKey] == SlowIs(true) ==>
      forall r :: r in Rows(qs, records, analyses, dayOf) ==> r.data.isSlow
    ensures IsSlowKey in qs.filters && qs.filters[IsSlowKey] == SlowIs(false) ==>
      forall r :: r in Rows(qs, records, analyses, dayOf) ==> !r.data.isSlow
    ensures AnalysisNullKey in qs.filters && qs.filters[AnalysisNullKey] == AnalysisIsNull(false) ==>
      forall r :: r in Rows(qs, records, analyses, dayOf) ==> r.id in analyses
    ensures AnalysisNullKey in qs.filters && qs.filters[AnalysisNullKey] == AnalysisIsNull(true) ==>
      forall r :: r in Rows(qs, records, analyses, dayOf) ==> r.id !in analyses
  {
    forall r | r in Rows(qs, records, analyses, dayOf)
      ensures IsSlowKey in qs.filters ==> Holds(r, r.id in analyses, qs.filters[IsSlowKey], dayOf)
      ensures AnalysisNullKey in qs.filters ==> Holds(r, r.id in analyses, qs.filters[AnalysisNullKey], dayOf)
    {
    }
  }

  /** The list a request selects: with `slowness=slow` only slow records,
      with `analysis_status=unanalyzed` only records without an analysis,
      and so on for the other two values. */
  lemma ListedRecordsMatchRequest(get: QueryString, parseDate: string -> Option<int>, parseFloat: string -> Option<real>,
                                  qs: QuerySet, records: seq<QueryRecord>, analyses: map<nat, QueryAnalysis>, dayOf: nat -> int)
    requires forall key :: Entry(qs.filters, key) == FilterFor(get, parseDate, parseFloat, key)
    ensures Param(get, "slowness") == Some("slow") ==> forall r :: r in Rows(qs, records, analyses, dayOf) ==> r.data.isSlow
    ensures Param(get, "slowness") == Some("fast") ==> forall r :: r in Rows(qs, records, analyses, dayOf) ==> !r.data.isSlow
    ensures Param(get, "analysis_status") == Some("analyzed") ==>
      forall r :: r in Rows(qs, records, analyses, dayOf) ==> r.id in analyses
    ensures Param(get, "analysis_status") == Some("unanalyzed") ==>
      forall r :: r in Rows(qs, records, analyses, dayOf) ==> r.id !in analyses
  {
    ChoiceFiltersMapping(get, parseDate, parseFloat);
    assert Entry(qs.filters, IsSlowKey) == FilterFor(get, parseDate, parseFloat, IsSlowKey);
    assert Entry(qs.filters, AnalysisNullKey) == FilterFor(get, parseDate, parseFloat, AnalysisNullKey);
    FilterMeanings(qs, records, analyses, dayOf);
  }

  /** Without filters every record is listed. */
  lemma {:induction false} NoFiltersListsAll(ordering: string, records: seq<QueryRecord>, analyses: map<nat, QueryAnalysis>, dayOf: nat -> int)
    ensures Rows(QuerySet(map[], ordering), records, analyses, dayOf) == records
  {
    if |records| > 0 {
      NoFiltersListsAll(ordering, records[1..], analyses, dayOf);
      assert records == [records[0]] + records[1..];
    }
  }

  // ---------------------------------------------------------------------
  // AnalysisDetailView.get_context_data
  // ---------------------------------------------------------------------

  /** The `analysis_data` entry of the detail page: the five response keys,
      each read from the stored mapping with '' as default, except the
      suggestions, which come from the denormalised field. */
  function AnalysisData(a: QueryAnalysis): (data: map<string, string>)
    ensures data.Keys == set k | k in Services.ResponseKeys
    ensures data["optimization_suggestions"] == a.suggestedOptimization
    ensures forall k :: k in data && k != "optimization_suggestions" ==> data[k] == GetOr(a.analysis, k, "")
  {
    map[
      "analysis" := GetOr(a.analysis, "analysis", ""),
      "optimization_suggestions" := a.suggestedOptimization,
      "optimized_query" := GetOr(a.analysis, "optimized_query", ""),
      "index_suggestions" := GetOr(a.analysis, "index_suggestions", ""),
      "django_orm_improvements" := GetOr(a.analysis, "django_orm_improvements", "")]
  }

  /** The detail page's context: the preview and the flags of the record and
      the analysis, with the analysis data. */
  datatype DetailContext = DetailContext(
    queryPreview: string, isSlow: bool, createdAt: nat, applied: bool, appliedAt: Option<nat>,
    analysisData: map<string, string>)

  function AnalysisDetailContext(record: QueryRecord, a: QueryAnalysis): (c: DetailContext)
    ensures |c.queryPreview| <= ShortQueryLength + 3
    ensures c.queryPreview == ShortQuery(record.data.query)
    ensures c.isSlow == record.data.isSlow && c.createdAt == a.createdAt
    ensures c.applied == a.applied && c.appliedAt == a.appliedAt
    ensures c.analysisData == AnalysisData(a)
    ensures "optimization_suggestions" in c.analysisData && c.analysisData["optimization_suggestions"] == a.suggestedOptimization
  {
    DetailContext(ShortQuery(record.data.query), record.data.isSlow, a.createdAt, a.applied, a.appliedAt, AnalysisData(a))
  }

  /** For an analysis the view stored, the page shows each of the five keys
      as the parsed mapping has it, '' where the mapping lacks it: the
      denormalised suggestion agrees with the mapping. */
  lemma StoredAnalysisShownAsParsed(id: nat, analysis: map<string, string>, clock: nat, k: string)
    requires k in Services.ResponseKeys
    ensures AnalysisData(NewAnalysis(id, analysis, SuggestionOf(analysis), clock))[k] == GetOr(analysis, k, "")
  {
  }

  /** A reply that did not decode is shown exactly as the parser's fallback. */
  lemma FallbackShownAsIs(id: nat, text: string, clock: nat)
    ensures var fallback := Services.Fallback(text);
      AnalysisData(NewAnalysis(id, fallback, SuggestionOf(fallback), clock)) == fallback
  {
    var fallback := Services.Fallback(text);
    var data := AnalysisData(NewAnalysis(id, fallback, SuggestionOf(fallback), clock));
    assert data.Keys == fallback.Keys;
  }
}
