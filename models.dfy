/** The two stored entities, `QueryRecord` and `QueryAnalysis`, their
    column bounds and defaults, and the record-level helpers of
    query_optimizer/models.py: `short_query`, `get_slow_queries` and
    `get_queries_by_view`, and the default newest-first ordering. */
module Models {
  import opened Wrappers

  /** The keyword arguments `QueryRecord.objects.create` is called with:
      every column except the generated id and timestamp. */
  datatype RecordData = RecordData(
    query: string,
    duration: real,
    isSlow: bool,
    viewName: Option<string>,
    urlPath: Option<string>,
    stackTrace: string,
    queryParams: map<string, seq<string>>,
    requestMethod: Option<string>,
    requestContentType: Option<string>,
    responseStatusCode: Option<int>)

  /** A stored row: the primary key and the `auto_now_add` timestamp that
      the store assigns, and the data the creator passed. */
  datatype QueryRecord = QueryRecord(id: nat, timestamp: nat, data: RecordData)

  /** A stored analysis, linked one-to-one to the record `recordId`. */
  datatype QueryAnalysis = QueryAnalysis(
    recordId: nat,
    analysis: map<string, string>,
    suggestedOptimization: string,
    createdAt: nat,
    applied: bool,
    appliedAt: Option<nat>)

  const ViewNameMaxLength := 255
  const UrlPathMaxLength := 255
  const RequestMethodMaxLength := 10
  const ContentTypeMaxLength := 100
  /** The largest value of a `PositiveSmallIntegerField`. */
  const SmallIntegerMax := 32767

  function LengthOk(s: Option<string>, max: nat): bool {
    s.None? || |s.value| <= max
  }

  /** The data fits the declared columns: the string lengths of the
      `CharField`s and the range of the status-code column. */
  predicate FitsColumns(d: RecordData) {
    && LengthOk(d.viewName, ViewNameMaxLength)
    && LengthOk(d.urlPath, UrlPathMaxLength)
    && LengthOk(d.requestMethod, RequestMethodMaxLength)
    && LengthOk(d.requestContentType, ContentTypeMaxLength)
    && (d.responseStatusCode.None? || 0 <= d.responseStatusCode.value <= SmallIntegerMax)
  }

  /** A freshly created analysis: not applied, no applied time. */
  function NewAnalysis(recordId: nat, analysis: map<string, string>, suggestion: string, createdAt: nat): (a: QueryAnalysis)
    ensures a.recordId == recordId && a.analysis == analysis
    ensures a.suggestedOptimization == suggestion && a.createdAt == createdAt
    ensures !a.applied && a.appliedAt == None
  {
    QueryAnalysis(recordId, analysis, suggestion, createdAt, false, None)
  }

  const ShortQueryLength := 100

  /** `QueryRecord.short_query`: the first 100 characters of the query,
      followed by an ellipsis when something was cut. */
  function ShortQuery(query: string): (preview: string)
    ensures |query| <= ShortQueryLength ==> preview == query
    ensures |query| > ShortQueryLength ==>
      |preview| == ShortQueryLength + 3 && preview[..ShortQueryLength] == query[..ShortQueryLength]
      && preview[ShortQueryLength..] == "..."
    ensures |preview| <= ShortQueryLength + 3
  {
    if |query| > ShortQueryLength then query[..ShortQueryLength] + "..." else query
  }

  // ---------------------------------------------------------------------
  // Filtering and ordering of a record collection
  // ---------------------------------------------------------------------

  /** The `filter(...)` conditions the record helpers use. */
  datatype Criterion =
    | DurationAbove(threshold: real)   // duration__gt=threshold
    | ViewIs(view: Option<string>)     // view_name=view (None is IS NULL)

  predicate Meets(r: QueryRecord, c: Criterion) {
    match c
    case DurationAbove(t) => r.data.duration > t
    case ViewIs(v) => r.data.viewName == v
  }

  /** The records meeting `c`, in their original order. */
  function Where(rs: seq<QueryRecord>, c: Criterion): (selected: seq<QueryRecord>)
    ensures forall x :: multiset(selected)[x] == if Meets(x, c) then multiset(rs)[x] else 0
    ensures forall x :: x in selected ==> Meets(x, c)
  {
    if |rs| == 0 then []
    else
      assert rs == [rs[0]] + rs[1..];
      (if Meets(rs[0], c) then [rs[0]] else []) + Where(rs[1..], c)
  }

  /** The columns an `order_by` can use here. */
  datatype SortField = Duration | Timestamp

  function Key(r: QueryRecord, f: SortField): real {
    match f
    case Duration => r.data.duration
    case Timestamp => r.timestamp as real
  }

  predicate SortedDesc(rs: seq<QueryRecord>, f: SortField) {
    forall i, j :: 0 <= i < j < |rs| ==> Key(rs[i], f) >= Key(rs[j], f)
  }

  /** Places `r` before the first element it does not come after. */
  function Insert(r: QueryRecord, rs: seq<QueryRecord>, f: SortField): (t: seq<QueryRecord>)
    requires SortedDesc(rs, f)
    ensures SortedDesc(t, f)
    ensures multiset(t) == multiset(rs) + multiset{r}
    ensures |t| > 0 && (t[0] == r || (|rs| > 0 && t[0] == rs[0]))
  {
    if |rs| == 0 || Key(r, f) >= Key(rs[0], f) then
      [r] + rs
    else
      assert rs == [rs[0]] + rs[1..];
      [rs[0]] + Insert(r, rs[1..], f)
  }

  /** `order_by('-' + f)`: a stable sort, largest key first. */
  function SortDesc(rs: seq<QueryRecord>, f: SortField): (t: seq<QueryRecord>)
    ensures SortedDesc(t, f)
    ensures multiset(t) == multiset(rs)
  {
    if |rs| == 0 then []
    else
      assert rs == [rs[0]] + rs[1..];
      Insert(rs[0], SortDesc(rs[1..], f), f)
  }

  /** The threshold `get_slow_queries` uses when none is given. */
  const DefaultSlowThreshold: real := 0.5

  /** `QueryRecord.get_slow_queries(threshold)`, `threshold` None when the
      caller leaves it out: exactly the records slower than the threshold
      (strictly), slowest first. */
  function GetSlowQueries(rs: seq<QueryRecord>, threshold: Option<real>): (slow: seq<QueryRecord>)
    ensures SortedDesc(slow, Duration)
    ensures forall x :: multiset(slow)[x] ==
                        if x.data.duration > threshold.GetOr(DefaultSlowThreshold) then multiset(rs)[x] else 0
  {
    SortDesc(Where(rs, DurationAbove(threshold.GetOr(DefaultSlowThreshold))), Duration)
  }

  /** `QueryRecord.get_queries_by_view(view_name)`: exactly the records of
      that view, slowest first. */
  function GetQueriesByView(rs: seq<QueryRecord>, view: Option<string>): (selected: seq<QueryRecord>)
    ensures SortedDesc(selected, Duration)
    ensures forall x :: multiset(selected)[x] == if x.data.viewName == view then multiset(rs)[x] else 0
  {
    SortDesc(Where(rs, ViewIs(view)), Duration)
  }

  /** The default ordering of records, `-timestamp`. */
  function NewestFirst(rs: seq<QueryRecord>): (t: seq<QueryRecord>)
    ensures SortedDesc(t, Timestamp)
    ensures multiset(t) == multiset(rs)
  {
    SortDesc(rs, Timestamp)
  }

  predicate StrictlyIncreasingTimestamps(rs: seq<QueryRecord>) {
    forall i, j :: 0 <= i < j < |rs| ==> rs[i].timestamp < rs[j].timestamp
  }

  function Reversed(rs: seq<QueryRecord>): (t: seq<QueryRecord>)
    ensures |t| == |rs|
  {
    if |rs| == 0 then [] else Reversed(rs[1..]) + [rs[0]]
  }

  lemma {:induction false} InsertSmallest(r: QueryRecord, rs: seq<QueryRecord>, f: SortField)
    requires SortedDesc(rs, f)
    requires forall i :: 0 <= i < |rs| ==> Key(rs[i], f) > Key(r, f)
    ensures Insert(r, rs, f) == rs + [r]
  {
    if |rs| > 0 {
      assert rs == [rs[0]] + rs[1..];
      InsertSmallest(r, rs[1..], f);
    }
  }

  /** When records were stamped in increasing time order (as the store
      stamps them), newest first is the reverse of creation order. */
  lemma {:induction false} NewestFirstIsReverse(rs: seq<QueryRecord>)
    requires StrictlyIncreasingTimestamps(rs)
    ensures NewestFirst(rs) == Reversed(rs)
  {
    if |rs| > 0 {
      var tail := rs[1..];
      assert StrictlyIncreasingTimestamps(tail);
      NewestFirstIsReverse(tail);
      var sorted := SortDesc(tail, Timestamp);
      assert sorted == Reversed(tail);
      forall i | 0 <= i < |sorted| ensures Key(sorted[i], Timestamp) > Key(rs[0], Timestamp) {
        assert sorted[i] in multiset(tail);
        var j :| 0 <= j < |tail| && tail[j] == sorted[i];
        assert rs[j + 1] == tail[j];
      }
      InsertSmallest(rs[0], sorted, Timestamp);
    }
  }
}
