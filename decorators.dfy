/** query_optimizer/decorators.py: the `track_queries` view decorator, which
    records every query a single view executes. */
module Decorators {
  import opened Wrappers
  import opened Settings
  import opened Models
  import opened Store
  import opened Capture

  /** The keyword arguments of `track_queries`. */
  datatype TrackOptions = TrackOptions(enabled: bool, threshold: Value, captureStack: bool, captureParams: bool)

  const DefaultOptions := TrackOptions(true, Float(0.5), true, true)

  /** The first positional argument of the wrapped view. `ViewInstance` is
      an object with a `request` attribute (a DRF view's `self`); `Positional`
      is anything else, taken to be the request. A request of None stands for
      a falsy value. */
  datatype FirstArg =
    | ViewInstance(className: string, request: Option<Request>)
    | Positional(request: Option<Request>)

  /** The request and view name the wrapper determines. The second branch of
      the source repeats the test of the first and is never taken. */
  function Target(first: FirstArg): (t: (Option<Request>, string))
    ensures first.ViewInstance? ==> t == (first.request, first.className)
    ensures first.Positional? && first.request.Some? && first.request.value.resolverMatch.Some? ==>
      t.1 == first.request.value.resolverMatch.value.viewName
    ensures first.Positional? ==> t.0 == first.request
    ensures first.Positional? && (first.request.None? || first.request.value.resolverMatch.None?) ==> t.1 == ""
  {
    match first
    case ViewInstance(name, request) => (request, name)
    case Positional(request) =>
      var viewName :=
        if request.Some? && request.value.resolverMatch.Some? then request.value.resolverMatch.value.viewName else "";
      (request, viewName)
  }

  /** The `try` block for one entry, up to the `create` call: None when
      `float()` fails or the threshold does not compare. A request without
      `content_type` is recorded with ''. */
  function Attempt(opts: TrackOptions, request: Request, viewName: string, response: Response, stack: string,
                   parse: string -> Option<real>, e: LogEntry): Option<RecordData>
  {
    match parse(e.time)
    case None => None
    case Some(duration) =>
      match GreaterThan(duration, opts.threshold)
      case None => None
      case Some(isSlow) =>
        var contentType := match request.contentType case Has(ct) => ct case Missing => Some("");
        Some(RecordData(
          e.sql, duration, isSlow, Some(viewName), Some(request.path),
          if opts.captureStack then stack else "",
          if opts.captureParams then request.queryParams else map[],
          request.requestMethod, contentType, Some(StatusOr200(response))))
  }

  function Tried(opts: TrackOptions, request: Request, viewName: string, response: Response, stack: string,
                 parse: string -> Option<real>): LogEntry -> Option<RecordData>
  {
    (e: LogEntry) => Attempt(opts, request, viewName, response, stack, parse, e)
  }

  /** The records one decorated call leaves, given the queries it executed. */
  function DecoratorRecords(opts: TrackOptions, request: Request, viewName: string, response: Response, stack: string,
                            parse: string -> Option<real>, entries: seq<LogEntry>): seq<RecordData>
  {
    Collect(entries, Stored(Tried(opts, request, viewName, response, stack, parse)))
  }

  /** Does the wrapper track this call at all? */
  predicate Tracks(opts: TrackOptions, first: Option<FirstArg>) {
    opts.enabled && first.Some? && Target(first.value).0.Some?
  }

  /** Every record of a decorated call carries the decorator's own threshold
      classification, the view name, the path and status, the stack and
      parameters only when asked for, and comes from an executed entry. */
  lemma RecordsAreClassified(opts: TrackOptions, request: Request, viewName: string, response: Response, stack: string,
                             parse: string -> Option<real>, entries: seq<LogEntry>, d: RecordData)
    requires d in DecoratorRecords(opts, request, viewName, response, stack, parse, entries)
    ensures GreaterThan(d.duration, opts.threshold) == Some(d.isSlow)
    ensures d.viewName == Some(viewName) && d.urlPath == Some(request.path)
    ensures d.responseStatusCode == Some(StatusOr200(response))
    ensures d.stackTrace == if opts.captureStack then stack else ""
    ensures d.queryParams == if opts.captureParams then request.queryParams else map[]
    ensures request.contentType.Missing? ==> d.requestContentType == Some("")
    ensures FitsColumns(d)
    ensures exists i :: (0 <= i < |entries| && entries[i].sql == d.query && parse(entries[i].time) == Some(d.duration))
  {
    var f := Stored(Tried(opts, request, viewName, response, stack, parse));
    CollectedComeFromEntries(entries, f, d);
    var i :| 0 <= i < |entries| && f(entries[i]) == Some(d);
    assert Attempt(opts, request, viewName, response, stack, parse, entries[i]) == Some(d);
  }

  /** Unlike the middleware, the decorator does not filter: every entry whose
      time parses and whose data fits the columns is recorded (here with a
      threshold that compares with a float). */
  lemma {:induction false} EveryParsedEntryRecorded(opts: TrackOptions, request: Request, viewName: string,
      response: Response, stack: string, parse: string -> Option<real>, entries: seq<LogEntry>)
    requires Comparable(opts.threshold)
    requires forall i :: 0 <= i < |entries| ==> parse(entries[i].time).Some?
    requires LengthOk(Some(viewName), ViewNameMaxLength) && LengthOk(Some(request.path), UrlPathMaxLength)
    requires LengthOk(request.requestMethod, RequestMethodMaxLength)
    requires request.contentType.Has? ==> LengthOk(request.contentType.value, ContentTypeMaxLength)
    requires 0 <= StatusOr200(response) <= SmallIntegerMax
    ensures |DecoratorRecords(opts, request, viewName, response, stack, parse, entries)| == |entries|
  {
    if |entries| > 0 {
      assert forall i :: 0 <= i < |entries[1..]| ==> parse(entries[1..][i].time).Some? by {
        forall i | 0 <= i < |entries[1..]| ensures parse(entries[1..][i].time).Some? {
          assert entries[1..][i] == entries[i + 1];
        }
      }
      EveryParsedEntryRecorded(opts, request, viewName, response, stack, parse, entries[1..]);
      assert parse(entries[0].time).Some?;
      var d := Attempt(opts, request, viewName, response, stack, parse, entries[0]);
      assert d.Some? && FitsColumns(d.value);
    }
  }

  /** A threshold that does not compare with a float makes every
      comparison raise. */
  lemma {:induction false} IncomparableThresholdRecordsNothing(opts: TrackOptions, request: Request, viewName: string,
      response: Response, stack: string, parse: string -> Option<real>, entries: seq<LogEntry>)
    requires !Comparable(opts.threshold)
    ensures DecoratorRecords(opts, request, viewName, response, stack, parse, entries) == []
  {
    if |entries| > 0 {
      IncomparableThresholdRecordsNothing(opts, request, viewName, response, stack, parse, entries[1..]);
      assert Attempt(opts, request, viewName, response, stack, parse, entries[0]) == None;
    }
  }

  /** The view wrapped by `track_queries`. `first` is the first positional
      argument (None when there is none); `handler` is the view itself;
      `insert` is what one `create` call adds to `connection.queries`. */
  method Wrapped(opts: TrackOptions, first: Option<FirstArg>, handler: HandlerRun, stack: string,
                 parse: string -> Option<real>, insert: RecordData -> seq<LogEntry>,
                 log: QueryLog, ledger: QueryLedger) returns (outcome: Outcome)
    requires ledger.Valid()
    modifies log, ledger
    ensures ledger.Valid()
    ensures ledger.analyses == old(ledger.analyses)
    ensures old(ledger.records) <= ledger.records
    // With tracking enabled and no positional argument, `args[0]` raises
    // before the view runs.
    ensures opts.enabled && first.None? ==> outcome.Raised? && log.entries == old(log.entries)
    ensures !(opts.enabled && first.None?) ==> outcome == handler.outcome
    ensures !(opts.enabled && first.None?) ==>
      log.entries == old(log.entries) + handler.executed +
        if Tracks(opts, first) && outcome.Returned?
        then
          var (request, viewName) := Target(first.value);
          Inserts(Collect(handler.executed, Tried(opts, request.value, viewName, outcome.response, stack, parse)), insert)
        else []
    ensures DataOf(ledger.records) == DataOf(old(ledger.records)) +
      if Tracks(opts, first) && outcome.Returned?
      then
        var (request, viewName) := Target(first.value);
        DecoratorRecords(opts, request.value, viewName, outcome.response, stack, parse, handler.executed)
      else []
  {
    if !opts.enabled {
      outcome := log.Run(handler);
      return;
    }
    if first.None? {
      outcome := Raised("IndexError");
      return;
    }
    var (request, viewName) := Target(first.value);
    if request.None? {
      outcome := log.Run(handler);
      return;
    }
    var initialQueries := |log.entries|;
    outcome := log.Run(handler);
    if outcome.Raised? {
      return;
    }
    var queries := log.entries[initialQueries..];
    assert queries == handler.executed;
    CaptureEach(queries, Tried(opts, request.value, viewName, outcome.response, stack, parse), insert, log, ledger);
  }

  /** What `track_queries(...)` returns: the wrapped view when it is given
      the view directly, otherwise the decorator still to be applied. */
  datatype Decoration = WrappedView(opts: TrackOptions) | Decorator(opts: TrackOptions)

  /** `track_queries(view_func, ...)`: a function object is always truthy, so
      `view_func` given means it is wrapped at once. */
  function TrackQueries(viewFuncGiven: bool, opts: TrackOptions): (d: Decoration)
    ensures d.opts == opts
    ensures d.WrappedView? <==> viewFuncGiven
  {
    if viewFuncGiven then WrappedView(opts) else Decorator(opts)
  }

  /** Applying the returned decorator to a view. */
  function Apply(d: Decoration): (w: Decoration)
    requires d.Decorator?
  {
    WrappedView(d.opts)
  }

  /** `@track_queries` and `@track_queries(...)` wrap the view the same way. */
  lemma BothDecoratorFormsAgree(opts: TrackOptions)
    ensures TrackQueries(true, opts) == Apply(TrackQueries(false, opts))
    ensures TrackQueries(true, DefaultOptions) == WrappedView(TrackOptions(true, Float(0.5), true, true))
  {
  }
}
