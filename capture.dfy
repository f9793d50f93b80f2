/** What both capture integrations (the middleware and the `track_queries`
    decorator) work on: the connection's append-only query log, the request
    and response of a unit of work, and the handler being wrapped. The
    per-entry loop both integrations run is specified here once, by
    `Collect`: each log entry after the baseline yields at most one record,
    in log order. */
module Capture {
  import opened Wrappers
  import opened Models
  import opened Store

  /** One item of `connection.queries`: `{'sql': ..., 'time': ...}`. */
  datatype LogEntry = LogEntry(sql: string, time: string)

  /** An attribute an object may or may not have (`hasattr`). */
  datatype Attr<T> = Missing | Has(value: T)

  /** `request.resolver_match`: the routed view's function name (absent for
      callables without `__name__`), its `view_name` and its `url_name`. */
  datatype ResolverMatch = ResolverMatch(funcName: Option<string>, viewName: string, urlName: Option<string>)

  /** The parts of a request the capture reads, as they are when it reads
      them. `contentType` is `Missing` when the request object has no
      `content_type` attribute. */
  datatype Request = Request(
    path: string,
    requestMethod: Option<string>,
    contentType: Attr<Option<string>>,
    queryParams: map<string, seq<string>>,
    resolverMatch: Option<ResolverMatch>)

  /** A response; `statusCode` is None when it has no `status_code` attribute. */
  datatype Response = Response(statusCode: Option<int>)

  /** How a call of the wrapped handler ends. */
  datatype Outcome = Returned(response: Response) | Raised(error: string)

  /** What the wrapped handler does: the queries it executes, in order, and
      how it ends. */
  datatype HandlerRun = HandlerRun(executed: seq<LogEntry>, outcome: Outcome)

  /** `response.status_code` when present, otherwise 200. */
  function StatusOr200(r: Response): (code: int)
    ensures r.statusCode.Some? ==> code == r.statusCode.value
    ensures r.statusCode.None? ==> code == 200
  {
    r.statusCode.GetOr(200)
  }

  /** `connection.queries`: every query the connection executes is appended. */
  class QueryLog {
    var entries: seq<LogEntry>

    constructor (entries: seq<LogEntry>)
      ensures this.entries == entries
    {
      this.entries := entries;
    }

    /** Calls the handler: its queries are appended to the log. */
    method Run(handler: HandlerRun) returns (outcome: Outcome)
      modifies this
      ensures entries == old(entries) + handler.executed
      ensures outcome == handler.outcome
    {
      entries := entries + handler.executed;
      outcome := handler.outcome;
    }

    /** The statements a `create` call executes are appended. */
    method Log(executed: seq<LogEntry>)
      modifies this
      ensures entries == old(entries) + executed
    {
      entries := entries + executed;
    }
  }

  /** What the connection logs for the `create` calls made with `records`
      in order, where `insert` gives what one call logs (its INSERT when
      queries are logged, nothing otherwise). */
  function Inserts(records: seq<RecordData>, insert: RecordData -> seq<LogEntry>): (logged: seq<LogEntry>)
    ensures records == [] ==> logged == []
    ensures |records| == 1 ==> logged == insert(records[0])
  {
    if records == [] then [] else insert(records[0]) + Inserts(records[1..], insert)
  }

  lemma {:induction false} InsertsSnoc(records: seq<RecordData>, d: RecordData, insert: RecordData -> seq<LogEntry>)
    ensures Inserts(records + [d], insert) == Inserts(records, insert) + insert(d)
  {
    if records == [] {
      assert records + [d] == [d];
    } else {
      assert (records + [d])[1..] == records[1..] + [d];
      InsertsSnoc(records[1..], d, insert);
    }
  }

  // ---------------------------------------------------------------------
  // The capture loop, specified
  // ---------------------------------------------------------------------

  /** The records a capture loop creates from `entries`, where `f` says what
      one entry yields: a record, or None when it is filtered out or its
      `try` block fails. */
  function Collect(entries: seq<LogEntry>, f: LogEntry -> Option<RecordData>): (records: seq<RecordData>)
    ensures |records| <= |entries|
  {
    if |entries| == 0 then []
    else
      (if f(entries[0]).Some? then [f(entries[0]).value] else []) + Collect(entries[1..], f)
  }

  /** The loop can be run one entry at a time. */
  lemma {:induction false} CollectSnoc(entries: seq<LogEntry>, e: LogEntry, f: LogEntry -> Option<RecordData>)
    ensures Collect(entries + [e], f) == Collect(entries, f) + (if f(e).Some? then [f(e).value] else [])
  {
    if |entries| == 0 {
      assert entries + [e] == [e];
      assert Collect([e][1..], f) == [];
    } else {
      var head := if f(entries[0]).Some? then [f(entries[0]).value] else [];
      assert (entries + [e])[1..] == entries[1..] + [e];
      assert Collect(entries + [e], f) == head + Collect(entries[1..] + [e], f);
      CollectSnoc(entries[1..], e, f);
    }
  }

  /** Collecting over two stretches of the log is collecting over each. */
  lemma {:induction false} CollectAppend(a: seq<LogEntry>, b: seq<LogEntry>, f: LogEntry -> Option<RecordData>)
    ensures Collect(a + b, f) == Collect(a, f) + Collect(b, f)
  {
    if |a| > 0 {
      assert (a + b)[1..] == a[1..] + b;
      CollectAppend(a[1..], b, f);
    } else {
      assert a + b == b;
    }
  }

  /** An entry whose attempt fails is skipped: the entries before and after
      it are recorded as if it were not there. */
  lemma FailedEntrySkipped(before: seq<LogEntry>, e: LogEntry, after: seq<LogEntry>, f: LogEntry -> Option<RecordData>)
    requires f(e).None?
    ensures Collect(before + [e] + after, f) == Collect(before, f) + Collect(after, f)
  {
    CollectAppend(before + [e], after, f);
    CollectSnoc(before, e, f);
  }

  /** The indices of the entries that yield a record, in log order. */
  function Hits(entries: seq<LogEntry>, f: LogEntry -> Option<RecordData>): (hits: seq<nat>)
    ensures forall k :: 0 <= k < |hits| ==> hits[k] < |entries|
  {
    if |entries| == 0 then []
    else
      var rest := Hits(entries[1..], f);
      (if f(entries[0]).Some? then [0] else []) + seq(|rest|, k requires 0 <= k < |rest| => rest[k] + 1)
  }

  lemma {:induction false} HitsMatchRecords(entries: seq<LogEntry>, f: LogEntry -> Option<RecordData>)
    ensures |Hits(entries, f)| == |Collect(entries, f)|
    ensures forall k :: 0 <= k < |Hits(entries, f)| ==>
      f(entries[Hits(entries, f)[k]]) == Some(Collect(entries, f)[k])
  {
    if |entries| > 0 {
      var tail := entries[1..];
      HitsMatchRecords(tail, f);
      var rest := Hits(tail, f);
      var hits := Hits(entries, f);
      var records := Collect(entries, f);
      var d := if f(entries[0]).Some? then 1 else 0;
      forall k | 0 <= k < |hits| ensures f(entries[hits[k]]) == Some(records[k]) {
        if k >= d {
          assert hits[k] == rest[k - d] + 1;
          assert records[k] == Collect(tail, f)[k - d];
          assert entries[hits[k]] == tail[rest[k - d]];
        }
      }
    }
  }

  lemma {:induction false} HitsIncrease(entries: seq<LogEntry>, f: LogEntry -> Option<RecordData>)
    ensures forall k, l :: 0 <= k < l < |Hits(entries, f)| ==> Hits(entries, f)[k] < Hits(entries, f)[l]
  {
    if |entries| > 0 {
      HitsIncrease(entries[1..], f);
    }
  }

  lemma {:induction false} HitsAreYielders(entries: seq<LogEntry>, f: LogEntry -> Option<RecordData>)
    ensures forall i :: 0 <= i < |entries| ==> (f(entries[i]).Some? <==> i in Hits(entries, f))
  {
    if |entries| > 0 {
      var tail := entries[1..];
      HitsAreYielders(tail, f);
      var rest := Hits(tail, f);
      var shifted := seq(|rest|, k requires 0 <= k < |rest| => rest[k] + 1);
      var hits := Hits(entries, f);
      assert hits == (if f(entries[0]).Some? then [0] else []) + shifted;
      forall i | 0 < i < |entries| ensures f(entries[i]).Some? <==> i in hits {
        assert entries[i] == tail[i - 1];
        if i - 1 in rest {
          var k :| 0 <= k < |rest| && rest[k] == i - 1;
          assert shifted[k] == i;
        }
        if i in shifted {
          var k :| 0 <= k < |shifted| && shifted[k] == i;
          assert rest[k] == i - 1;
        }
      }
    }
  }

  /** Record k comes from entry Hits[k]; the hits increase strictly (one
      record per entry at most, in log order); and an entry yields a record
      exactly when it is a hit. */
  lemma CollectFromHits(entries: seq<LogEntry>, f: LogEntry -> Option<RecordData>)
    ensures var hits := Hits(entries, f); var records := Collect(entries, f);
      && |hits| == |records|
      && (forall k :: 0 <= k < |hits| ==> f(entries[hits[k]]) == Some(records[k]))
      && (forall k, l :: 0 <= k < l < |hits| ==> hits[k] < hits[l])
      && (forall i :: 0 <= i < |entries| ==> (f(entries[i]).Some? <==> i in hits))
  {
    HitsMatchRecords(entries, f);
    HitsIncrease(entries, f);
    HitsAreYielders(entries, f);
  }

  /** Every created record comes from some entry of the slice. */
  lemma CollectedComeFromEntries(entries: seq<LogEntry>, f: LogEntry -> Option<RecordData>, d: RecordData)
    requires d in Collect(entries, f)
    ensures exists i :: 0 <= i < |entries| && f(entries[i]) == Some(d)
  {
    CollectFromHits(entries, f);
    var records := Collect(entries, f);
    var k :| 0 <= k < |records| && records[k] == d;
    var i := Hits(entries, f)[k];
    assert f(entries[i]) == Some(d);
  }

  // ---------------------------------------------------------------------
  // The capture loop, implemented
  // ---------------------------------------------------------------------

  /** What an entry leaves in the store, given what its `try` block passes to
      `create`: the store refuses data that does not fit the columns. */
  function Stored(attempt: LogEntry -> Option<RecordData>): LogEntry -> Option<RecordData> {
    (e: LogEntry) => if attempt(e).Some? && FitsColumns(attempt(e).value) then attempt(e) else None
  }

  lemma InsertsOfSnoc(entries: seq<LogEntry>, e: LogEntry, attempt: LogEntry -> Option<RecordData>,
                      insert: RecordData -> seq<LogEntry>)
    ensures Inserts(Collect(entries + [e], attempt), insert) ==
      Inserts(Collect(entries, attempt), insert) + (if attempt(e).Some? then insert(attempt(e).value) else [])
  {
    CollectSnoc(entries, e, attempt);
    if attempt(e).Some? {
      InsertsSnoc(Collect(entries, attempt), attempt(e).value, insert);
    } else {
      assert Collect(entries, attempt) + [] == Collect(entries, attempt);
    }
  }

  /** `for query in connection.queries[initial:]: try: ... create(...)
      except Exception: continue`, where `attempt` is the `try` block up to
      the `create` call (None when it raises or the entry is skipped) and
      `insert` is what one `create` call adds to the connection's log, which
      it does whether or not the row is stored. The loop walks `queries`,
      taken before it starts, so its own INSERTs are not captured. */
  method CaptureEach(queries: seq<LogEntry>, attempt: LogEntry -> Option<RecordData>,
                     insert: RecordData -> seq<LogEntry>, log: QueryLog, ledger: QueryLedger)
    requires ledger.Valid()
    modifies log, ledger
    ensures ledger.Valid()
    ensures ledger.analyses == old(ledger.analyses)
    ensures old(ledger.records) <= ledger.records
    ensures DataOf(ledger.records) == DataOf(old(ledger.records)) + Collect(queries, Stored(attempt))
    ensures log.entries == old(log.entries) + Inserts(Collect(queries, attempt), insert)
  {
    ghost var done: seq<LogEntry> := [];
    var i := 0;
    while i < |queries|
      invariant 0 <= i <= |queries| && done == queries[..i]
      invariant ledger.Valid()
      invariant ledger.analyses == old(ledger.analyses)
      invariant old(ledger.records) <= ledger.records
      invariant DataOf(ledger.records) == DataOf(old(ledger.records)) + Collect(done, Stored(attempt))
      invariant log.entries == old(log.entries) + Inserts(Collect(done, attempt), insert)
    {
      CaptureOne(done, old(ledger.records), old(log.entries), queries[i], attempt, insert, log, ledger);
      done := done + [queries[i]];
      i := i + 1;
    }
    assert done == queries;
  }

  /** One turn of the loop, after the entries `done`: the row and the
      INSERT the next entry yields extend what the earlier turns left. */
  method CaptureOne(ghost done: seq<LogEntry>, ghost records: seq<QueryRecord>, ghost logged: seq<LogEntry>,
                    query: LogEntry, attempt: LogEntry -> Option<RecordData>,
                    insert: RecordData -> seq<LogEntry>, log: QueryLog, ledger: QueryLedger)
    requires ledger.Valid() && records <= ledger.records
    requires DataOf(ledger.records) == DataOf(records) + Collect(done, Stored(attempt))
    requires log.entries == logged + Inserts(Collect(done, attempt), insert)
    modifies log, ledger
    ensures ledger.Valid()
    ensures ledger.analyses == old(ledger.analyses)
    ensures records <= ledger.records
    ensures DataOf(ledger.records) == DataOf(records) + Collect(done + [query], Stored(attempt))
    ensures log.entries == logged + Inserts(Collect(done + [query], attempt), insert)
  {
    var data := attempt(query);
    if data.Some? {
      var created := ledger.CreateRecord(data.value);
      log.Log(insert(data.value));
    }
    CollectSnoc(done, query, Stored(attempt));
    InsertsOfSnoc(done, query, attempt, insert);
  }
}
