/** The store of records and analyses that `QueryRecord.objects` and
    `QueryAnalysis.objects` stand for, as an in-memory ledger: records in
    creation order, and the analyses keyed by the id of the record they
    belong to (the one-to-one field). */
module Store {
  import opened Wrappers
  import opened Models

  /** The creation data of each record, in order. */
  function DataOf(rs: seq<QueryRecord>): (ds: seq<RecordData>)
    ensures |ds| == |rs|
    ensures forall i :: 0 <= i < |rs| ==> ds[i] == rs[i].data
  {
    seq(|rs|, i requires 0 <= i < |rs| => rs[i].data)
  }

  predicate HasRecord(rs: seq<QueryRecord>, id: nat) {
    exists i :: 0 <= i < |rs| && rs[i].id == id
  }

  /** `QueryRecord.objects.get(id=id)`: None stands for `DoesNotExist`. */
  function Find(rs: seq<QueryRecord>, id: nat): (r: Option<QueryRecord>)
    ensures r.Some? <==> HasRecord(rs, id)
    ensures r.Some? ==> r.value in rs && r.value.id == id
  {
    if |rs| == 0 then None
    else if rs[0].id == id then Some(rs[0])
    else
      var r := Find(rs[1..], id);
      assert HasRecord(rs, id) ==> HasRecord(rs[1..], id) by {
        if HasRecord(rs, id) {
          var i :| 0 <= i < |rs| && rs[i].id == id;
          assert rs[1..][i - 1] == rs[i];
        }
      }
      assert r.Some? ==> HasRecord(rs, id) by {
        if r.Some? {
          var i :| 0 <= i < |rs[1..]| && rs[1..][i].id == id;
          assert rs[i + 1] == rs[1..][i];
        }
      }
      r
  }

  /** The records without the one whose id is `id`. */
  function Without(rs: seq<QueryRecord>, id: nat): (t: seq<QueryRecord>)
    ensures forall x :: x in t <==> x in rs && x.id != id
    ensures |t| <= |rs|
  {
    if |rs| == 0 then []
    else (if rs[0].id == id then [] else [rs[0]]) + Without(rs[1..], id)
  }

  /** Ids and timestamps strictly increase along the sequence. */
  predicate Ordered(rs: seq<QueryRecord>) {
    forall i, j :: 0 <= i < j < |rs| ==> rs[i].id < rs[j].id && rs[i].timestamp < rs[j].timestamp
  }

  /** Every row has an id below `nextId`, a timestamp below `clock`, and fits its columns. */
  predicate Bounded(rs: seq<QueryRecord>, nextId: nat, clock: nat) {
    forall i :: 0 <= i < |rs| ==> rs[i].id < nextId && rs[i].timestamp < clock && FitsColumns(rs[i].data)
  }

  lemma {:induction false} WithoutKeepsOrder(rs: seq<QueryRecord>, id: nat)
    requires Ordered(rs)
    ensures Ordered(Without(rs, id))
  {
    if |rs| > 0 {
      WithoutKeepsOrder(rs[1..], id);
      var rest := Without(rs[1..], id);
      if rs[0].id != id {
        assert Without(rs, id) == [rs[0]] + rest;
        forall k | 0 <= k < |rest| ensures rs[0].id < rest[k].id && rs[0].timestamp < rest[k].timestamp {
          assert rest[k] in rs[1..];
        }
      }
    }
  }

  /** Deleting keeps the records ordered and within their bounds. */
  lemma WithoutKeepsInvariant(rs: seq<QueryRecord>, id: nat, nextId: nat, clock: nat)
    requires Ordered(rs) && Bounded(rs, nextId, clock)
    ensures Ordered(Without(rs, id)) && Bounded(Without(rs, id), nextId, clock)
  {
    WithoutKeepsOrder(rs, id);
    var t := Without(rs, id);
    forall k | 0 <= k < |t| ensures t[k].id < nextId && t[k].timestamp < clock && FitsColumns(t[k].data) {
      assert t[k] in rs;
    }
  }

  lemma StillThere(rs: seq<QueryRecord>, id: nat, k: nat)
    requires HasRecord(rs, k) && k != id
    ensures HasRecord(Without(rs, id), k)
  {
    var i :| 0 <= i < |rs| && rs[i].id == k;
    var t := Without(rs, id);
    assert rs[i] in t;
    var j :| 0 <= j < |t| && t[j] == rs[i];
  }

  class QueryLedger {
    var records: seq<QueryRecord>
    /** The analysis of each analysed record, keyed by the record's id. */
    var analyses: map<nat, QueryAnalysis>
    var nextId: nat
    /** The store's clock, read by `auto_now_add`. */
    var clock: nat

    /** Ids are unique and increasing, timestamps strictly increasing, every
        row fits its columns, and every analysis belongs to a stored record
        (so deleting a record must delete its analysis). */
    ghost predicate Valid()
      reads this
    {
      && Bounded(records, nextId, clock)
      && Ordered(records)
      && (forall id :: id in analyses ==>
            analyses[id].recordId == id && HasRecord(records, id) && analyses[id].createdAt < clock)
    }

    constructor ()
      ensures Valid()
      ensures records == [] && analyses == map[]
    {
      records, analyses, nextId, clock := [], map[], 0, 0;
    }

    /** `QueryRecord.objects.create(**d)`: fails, writing nothing, when the
        data does not fit the columns. */
    method CreateRecord(d: RecordData) returns (ok: bool)
      requires Valid()
      modifies this
      ensures Valid()
      ensures ok == FitsColumns(d)
      ensures ok ==> records == old(records) + [QueryRecord(old(nextId), old(clock), d)]
      ensures !ok ==> records == old(records)
      ensures DataOf(records) == DataOf(old(records)) + (if ok then [d] else [])
      ensures analyses == old(analyses)
    {
      ok := FitsColumns(d);
      if ok {
        var r := QueryRecord(nextId, clock, d);
        records := records + [r];
        nextId, clock := nextId + 1, clock + 1;
        assert forall id :: HasRecord(old(records), id) ==> HasRecord(records, id) by {
          forall id | HasRecord(old(records), id) ensures HasRecord(records, id) {
            var i :| 0 <= i < |old(records)| && old(records)[i].id == id;
            assert records[i] == old(records)[i];
          }
        }
      }
      assert DataOf(records) == DataOf(old(records)) + (if ok then [d] else []);
    }

    /** `QueryAnalysis.objects.create(query_record=..., ...)`: fails, writing
        nothing, when the record is not stored or already has an analysis
        (the one-to-one column is unique). */
    method CreateAnalysis(recordId: nat, analysis: map<string, string>, suggestion: string) returns (ok: bool)
      requires Valid()
      modifies this
      ensures Valid()
      ensures ok == (HasRecord(records, recordId) && recordId !in old(analyses))
      ensures ok ==> analyses == old(analyses)[recordId := NewAnalysis(recordId, analysis, suggestion, old(clock))]
      ensures !ok ==> analyses == old(analyses)
      ensures records == old(records)
    {
      ok := HasRecord(records, recordId) && recordId !in analyses;
      if ok {
        analyses := analyses[recordId := NewAnalysis(recordId, analysis, suggestion, clock)];
        clock := clock + 1;
      }
    }

    /** Deleting a record deletes its analysis with it (`on_delete=CASCADE`). */
    method DeleteRecord(id: nat)
      requires Valid()
      modifies this
      ensures Valid()
      ensures records == Without(old(records), id)
      ensures analyses == old(analyses) - {id}
    {
      WithoutKeepsInvariant(records, id, nextId, clock);
      var kept := Without(records, id);
      forall k | k in analyses && k != id ensures HasRecord(kept, k) {
        StillThere(records, id, k);
      }
      records := kept;
      analyses := analyses - {id};
    }

    /** `QueryRecord.objects.get(id=id)` */
    method Get(id: nat) returns (r: Option<QueryRecord>)
      ensures r == Find(records, id)
    {
      r := Find(records, id);
    }

    /** `hasattr(record, 'analysis')` */
    method HasAnalysis(id: nat) returns (b: bool)
      ensures b == (id in analyses)
    {
      b := id in analyses;
    }
  }
}
