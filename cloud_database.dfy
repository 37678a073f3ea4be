/** The CloudKit database the managers talk to, as an in-memory store of
    records keyed by record id. Only the four calls the managers make are
    modelled: save, fetch by id, delete by id and query. Whether the server
    rejects a save or fails a query, and which matching records cannot be
    read, are not decided here and come in as parameters. */
module CloudDatabase {
  import opened Wrappers
  import opened Records
  import opened Sequences

  /** The CKError cases the managers can see. */
  datatype StoreError = UnknownItem | ServerRejectedRequest | QueryFailed | RecordUnreadable

  /** `CKQuery(recordType:predicate:)`: a record type and either the
      always-true predicate or `key == value`. */
  datatype Query = Query(recordType: string, keyEquals: Option<(string, Value)>)

  predicate Matches(q: Query, r: Record) {
    && r.recordType == q.recordType
    && (q.keyEquals.Some? ==> q.keyEquals.value.0 in r.fields && r.fields[q.keyEquals.value.0] == q.keyEquals.value.1)
  }

  /** One entry of `matchResults`: a record id and the record or the error
      reading it. */
  datatype MatchResult = MatchResult(id: RecordId, result: Result<Record, StoreError>)

  /** `matchResults.compactMap { try? $0.1.get() }`: the records read, failures
      dropped. */
  function ReadRecords(results: seq<MatchResult>): (rs: seq<Record>)
    ensures |rs| <= |results|
  {
    CompactMap(results, (m: MatchResult) => if m.result.Success? then Some(m.result.value) else None)
  }

  /** A record is read exactly when some entry holds it. */
  lemma ReadRecordsMembers(results: seq<MatchResult>, r: Record)
    ensures r in ReadRecords(results) <==> exists m :: m in results && m.result == Success(r)
  {
    var get := (m: MatchResult) => if m.result.Success? then Some(m.result.value) else None;
    if r in ReadRecords(results) {
      var m :| m in results && get(m) == Some(r);
    }
    if m :| m in results && m.result == Success(r) {
      assert get(m) == Some(r);
    }
  }

  /** The ids of the stored records a query matches. */
  function MatchingIds(records: map<RecordId, Record>, q: Query): (ids: set<RecordId>)
    ensures forall id :: id in ids <==> id in records && Matches(q, records[id])
  {
    set id | id in records && Matches(q, records[id])
  }

  /** What one page of a query's answer holds: distinct entries, each for a
      stored record that matches, read successfully unless its id is
      unreadable. */
  predicate AnswerPage(results: seq<MatchResult>, records: map<RecordId, Record>, q: Query, unreadable: set<RecordId>) {
    && (forall i :: 0 <= i < |results| ==>
          && results[i].id in records
          && Matches(q, records[results[i].id])
          && results[i].result == (if results[i].id in unreadable then Failure(RecordUnreadable) else Success(records[results[i].id])))
    && (forall i, j :: 0 <= i < j < |results| ==> results[i].id != results[j].id)
  }

  /** A page covers the query when every matching record has an entry. */
  predicate CoversMatches(results: seq<MatchResult>, records: map<RecordId, Record>, q: Query) {
    forall id :: id in records && Matches(q, records[id]) ==> exists i :: 0 <= i < |results| && results[i].id == id
  }

  /** A page of distinct entries, all for ids of a set that has one more id
      than the page names, is shorter than the set. */
  lemma {:induction false} PageShorterThanIds(results: seq<MatchResult>, ids: set<RecordId>, missing: RecordId)
    requires missing in ids
    requires forall i :: 0 <= i < |results| ==> results[i].id in ids && results[i].id != missing
    requires forall i, j :: 0 <= i < j < |results| ==> results[i].id != results[j].id
    ensures |results| < |ids|
  {
    if results != [] {
      var last := results[|results| - 1].id;
      var rest := results[..|results| - 1];
      forall i | 0 <= i < |rest|
        ensures rest[i].id in ids - {last} && rest[i].id != missing
      {
        assert rest[i] == results[i];
      }
      PageShorterThanIds(rest, ids - {last}, missing);
    }
  }

  /** Every record is stored under its own id. */
  predicate KeyedById(records: map<RecordId, Record>) {
    forall id :: id in records ==> records[id].recordID == id
  }

  /** The records read from a page are readable matching records of the
      store; when the page covers the query, every such record is read. */
  lemma AnsweredRecords(results: seq<MatchResult>, records: map<RecordId, Record>, q: Query, unreadable: set<RecordId>, r: Record)
    requires KeyedById(records)
    requires AnswerPage(results, records, q, unreadable)
    ensures r in ReadRecords(results) ==>
      r.recordID in records && r.recordID !in unreadable && records[r.recordID] == r && Matches(q, r)
    ensures CoversMatches(results, records, q) ==>
      r.recordID in records && r.recordID !in unreadable && records[r.recordID] == r && Matches(q, r) ==>
      r in ReadRecords(results)
  {
    ReadRecordsMembers(results, r);
    if r in ReadRecords(results) {
      var m :| m in results && m.result == Success(r);
      var i :| 0 <= i < |results| && results[i] == m;
    }
    if CoversMatches(results, records, q) && r.recordID in records && r.recordID !in unreadable && records[r.recordID] == r && Matches(q, r) {
      var i :| 0 <= i < |results| && results[i].id == r.recordID;
      assert results[i] in results;
    }
  }

  /** `records.compactMap(decode)` over the records read from a page. */
  function Decoded<T(!new)>(results: seq<MatchResult>, decode: Record -> Option<T>): (ts: seq<T>)
    ensures |ts| <= |results|
    ensures forall t :: t in ts <==> exists r :: r in ReadRecords(results) && decode(r) == Some(t)
  {
    CompactMap(ReadRecords(results), decode)
  }

  /** `records(matching:)` answers its first batch and, when more records
      match, a cursor for the next one. */
  datatype Page = Page(results: seq<MatchResult>, moreComing: bool)

  class Database {
    /** The records of the database, by id. A record's own id is the key it is
        stored under. */
    var records: map<RecordId, Record>

    predicate Valid()
      reads this
    {
      KeyedById(records)
    }

    constructor ()
      ensures records == map[] && Valid()
    {
      records := map[];
    }

    /** `save(_:)`: stores the record under its id, replacing any record there,
        and returns it; a rejected save changes nothing. */
    method Save(r: Record, rejected: bool) returns (res: Result<Record, StoreError>)
      modifies this
      ensures rejected ==> res == Failure(ServerRejectedRequest) && records == old(records)
      ensures !rejected ==> res == Success(r) && records == old(records)[r.recordID := r]
      ensures old(Valid()) ==> Valid()
    {
      if rejected {
        return Failure(ServerRejectedRequest);
      }
      records := records[r.recordID := r];
      return Success(r);
    }

    /** `record(for:)`: a fresh record object holding the stored record. */
    method RecordFor(id: RecordId) returns (res: Result<MutableRecord, StoreError>)
      ensures id !in records ==> res == Failure(UnknownItem)
      ensures id in records ==> res.Success? && fresh(res.value) && res.value.Snapshot() == records[id]
    {
      if id !in records {
        return Failure(UnknownItem);
      }
      var record := new MutableRecord.FromSnapshot(records[id]);
      return Success(record);
    }

    /** `deleteRecord(withID:)`: removes exactly the record with that id. */
    method DeleteRecord(id: RecordId) returns (res: Result<RecordId, StoreError>)
      modifies this
      ensures id !in old(records) ==> res == Failure(UnknownItem) && records == old(records)
      ensures id in old(records) ==> res == Success(id) && records == old(records) - {id}
      ensures old(Valid()) ==> Valid()
    {
      if id !in records {
        return Failure(UnknownItem);
      }
      records := records - {id};
      return Success(id);
    }

    /** `records(matching:)`: visits the stored records in no particular order
        and answers one entry per match, up to `pageSize` entries; a cursor
        is returned when a match is left over. */
    method RecordsMatching(q: Query, unreadable: set<RecordId>, fails: bool, pageSize: nat)
      returns (res: Result<Page, StoreError>)
      ensures fails ==> res == Failure(QueryFailed)
      ensures !fails ==> res.Success? && AnswerPage(res.value.results, records, q, unreadable)
      ensures !fails ==> |res.value.results| <= pageSize
      ensures !fails && res.value.moreComing ==> |res.value.results| == pageSize
      ensures !fails && !res.value.moreComing ==> CoversMatches(res.value.results, records, q)
      ensures !fails && |MatchingIds(records, q)| <= pageSize ==> !res.value.moreComing
    {
      if fails {
        return Failure(QueryFailed);
      }
      var remaining := records.Keys;
      var found: seq<MatchResult> := [];
      while remaining != {} && |found| < pageSize
        invariant remaining <= records.Keys
        invariant |found| <= pageSize
        invariant forall i :: 0 <= i < |found| ==>
          && found[i].id in records && found[i].id !in remaining
          && Matches(q, records[found[i].id])
          && found[i].result == (if found[i].id in unreadable then Failure(RecordUnreadable) else Success(records[found[i].id]))
        invariant forall id :: id in records && id !in remaining && Matches(q, records[id]) ==>
          exists i :: 0 <= i < |found| && found[i].id == id
        invariant forall i, j :: 0 <= i < j < |found| ==> found[i].id != found[j].id
        decreases remaining
      {
        var id :| id in remaining;
        ghost var before := found;
        if Matches(q, records[id]) {
          var result := if id in unreadable then Failure(RecordUnreadable) else Success(records[id]);
          found := found + [MatchResult(id, result)];
        }
        remaining := remaining - {id};
        forall x | x in records && x !in remaining && Matches(q, records[x])
          ensures exists i :: 0 <= i < |found| && found[i].id == x
        {
          if x == id {
            assert found[|found| - 1].id == x;
          } else {
            var i :| 0 <= i < |before| && before[i].id == x;
            assert found[i].id == x;
          }
        }
      }
      var moreComing := exists id :: id in remaining && Matches(q, records[id]);
      if moreComing {
        var missing :| missing in remaining && Matches(q, records[missing]);
        PageShorterThanIds(found, MatchingIds(records, q), missing);
      }
      return Success(Page(found, moreComing));
    }
  }
}
