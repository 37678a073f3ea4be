/** PantryService of MyPantry/Managers/PantryService.swift: the pantry
    operations over the private database, on the Pantry of
    Models/Sources/Models/File.swift. */
module PantryService {
  import opened Wrappers
  import opened Records
  import opened Sequences
  import opened CloudDatabase
  import opened LegacyPantry

  /** The `PantryServiceError` cases these operations throw. */
  datatype PantryServiceError = FailedToSavePantry | FailedToUpdatePantry | InvalidPantryId

  /** What an operation throws: its own error or the store's. */
  datatype ServiceFailure = ServiceError(error: PantryServiceError) | StoreFailure(cause: StoreError)

  /** `CKQuery(recordType: Pantry.type, predicate: NSPredicate(value: true))` */
  const PantriesQuery: Query := Query(LegacyPantry.RecordType, None)

  /** Every pantry decoded from a page is a readable, decodable pantry record;
      when the page covers the query, every such record's pantry is there. */
  lemma FetchedPantries(results: seq<MatchResult>, records: map<RecordId, Record>, unreadable: set<RecordId>, p: Pantry)
    requires KeyedById(records)
    requires AnswerPage(results, records, PantriesQuery, unreadable)
    ensures p in Decoded(results, FromRecord) ==>
      exists id :: id in records && id !in unreadable && records[id].recordType == LegacyPantry.RecordType && FromRecord(records[id]) == Some(p)
    ensures CoversMatches(results, records, PantriesQuery) ==>
      (exists id :: id in records && id !in unreadable && records[id].recordType == LegacyPantry.RecordType && FromRecord(records[id]) == Some(p)) ==>
      p in Decoded(results, FromRecord)
  {
    if p in Decoded(results, FromRecord) {
      var r :| r in ReadRecords(results) && FromRecord(r) == Some(p);
      AnsweredRecords(results, records, PantriesQuery, unreadable, r);
      assert r.recordID in records;
    }
    if id :| id in records && id !in unreadable && records[id].recordType == LegacyPantry.RecordType && FromRecord(records[id]) == Some(p) {
      AnsweredRecords(results, records, PantriesQuery, unreadable, records[id]);
    }
  }

  /** The record `updatePantry` saves: the stored record with the name and the
      owner overwritten; the access code and every other key are kept. */
  function Renamed(stored: Record, p: Pantry): (r: Record)
    ensures r.recordType == stored.recordType && r.recordID == stored.recordID
    ensures r.fields.Keys == stored.fields.Keys + {NameKey, OwnerIdKey}
    ensures r.fields[NameKey] == VString(p.name) && r.fields[OwnerIdKey] == VString(p.ownerId)
    ensures forall k :: k in stored.fields && k != NameKey && k != OwnerIdKey ==> r.fields[k] == stored.fields[k]
  {
    stored.(fields := stored.fields[NameKey := VString(p.name)][OwnerIdKey := VString(p.ownerId)])
  }

  /** The renamed record decodes exactly when the stored record holds a
      string access code, and then to the stored access code under the new
      name and owner. */
  lemma RenamedDecodes(stored: Record, p: Pantry)
    ensures FromRecord(Renamed(stored, p)).Some? <==> AsString(stored.fields, AccessCodeKey).Some?
    ensures FromRecord(Renamed(stored, p)).Some? ==>
      FromRecord(Renamed(stored, p)) ==
        Some(Pantry(Some(stored.recordID), p.name, AsString(stored.fields, AccessCodeKey).value, p.ownerId))
  {
    var r := Renamed(stored, p);
    assert AsString(r.fields, AccessCodeKey) == AsString(stored.fields, AccessCodeKey);
  }

  class PantryService {
    /** `ckDB`: the private database. */
    const db: Database

    constructor (db: Database)
      ensures this.db == db
    {
      this.db := db;
    }

    /** `fetchPantry()`: the decodable pantries of the first page of pantry
        records; the cursor for further pages is dropped, as are the records
        that cannot be read or decoded. */
    method FetchPantry(unreadable: set<RecordId>, queryFails: bool, pageSize: nat)
      returns (res: Result<seq<Pantry>, ServiceFailure>)
      requires db.Valid()
      ensures queryFails ==> res == Failure(StoreFailure(QueryFailed))
      ensures !queryFails ==> res.Success? && |res.value| <= pageSize
      ensures !queryFails ==> forall p :: p in res.value ==>
        exists id :: id in db.records && id !in unreadable && db.records[id].recordType == LegacyPantry.RecordType && FromRecord(db.records[id]) == Some(p)
      ensures !queryFails && |MatchingIds(db.records, PantriesQuery)| <= pageSize ==> forall p ::
        (exists id :: id in db.records && id !in unreadable && db.records[id].recordType == LegacyPantry.RecordType && FromRecord(db.records[id]) == Some(p)) ==>
        p in res.value
    {
      var answer := db.RecordsMatching(PantriesQuery, unreadable, queryFails, pageSize);
      if answer.Failure? {
        return Failure(StoreFailure(answer.error));
      }
      var pantries := Decoded(answer.value.results, FromRecord);
      forall p: Pantry
        ensures p in pantries ==>
          exists id :: id in db.records && id !in unreadable && db.records[id].recordType == LegacyPantry.RecordType && FromRecord(db.records[id]) == Some(p)
        ensures CoversMatches(answer.value.results, db.records, PantriesQuery) ==>
          (exists id :: id in db.records && id !in unreadable && db.records[id].recordType == LegacyPantry.RecordType && FromRecord(db.records[id]) == Some(p)) ==>
          p in pantries
      {
        FetchedPantries(answer.value.results, db.records, unreadable, p);
      }
      return Success(pantries);
    }

    /** `addPantry(_:owner:)`: saves the pantry with the given owner under a
        fresh record and returns it as decoded from the saved record. */
    method AddPantry(p: Pantry, owner: string, freshName: string, saveRejected: bool)
      returns (res: Result<Pantry, ServiceFailure>)
      modifies db
      ensures saveRejected ==> res == Failure(StoreFailure(ServerRejectedRequest)) && db.records == old(db.records)
      ensures !saveRejected ==>
        res == Success(p.(ownerId := owner, id := Some(RecordId(freshName, DefaultZone))))
      ensures !saveRejected ==>
        db.records == old(db.records)[RecordId(freshName, DefaultZone) := ToRecord(p.(ownerId := owner), freshName)]
      ensures old(db.Valid()) ==> db.Valid()
    {
      var newPantry := p;
      newPantry := newPantry.(ownerId := owner);
      var record := ToRecord(newPantry, freshName);
      var saved := db.Save(record, saveRejected);
      if saved.Failure? {
        return Failure(StoreFailure(saved.error));
      }
      RoundTrip(newPantry, freshName);
      var savedPantry := FromRecord(saved.value);
      if savedPantry.None? {
        return Failure(ServiceError(FailedToSavePantry));
      }
      return Success(savedPantry.value);
    }

    /** `updatePantry(_:)`: rewrites the name and owner of the stored record
        and saves it. */
    method UpdatePantry(p: Pantry, saveRejected: bool)
      returns (res: Result<Pantry, ServiceFailure>)
      modifies db
      ensures p.id.None? ==> res == Failure(ServiceError(InvalidPantryId)) && db.records == old(db.records)
      ensures p.id.Some? && p.id.value !in old(db.records) ==>
        res == Failure(StoreFailure(UnknownItem)) && db.records == old(db.records)
      ensures p.id.Some? && p.id.value in old(db.records) && saveRejected ==>
        res == Failure(StoreFailure(ServerRejectedRequest)) && db.records == old(db.records)
      ensures p.id.Some? && p.id.value in old(db.records) && !saveRejected ==>
        var renamed := Renamed(old(db.records)[p.id.value], p);
        && db.records == old(db.records)[renamed.recordID := renamed]
        && res == (if FromRecord(renamed).Some? then Success(FromRecord(renamed).value) else Failure(ServiceError(FailedToUpdatePantry)))
      ensures old(db.Valid()) ==> db.Valid()
    {
      if p.id.None? {
        return Failure(ServiceError(InvalidPantryId));
      }
      var fetched := db.RecordFor(p.id.value);
      if fetched.Failure? {
        return Failure(StoreFailure(fetched.error));
      }
      var record := fetched.value;
      record.Set(NameKey, Some(VString(p.name)));
      record.Set(OwnerIdKey, Some(VString(p.ownerId)));
      var updated := db.Save(record.Snapshot(), saveRejected);
      if updated.Failure? {
        return Failure(StoreFailure(updated.error));
      }
      var updatedPantry := FromRecord(updated.value);
      if updatedPantry.None? {
        return Failure(ServiceError(FailedToUpdatePantry));
      }
      return Success(updatedPantry.value);
    }

    /** `deletePantry(_:)`: removes exactly the pantry's record. */
    method DeletePantry(p: Pantry) returns (res: Result<(), ServiceFailure>)
      modifies db
      ensures p.id.None? ==> res == Failure(ServiceError(InvalidPantryId)) && db.records == old(db.records)
      ensures p.id.Some? && p.id.value !in old(db.records) ==>
        res == Failure(StoreFailure(UnknownItem)) && db.records == old(db.records)
      ensures p.id.Some? && p.id.value in old(db.records) ==>
        res == Success(()) && db.records == old(db.records) - {p.id.value}
      ensures old(db.Valid()) ==> db.Valid()
    {
      if p.id.None? {
        return Failure(ServiceError(InvalidPantryId));
      }
      var deleted := db.DeleteRecord(p.id.value);
      if deleted.Failure? {
        return Failure(StoreFailure(deleted.error));
      }
      return Success(());
    }
  }
}
