/** ItemManager of MyPantry/Managers/ItemManager.swift: the item operations
    over the record store. An item's optional record id is passed beside the
    item; the item's fields are those of ItemConverter's Item. */
module ItemManager {
  import opened Wrappers
  import opened Records
  import opened Sequences
  import opened ItemStatus
  import opened CloudDatabase
  import opened ItemConverter

  /** `ItemManagerError` of Models/Sources/Models/Error.swift */
  datatype ItemManagerError = NoPantryIdSet | ItemHasNoId | FailedToSaveItem | FailedToUpdateItem | FailedToSetRecordValues

  /** What an operation throws: its own error or the store's. */
  datatype ManagerFailure = ItemError(error: ItemManagerError) | StoreFailure(cause: StoreError)

  /** `CKQuery(recordType: Item.recordType, predicate: "pantryId == %@")` */
  function ItemsQuery(pantryId: string): Query {
    Query(ItemConverter.RecordType, Some((Key(PantryId), VString(pantryId))))
  }

  /** Every item decoded from a page is a readable, decodable item record of
      the pantry, so it belongs to the pantry; when the page covers the
      query, every such record's item is there. */
  lemma FetchedItems(results: seq<MatchResult>, records: map<RecordId, Record>, pantryId: string, unreadable: set<RecordId>, it: Item)
    requires KeyedById(records)
    requires AnswerPage(results, records, ItemsQuery(pantryId), unreadable)
    ensures it in Decoded(results, FromRecord) ==>
      exists id :: id in records && id !in unreadable && Matches(ItemsQuery(pantryId), records[id]) && FromRecord(records[id]) == Some(it)
    ensures it in Decoded(results, FromRecord) ==> it.pantryId == pantryId
    ensures CoversMatches(results, records, ItemsQuery(pantryId)) ==>
      (exists id :: id in records && id !in unreadable && Matches(ItemsQuery(pantryId), records[id]) && FromRecord(records[id]) == Some(it)) ==>
      it in Decoded(results, FromRecord)
  {
    if it in Decoded(results, FromRecord) {
      var r :| r in ReadRecords(results) && FromRecord(r) == Some(it);
      AnsweredRecords(results, records, ItemsQuery(pantryId), unreadable, r);
      assert r.recordID in records;
    }
    if id :| id in records && id !in unreadable && Matches(ItemsQuery(pantryId), records[id]) && FromRecord(records[id]) == Some(it) {
      AnsweredRecords(results, records, ItemsQuery(pantryId), unreadable, records[id]);
    }
  }

  /** The item `addItem` saves: a fresh id and the given pantry, every other
      field copied. */
  function NewItem(item: Item, freshName: string, pantryId: string): (n: Item)
    ensures n.id == freshName && n.pantryId == pantryId
    ensures n.(id := item.id, pantryId := item.pantryId) == item
  {
    item.(id := freshName, pantryId := pantryId)
  }

  /** The record `updateItem` saves: the stored record with every key of the
      item's encoding copied over it. Keys the encoding lacks, which are the
      nil optionals, keep their stored values. */
  function Merged(stored: Record, item: Item): (r: Record)
    ensures r.recordType == stored.recordType && r.recordID == stored.recordID
    ensures r.fields.Keys == stored.fields.Keys + ItemFields(item).Keys
  {
    stored.(fields := stored.fields + ItemFields(item))
  }

  /** At a field's key the merged record holds the item's encoding when there
      is one, and the stored value otherwise. */
  lemma MergedAt(stored: Record, item: Item, f: Field)
    ensures Encoded(item, f).Some? ==>
      Key(f) in Merged(stored, item).fields && Merged(stored, item).fields[Key(f)] == Encoded(item, f).value
    ensures Encoded(item, f).None? ==> SameAt(Merged(stored, item).fields, stored.fields, f)
  {
    ItemFieldsAt(item, f);
  }

  /** The merged record holds every required key with its type. */
  lemma MergedRequiredPresent(stored: Record, item: Item)
    ensures RequiredPresent(Merged(stored, item).fields)
  {
    var m := Merged(stored, item);
    forall f: Field | IsRequired(f)
      ensures Key(f) in m.fields && HasKind(m.fields[Key(f)], KindOf(f))
    {
      var v := Encoded(item, f);
      assert v.Some? && HasKind(v.value, KindOf(f));
      MergedAt(stored, item, f);
    }
  }

  /** The merged record decodes exactly when the stored record is an item
      record: the encoding supplies every required key with its type. */
  lemma MergedDecodes(stored: Record, item: Item)
    ensures FromRecord(Merged(stored, item)).Some? <==> stored.recordType == ItemConverter.RecordType
  {
    var m := Merged(stored, item);
    MergedRequiredPresent(stored, item);
    MergedAt(stored, item, StatusCode);
    RawValueRoundTrip(item.status);
    assert FromRawValue(m.fields[Key(StatusCode)].num).Some?;
    FromRecordFails(m);
  }

  /** An item with every optional set comes back from the merge as itself,
      under the stored record's name. */
  lemma MergedFullItem(stored: Record, item: Item)
    requires stored.recordType == ItemConverter.RecordType
    requires forall f: Field :: Encoded(item, f).Some?
    ensures FromRecord(Merged(stored, item)) == Some(item.(id := stored.recordID.recordName))
  {
    forall f: Field
      ensures SameAt(Merged(stored, item).fields, ItemFields(item), f)
    {
      ItemFieldsAt(item, f);
    }
    DecodesUnderRecordName(item, Merged(stored, item));
  }

  /** The merge does not clear an optional the item has set to nil: a note
      still stored comes back from the update. */
  lemma MergeKeepsClearedNote(stored: Record, item: Item)
    requires stored.recordType == ItemConverter.RecordType
    requires AsString(stored.fields, Key(Note)).Some?
    requires item.note.None?
    ensures FromRecord(Merged(stored, item)).Some?
    ensures FromRecord(Merged(stored, item)).value.note == AsString(stored.fields, Key(Note))
    ensures FromRecord(Merged(stored, item)).value.note != item.note
  {
    var m := Merged(stored, item);
    assert Encoded(item, Note).None?;
    MergedAt(stored, item, Note);
    assert SameAt(m.fields, stored.fields, Note);
    MergedDecodes(stored, item);
    DecodedNote(m);
  }

  /** The coding keys of an item. */
  function FieldKeys(): set<string> {
    set f: Field :: Key(f)
  }

  /** The merge as evidently intended: every coding key is written, so a nil
      optional clears the stored value; other keys are kept. */
  function ClearingMerged(stored: Record, item: Item): (r: Record)
    ensures r.recordType == stored.recordType && r.recordID == stored.recordID
    ensures forall k :: k in stored.fields && k !in FieldKeys() ==> k in r.fields && r.fields[k] == stored.fields[k]
  {
    stored.(fields := (stored.fields - FieldKeys()) + ItemFields(item))
  }

  /** With the clearing merge an update saves exactly the item: its record
      decodes to the item, under the stored record's name. */
  lemma ClearingMergedDecodes(stored: Record, item: Item)
    requires stored.recordType == ItemConverter.RecordType
    ensures FromRecord(ClearingMerged(stored, item)) == Some(item.(id := stored.recordID.recordName))
  {
    var m := ClearingMerged(stored, item);
    forall f: Field
      ensures SameAt(m.fields, ItemFields(item), f)
    {
      ItemFieldsAt(item, f);
    }
    DecodesUnderRecordName(item, m);
  }

  /** The items of a list whose record id is not `id`:
      `items.removeAll { $0.id == id }`. */
  function WithoutId(items: seq<Item>, id: RecordId): (r: seq<Item>)
    ensures forall it :: it in r <==> it in items && RecordId(it.id, DefaultZone) != id
  {
    Filter(items, (it: Item) => RecordId(it.id, DefaultZone) != id)
  }

  /** `for (key, value) in item.toRecord() { record[key] = value }`: every key
      of the encoding is written over the record, the others are kept. */
  method CopyInto(record: MutableRecord, encoding: Fields)
    modifies record
    ensures record.fields == old(record.fields) + encoding
  {
    var keys := encoding.Keys;
    while keys != {}
      invariant keys <= encoding.Keys
      invariant record.fields == old(record.fields) + map k | k in encoding.Keys - keys :: encoding[k]
      decreases keys
    {
      var key :| key in keys;
      record.Set(key, Some(encoding[key]));
      keys := keys - {key};
    }
    assert (map k | k in encoding.Keys - keys :: encoding[k]) == encoding;
  }

  class ItemManager {
    /** `ckDB`: the private or the shared database. */
    const db: Database

    constructor (db: Database)
      ensures this.db == db
    {
      this.db := db;
    }

    /** `fetchItems(for:)`: the decodable items of the first page of the
        pantry's records; the cursor for further pages is dropped, as are
        unreadable records and records that do not decode. */
    method FetchItems(pantryId: string, unreadable: set<RecordId>, queryFails: bool, pageSize: nat)
      returns (res: Result<seq<Item>, ManagerFailure>)
      requires db.Valid()
      ensures queryFails ==> res == Failure(StoreFailure(QueryFailed))
      ensures !queryFails ==> res.Success? && |res.value| <= pageSize
      ensures !queryFails ==> forall it :: it in res.value ==> it.pantryId == pantryId
      ensures !queryFails ==> forall it :: it in res.value ==>
        exists id :: id in db.records && id !in unreadable && Matches(ItemsQuery(pantryId), db.records[id]) && FromRecord(db.records[id]) == Some(it)
      ensures !queryFails && |MatchingIds(db.records, ItemsQuery(pantryId))| <= pageSize ==> forall it ::
        (exists id :: id in db.records && id !in unreadable && Matches(ItemsQuery(pantryId), db.records[id]) && FromRecord(db.records[id]) == Some(it)) ==>
        it in res.value
    {
      var answer := db.RecordsMatching(ItemsQuery(pantryId), unreadable, queryFails, pageSize);
      if answer.Failure? {
        return Failure(StoreFailure(answer.error));
      }
      var items := Decoded(answer.value.results, FromRecord);
      forall it: Item
        ensures it in items ==>
          exists id :: id in db.records && id !in unreadable && Matches(ItemsQuery(pantryId), db.records[id]) && FromRecord(db.records[id]) == Some(it)
        ensures it in items ==> it.pantryId == pantryId
        ensures CoversMatches(answer.value.results, db.records, ItemsQuery(pantryId)) ==>
          (exists id :: id in db.records && id !in unreadable && Matches(ItemsQuery(pantryId), db.records[id]) && FromRecord(db.records[id]) == Some(it)) ==>
          it in items
      {
        FetchedItems(answer.value.results, db.records, pantryId, unreadable, it);
      }
      return Success(items);
    }

    /** `addItem(_:to:)`: saves the item under a fresh id in the given pantry
        and returns it as decoded from the saved record. */
    method AddItem(item: Item, pantryId: string, freshName: string, saveRejected: bool)
      returns (res: Result<Item, ManagerFailure>)
      modifies db
      ensures saveRejected ==> res == Failure(StoreFailure(ServerRejectedRequest)) && db.records == old(db.records)
      ensures !saveRejected ==> res == Success(NewItem(item, freshName, pantryId))
      ensures !saveRejected ==>
        db.records == old(db.records)[RecordId(freshName, DefaultZone) := ToRecord(NewItem(item, freshName, pantryId))]
      ensures !saveRejected && RecordId(freshName, DefaultZone) !in old(db.records) ==>
        |db.records| == |old(db.records)| + 1
      ensures old(db.Valid()) ==> db.Valid()
    {
      var newItem := NewItem(item, freshName, pantryId);
      var record := ToRecord(newItem);
      var saved := db.Save(record, saveRejected);
      if saved.Failure? {
        return Failure(StoreFailure(saved.error));
      }
      RoundTrip(newItem);
      var savedItem := FromRecord(saved.value);
      if savedItem.None? {
        return Failure(ItemError(FailedToSaveItem));
      }
      return Success(savedItem.value);
    }

    /** `updateItem(_:in:)`: copies every key of the item's encoding onto the
        stored record and saves it. The pantry id argument is not used. */
    method UpdateItem(itemId: Option<RecordId>, item: Item, pantryId: string, saveRejected: bool)
      returns (res: Result<Item, ManagerFailure>)
      modifies db
      ensures itemId.None? ==> res == Failure(ItemError(ItemHasNoId)) && db.records == old(db.records)
      ensures itemId.Some? && itemId.value !in old(db.records) ==>
        res == Failure(StoreFailure(UnknownItem)) && db.records == old(db.records)
      ensures itemId.Some? && itemId.value in old(db.records) && saveRejected ==>
        res == Failure(StoreFailure(ServerRejectedRequest)) && db.records == old(db.records)
      ensures itemId.Some? && itemId.value in old(db.records) && !saveRejected ==>
        var merged := Merged(old(db.records)[itemId.value], item);
        && db.records == old(db.records)[merged.recordID := merged]
        && res == (if FromRecord(merged).Some? then Success(FromRecord(merged).value) else Failure(ItemError(FailedToUpdateItem)))
      ensures old(db.Valid()) ==> db.Valid()
    {
      if itemId.None? {
        return Failure(ItemError(ItemHasNoId));
      }
      var fetched := db.RecordFor(itemId.value);
      if fetched.Failure? {
        return Failure(StoreFailure(fetched.error));
      }
      var record := fetched.value;
      CopyInto(record, ItemFields(item));
      var updated := db.Save(record.Snapshot(), saveRejected);
      if updated.Failure? {
        return Failure(StoreFailure(updated.error));
      }
      var updatedItem := FromRecord(updated.value);
      if updatedItem.None? {
        return Failure(ItemError(FailedToUpdateItem));
      }
      return Success(updatedItem.value);
    }

    /** `deleteItem(_:from:)`: deletes the item's record, then fetches the
        pantry's items again into a local list it filters and drops. The fetch
        can fail after the record is already gone. */
    method DeleteItem(itemId: Option<RecordId>, pantryId: string, unreadable: set<RecordId>, queryFails: bool, pageSize: nat)
      returns (res: Result<(), ManagerFailure>)
      requires db.Valid()
      modifies db
      ensures itemId.None? ==> res == Failure(ItemError(ItemHasNoId)) && db.records == old(db.records)
      ensures itemId.Some? && itemId.value !in old(db.records) ==>
        res == Failure(StoreFailure(UnknownItem)) && db.records == old(db.records)
      ensures itemId.Some? && itemId.value in old(db.records) ==>
        && db.records == old(db.records) - {itemId.value}
        && res == (if queryFails then Failure(StoreFailure(QueryFailed)) else Success(()))
      ensures db.Valid()
    {
      if itemId.None? {
        return Failure(ItemError(ItemHasNoId));
      }
      var deleted := db.DeleteRecord(itemId.value);
      if deleted.Failure? {
        return Failure(StoreFailure(deleted.error));
      }
      var fetched := FetchItems(pantryId, unreadable, queryFails, pageSize);
      if fetched.Failure? {
        return Failure(fetched.error);
      }
      var items := WithoutId(fetched.value, itemId.value);
      return Success(());
    }
  }
}
