/** PantryConverter of MyPantry/Main/CloudKit/CloudKitConvertible.swift: the
    Pantry revision with a string id and an optional zone id, mapped to and from
    a record of type "Pantry" in the default zone. */
module PantryConverter {
  import opened Wrappers
  import opened Records

  datatype Pantry = Pantry(
    id: string,
    name: string,
    ownerId: string,
    shareReferenceId: Option<string>,
    isShared: bool,
    zoneId: Option<string>)

  const RecordType: string := "Pantry"

  const NameKey: string := "name"
  const OwnerIdKey: string := "ownerId"
  const ShareReferenceIdKey: string := "shareReferenceId"
  const IsSharedKey: string := "isShared"
  const ZoneIdKey: string := "zoneId"

  /** The four subscript writes that `toRecord` and `setFields` share. */
  function WriteFields(fields: Fields, p: Pantry): Fields {
    var f1 := Assigned(fields, NameKey, Some(VString(p.name)));
    var f2 := Assigned(f1, OwnerIdKey, Some(VString(p.ownerId)));
    var f3 := Assigned(f2, ShareReferenceIdKey, StringValue(p.shareReferenceId));
    Assigned(f3, IsSharedKey, Some(VBool(p.isShared)))
  }

  /** `PantryConverter.fromRecord`: a "Pantry" record with a string name and
      owner and a Bool `isShared` decodes, named by its record name. The zone
      id is left nil. */
  function FromRecord(r: Record): (p: Option<Pantry>)
    ensures p.Some? <==>
      && r.recordType == RecordType
      && AsString(r.fields, NameKey).Some?
      && AsString(r.fields, OwnerIdKey).Some?
      && AsBool(r.fields, IsSharedKey).Some?
    ensures p.Some? ==> p.value.id == r.recordID.recordName && p.value.zoneId == None
    ensures p.Some? ==>
      && r.fields[NameKey] == VString(p.value.name)
      && r.fields[OwnerIdKey] == VString(p.value.ownerId)
      && AsBool(r.fields, IsSharedKey) == Some(p.value.isShared)
      && AsString(r.fields, ShareReferenceIdKey) == p.value.shareReferenceId
  {
    if r.recordType == RecordType
       && AsString(r.fields, NameKey).Some?
       && AsString(r.fields, OwnerIdKey).Some?
       && AsBool(r.fields, IsSharedKey).Some?
    then
      Some(Pantry(
        r.recordID.recordName,
        AsString(r.fields, NameKey).value,
        AsString(r.fields, OwnerIdKey).value,
        AsString(r.fields, ShareReferenceIdKey),
        AsBool(r.fields, IsSharedKey).value,
        None))
    else None
  }

  /** `PantryConverter.toRecord`: a fresh record in the default zone named by
      the pantry id. The zone id is never written. */
  function ToRecord(p: Pantry): (r: Record)
    ensures r.recordType == RecordType
    ensures r.recordID == RecordId(p.id, DefaultZone)
    ensures ZoneIdKey !in r.fields
    ensures r.fields.Keys <= {NameKey, OwnerIdKey, ShareReferenceIdKey, IsSharedKey}
    ensures ShareReferenceIdKey in r.fields <==> p.shareReferenceId.Some?
  {
    Record(RecordType, RecordId(p.id, DefaultZone), WriteFields(map[], p))
  }

  /** `setFields(for:from:)`: overwrites the pantry's keys, zone id included,
      in a record the caller owns. A nil optional removes its key. */
  method SetFields(record: MutableRecord, p: Pantry)
    modifies record
    ensures record.fields == Assigned(WriteFields(old(record.fields), p), ZoneIdKey, StringValue(p.zoneId))
  {
    record.Set(NameKey, Some(VString(p.name)));
    record.Set(OwnerIdKey, Some(VString(p.ownerId)));
    record.Set(ShareReferenceIdKey, StringValue(p.shareReferenceId));
    record.Set(IsSharedKey, Some(VBool(p.isShared)));
    record.Set(ZoneIdKey, StringValue(p.zoneId));
  }

  /** What WriteFields leaves in the record, key by key. */
  lemma WriteFieldsAt(fields: Fields, p: Pantry)
    ensures AsString(WriteFields(fields, p), NameKey) == Some(p.name)
    ensures AsString(WriteFields(fields, p), OwnerIdKey) == Some(p.ownerId)
    ensures AsString(WriteFields(fields, p), ShareReferenceIdKey) == p.shareReferenceId
    ensures AsBool(WriteFields(fields, p), IsSharedKey) == Some(p.isShared)
    ensures forall k :: k !in {NameKey, OwnerIdKey, ShareReferenceIdKey, IsSharedKey} ==>
      (k in WriteFields(fields, p) <==> k in fields) &&
      (k in fields ==> WriteFields(fields, p)[k] == fields[k])
  {
  }

  /** Decoding an encoded pantry reproduces every field except the zone id,
      which the round trip does not carry. */
  lemma RoundTrip(p: Pantry)
    ensures FromRecord(ToRecord(p)) == Some(p.(zoneId := None))
  {
    WriteFieldsAt(map[], p);
  }

  /** The three ways decoding fails; an absent share reference is not one. */
  lemma FromRecordFails(r: Record)
    ensures FromRecord(r).None? <==>
      || r.recordType != RecordType
      || NameKey !in r.fields || !r.fields[NameKey].VString?
      || OwnerIdKey !in r.fields || !r.fields[OwnerIdKey].VString?
      || IsSharedKey !in r.fields || !IsFlag(r.fields[IsSharedKey])
  {
  }

  /** An absent or non-string share reference decodes to nil and does not make
      the decode fail. */
  lemma ShareReferenceIsOptional(r: Record, v: Option<Value>)
    requires FromRecord(r).Some?
    requires v.None? || !v.value.VString?
    ensures FromRecord(r.(fields := Assigned(r.fields, ShareReferenceIdKey, v)))
         == Some(FromRecord(r).value.(shareReferenceId := None))
  {
  }

  /** `setFields` on a pantry record makes it decode to the pantry, renamed to
      the record's own name, and stores the zone id, which decoding ignores. */
  lemma SetFieldsDecodes(r: Record, p: Pantry)
    requires r.recordType == RecordType
    ensures var written := r.(fields := Assigned(WriteFields(r.fields, p), ZoneIdKey, StringValue(p.zoneId)));
      && FromRecord(written) == Some(p.(id := r.recordID.recordName, zoneId := None))
      && AsString(written.fields, ZoneIdKey) == p.zoneId
      && forall k :: k !in {NameKey, OwnerIdKey, ShareReferenceIdKey, IsSharedKey, ZoneIdKey} ==>
           (k in written.fields <==> k in r.fields) &&
           (k in r.fields ==> written.fields[k] == r.fields[k])
  {
    WriteFieldsAt(r.fields, p);
  }
}

/** ItemConverter of MyPantry/Main/CloudKit/CloudKitConvertible.swift: the Item
    revision with a string id, mapped to and from a record of type "Item". */
module ItemConverter {
  import opened Wrappers
  import opened Records
  import opened ItemStatus

  datatype Item = Item(
    id: string,
    name: string,
    quantity: int,
    quantityDesired: Option<int>,
    barcode: Option<string>,
    favorite: bool,
    customContent1: Option<string>,
    customContent2: Option<string>,
    customContent3: Option<string>,
    dateAdded: int,
    dateLastUpdated: int,
    expireDate: Option<int>,
    note: Option<string>,
    pantryId: string,
    status: Status)

  const RecordType: string := "Item"

  /** The coding keys of an item, one per stored field. */
  datatype Field =
    | Name | Quantity | QuantityDesired | Barcode | Favorite
    | CustomContent1 | CustomContent2 | CustomContent3
    | DateAdded | DateLastUpdated | ExpireDate | Note | PantryId | StatusCode

  /** `Item.CodingKeys.<case>.rawValue` */
  function Key(f: Field): string {
    match f
    case Name => "name"
    case Quantity => "quantity"
    case QuantityDesired => "quantityDesired"
    case Barcode => "barcode"
    case Favorite => "favorite"
    case CustomContent1 => "customContent1"
    case CustomContent2 => "customContent2"
    case CustomContent3 => "customContent3"
    case DateAdded => "dateAdded"
    case DateLastUpdated => "dateLastUpdated"
    case ExpireDate => "expireDate"
    case Note => "note"
    case PantryId => "pantryId"
    case StatusCode => "status"
  }

  /** The scalar type a key must hold for the decode to read it. */
  datatype Kind = StringKind | IntKind | BoolKind | DateKind

  function KindOf(f: Field): Kind {
    match f
    case Name | Barcode | CustomContent1 | CustomContent2 | CustomContent3 | Note | PantryId => StringKind
    case Quantity | QuantityDesired | StatusCode => IntKind
    case Favorite => BoolKind
    case DateAdded | DateLastUpdated | ExpireDate => DateKind
  }

  predicate HasKind(v: Value, kind: Kind) {
    match kind
    case StringKind => v.VString?
    case IntKind => IsNumber(v)
    case BoolKind => IsFlag(v)
    case DateKind => v.VDate?
  }

  /** The fields of the guard chain: their absence or wrong type rejects the
      record. The others are optional and decode to nil instead. */
  predicate IsRequired(f: Field) {
    f in {Name, Quantity, Favorite, DateAdded, DateLastUpdated, StatusCode, PantryId}
  }

  /** Every required key is present with its scalar type. */
  predicate RequiredPresent(fields: Fields) {
    forall f: Field :: IsRequired(f) ==> Key(f) in fields && HasKind(fields[Key(f)], KindOf(f))
  }

  /** `ItemConverter.fromRecord`: an "Item" record holding every required
      field with its type and a known status code decodes, named by its record
      name; absent or mistyped optionals decode to nil. */
  function FromRecord(r: Record): (it: Option<Item>)
    ensures it.Some? ==> r.recordType == RecordType && RequiredPresent(r.fields)
    ensures it.Some? ==> it.value.id == r.recordID.recordName
    ensures it.Some? ==>
      && r.fields[Key(Name)] == VString(it.value.name)
      && r.fields[Key(PantryId)] == VString(it.value.pantryId)
      && AsInt(r.fields, Key(Quantity)) == Some(it.value.quantity)
      && AsInt(r.fields, Key(StatusCode)) == Some(RawValue(it.value.status))
  {
    var f := r.fields;
    RequiredPresentLookups(f);
    if r.recordType == RecordType
       && AsString(f, Key(Name)).Some?
       && AsInt(f, Key(Quantity)).Some?
       && AsBool(f, Key(Favorite)).Some?
       && AsDate(f, Key(DateAdded)).Some?
       && AsDate(f, Key(DateLastUpdated)).Some?
       && AsInt(f, Key(StatusCode)).Some?
       && AsString(f, Key(PantryId)).Some?
       && FromRawValue(AsInt(f, Key(StatusCode)).value).Some?
    then
      Some(Item(
        r.recordID.recordName,
        AsString(f, Key(Name)).value,
        AsInt(f, Key(Quantity)).value,
        AsInt(f, Key(QuantityDesired)),
        AsString(f, Key(Barcode)),
        AsBool(f, Key(Favorite)).value,
        AsString(f, Key(CustomContent1)),
        AsString(f, Key(CustomContent2)),
        AsString(f, Key(CustomContent3)),
        AsDate(f, Key(DateAdded)).value,
        AsDate(f, Key(DateLastUpdated)).value,
        AsDate(f, Key(ExpireDate)),
        AsString(f, Key(Note)),
        AsString(f, Key(PantryId)).value,
        FromRawValue(AsInt(f, Key(StatusCode)).value).value))
    else None
  }

  /** The value `toRecord` assigns to a field's key; nil for a nil optional. */
  function Encoded(i: Item, f: Field): (v: Option<Value>)
    ensures IsRequired(f) ==> v.Some? && HasKind(v.value, KindOf(f))
  {
    match f
    case Name => Some(VString(i.name))
    case Quantity => Some(VInt(i.quantity))
    case QuantityDesired => IntValue(i.quantityDesired)
    case Barcode => StringValue(i.barcode)
    case Favorite => Some(VBool(i.favorite))
    case CustomContent1 => StringValue(i.customContent1)
    case CustomContent2 => StringValue(i.customContent2)
    case CustomContent3 => StringValue(i.customContent3)
    case DateAdded => Some(VDate(i.dateAdded))
    case DateLastUpdated => Some(VDate(i.dateLastUpdated))
    case ExpireDate => DateValue(i.expireDate)
    case Note => StringValue(i.note)
    case PantryId => Some(VString(i.pantryId))
    case StatusCode => Some(VInt(RawValue(i.status)))
  }

  /** The values `toRecord` assigns, by field; a nil optional has no entry. */
  function Encoding(i: Item): map<Field, Value> {
    map f: Field | Encoded(i, f).Some? :: Encoded(i, f).value
  }

  /** Stores each field's value under its coding key. */
  function Keyed(m: map<Field, Value>): Fields {
    map f: Field | f in m :: Key(f) := m[f]
  }

  /** The fields `toRecord` writes: one subscript assignment per key into a
      fresh record, where assigning nil leaves the key absent. */
  function ItemFields(i: Item): Fields {
    Keyed(Encoding(i))
  }

  /** No two fields share a key. */
  lemma KeyInjective(f: Field, g: Field)
    ensures Key(f) == Key(g) ==> f == g
  {
    if Key(f) == Key(g) {
      assert |Key(f)| == |Key(g)|;
      match f
      case CustomContent1 | CustomContent2 | CustomContent3 =>
        assert Key(f)[13] == Key(g)[13];
      case _ =>
    }
  }

  /** `ItemConverter.toRecord`: a fresh record in the default zone named by the
      item id. */
  function ToRecord(i: Item): (r: Record)
    ensures r.recordType == RecordType
    ensures r.recordID == RecordId(i.id, DefaultZone)
  {
    Record(RecordType, RecordId(i.id, DefaultZone), ItemFields(i))
  }

  /** A field's key is present in the keyed map exactly when the field has
      an entry, and holds that entry. */
  lemma KeyedAt(m: map<Field, Value>, f: Field)
    ensures Key(f) in Keyed(m) <==> f in m
    ensures f in m ==> Keyed(m)[Key(f)] == m[f]
  {
    forall g: Field | Key(g) == Key(f) {
      KeyInjective(f, g);
    }
    if f in m {
      assert Key(f) in Keyed(m);
    }
  }

  lemma ItemFieldsAt(i: Item, f: Field)
    ensures Key(f) in ItemFields(i) <==> Encoded(i, f).Some?
    ensures Key(f) in ItemFields(i) ==> ItemFields(i)[Key(f)] == Encoded(i, f).value
  {
    KeyedAt(Encoding(i), f);
  }

  /** The name, pantry id, barcode and note are read back from their keys. */
  lemma StringFieldsRoundTrip(i: Item)
    ensures AsString(ItemFields(i), Key(Name)) == Some(i.name)
    ensures AsString(ItemFields(i), Key(PantryId)) == Some(i.pantryId)
    ensures AsString(ItemFields(i), Key(Barcode)) == i.barcode
    ensures AsString(ItemFields(i), Key(Note)) == i.note
  {
    ItemFieldsAt(i, Name);
    ItemFieldsAt(i, PantryId);
    ItemFieldsAt(i, Barcode);
    ItemFieldsAt(i, Note);
  }

  /** The three custom contents are read back from their keys. */
  lemma CustomContentRoundTrip(i: Item)
    ensures AsString(ItemFields(i), Key(CustomContent1)) == i.customContent1
    ensures AsString(ItemFields(i), Key(CustomContent2)) == i.customContent2
    ensures AsString(ItemFields(i), Key(CustomContent3)) == i.customContent3
  {
    ItemFieldsAt(i, CustomContent1);
    ItemFieldsAt(i, CustomContent2);
    ItemFieldsAt(i, CustomContent3);
  }

  /** The quantities are read back, and the status as its raw code. */
  lemma NumericFieldsRoundTrip(i: Item)
    ensures AsInt(ItemFields(i), Key(Quantity)) == Some(i.quantity)
    ensures AsInt(ItemFields(i), Key(QuantityDesired)) == i.quantityDesired
    ensures AsInt(ItemFields(i), Key(StatusCode)) == Some(RawValue(i.status))
  {
    ItemFieldsAt(i, Quantity);
    ItemFieldsAt(i, QuantityDesired);
    ItemFieldsAt(i, StatusCode);
  }

  /** The favourite flag and the three dates are read back from their keys. */
  lemma FlagAndDateFieldsRoundTrip(i: Item)
    ensures AsBool(ItemFields(i), Key(Favorite)) == Some(i.favorite)
    ensures AsDate(ItemFields(i), Key(DateAdded)) == Some(i.dateAdded)
    ensures AsDate(ItemFields(i), Key(DateLastUpdated)) == Some(i.dateLastUpdated)
    ensures AsDate(ItemFields(i), Key(ExpireDate)) == i.expireDate
  {
    ItemFieldsAt(i, Favorite);
    ItemFieldsAt(i, DateAdded);
    ItemFieldsAt(i, DateLastUpdated);
    ItemFieldsAt(i, ExpireDate);
  }

  /** Decoding an encoded item gives it back, field for field, whichever
      optionals are nil. */
  lemma RoundTrip(i: Item)
    ensures FromRecord(ToRecord(i)) == Some(i)
  {
    StringFieldsRoundTrip(i);
    CustomContentRoundTrip(i);
    NumericFieldsRoundTrip(i);
    FlagAndDateFieldsRoundTrip(i);
    RawValueRoundTrip(i.status);
  }

  /** RequiredPresent is the conjunction of the decoder's typed lookups. */
  lemma RequiredPresentLookups(fields: Fields)
    ensures RequiredPresent(fields) <==>
      && AsString(fields, Key(Name)).Some?
      && AsInt(fields, Key(Quantity)).Some?
      && AsBool(fields, Key(Favorite)).Some?
      && AsDate(fields, Key(DateAdded)).Some?
      && AsDate(fields, Key(DateLastUpdated)).Some?
      && AsInt(fields, Key(StatusCode)).Some?
      && AsString(fields, Key(PantryId)).Some?
  {
    assert IsRequired(Name) && IsRequired(Quantity) && IsRequired(Favorite);
    assert IsRequired(DateAdded) && IsRequired(DateLastUpdated);
    assert IsRequired(StatusCode) && IsRequired(PantryId);
  }

  /** Decoding fails exactly when the type is wrong, a required key is absent
      or holds another scalar type, or the status code is not a known case.
      A number stands in for a flag when it is 0 or 1, and a flag for a number. */
  lemma FromRecordFails(r: Record)
    ensures FromRecord(r).None? <==>
      || r.recordType != RecordType
      || !RequiredPresent(r.fields)
      || FromRawValue(NumberOf(r.fields[Key(StatusCode)])).None?
  {
    RequiredPresentLookups(r.fields);
    assert IsRequired(StatusCode);
  }

  /** Each required key alone can reject a record: replacing its value by
      nothing, or by a value of another scalar type, makes decoding fail. */
  lemma RequiredFieldRejects(r: Record, f: Field, v: Option<Value>)
    requires IsRequired(f)
    requires v.None? || !HasKind(v.value, KindOf(f))
    ensures FromRecord(r.(fields := Assigned(r.fields, Key(f), v))) == None
  {
    FromRecordFails(r.(fields := Assigned(r.fields, Key(f), v)));
  }

  /** An integer status outside the enum's codes is rejected, never defaulted. */
  lemma UnknownStatusRejects(r: Record)
    requires AsInt(r.fields, Key(StatusCode)).Some?
    requires !(0 <= AsInt(r.fields, Key(StatusCode)).value <= 2)
    ensures FromRecord(r) == None
  {
  }

  /** The fourteen typed lookups the decoder makes agree on two field maps. */
  predicate LookupsAgree(a: Fields, b: Fields) {
    && AsString(a, Key(Name)) == AsString(b, Key(Name))
    && AsString(a, Key(Barcode)) == AsString(b, Key(Barcode))
    && AsString(a, Key(CustomContent1)) == AsString(b, Key(CustomContent1))
    && AsString(a, Key(CustomContent2)) == AsString(b, Key(CustomContent2))
    && AsString(a, Key(CustomContent3)) == AsString(b, Key(CustomContent3))
    && AsString(a, Key(Note)) == AsString(b, Key(Note))
    && AsString(a, Key(PantryId)) == AsString(b, Key(PantryId))
    && AsInt(a, Key(Quantity)) == AsInt(b, Key(Quantity))
    && AsInt(a, Key(QuantityDesired)) == AsInt(b, Key(QuantityDesired))
    && AsInt(a, Key(StatusCode)) == AsInt(b, Key(StatusCode))
    && AsBool(a, Key(Favorite)) == AsBool(b, Key(Favorite))
    && AsDate(a, Key(DateAdded)) == AsDate(b, Key(DateAdded))
    && AsDate(a, Key(DateLastUpdated)) == AsDate(b, Key(DateLastUpdated))
    && AsDate(a, Key(ExpireDate)) == AsDate(b, Key(ExpireDate))
  }

  /** Decoding depends on the fields only through those lookups. */
  lemma DecodeDependsOnLookups(r: Record, a: Fields)
    requires LookupsAgree(a, r.fields)
    ensures FromRecord(r.(fields := a)) == FromRecord(r)
  {
  }

  /** CloudKit hands a Bool back as a number: a favorite flag stored as the
      number 1 or 0 decodes like the flag itself. */
  lemma FavoriteStoredAsNumber(i: Item)
    ensures var r := ToRecord(i);
      FromRecord(r.(fields := r.fields[Key(Favorite) := VInt(if i.favorite then 1 else 0)])) == Some(i)
  {
    var r := ToRecord(i);
    var a := r.fields[Key(Favorite) := VInt(if i.favorite then 1 else 0)];
    RoundTrip(i);
    FavoriteLookupsAgree(r.fields, i.favorite);
    DecodeDependsOnLookups(r, a);
  }

  /** Replacing a stored flag by its number changes none of the lookups. */
  lemma FavoriteLookupsAgree(fields: Fields, flag: bool)
    requires AsBool(fields, Key(Favorite)) == Some(flag)
    ensures LookupsAgree(fields[Key(Favorite) := VInt(if flag then 1 else 0)], fields)
  {
  }

  /** The item with an optional field set to nil. */
  function ClearOptional(i: Item, f: Field): Item {
    match f
    case QuantityDesired => i.(quantityDesired := None)
    case Barcode => i.(barcode := None)
    case CustomContent1 => i.(customContent1 := None)
    case CustomContent2 => i.(customContent2 := None)
    case CustomContent3 => i.(customContent3 := None)
    case ExpireDate => i.(expireDate := None)
    case Note => i.(note := None)
    case _ => i
  }

  /** Assigning one field's key leaves every other field's typed lookups as
      they were; assigning nil or a value of the wrong type makes the field's
      own typed lookup nil. */
  lemma AssignedLookups(fields: Fields, f: Field, v: Option<Value>, g: Field)
    requires v.None? || !HasKind(v.value, KindOf(f))
    ensures var a := Assigned(fields, Key(f), v);
      g != f ==>
        && AsString(a, Key(g)) == AsString(fields, Key(g))
        && AsInt(a, Key(g)) == AsInt(fields, Key(g))
        && AsBool(a, Key(g)) == AsBool(fields, Key(g))
        && AsDate(a, Key(g)) == AsDate(fields, Key(g))
    ensures var a := Assigned(fields, Key(f), v);
      && (KindOf(f) == StringKind ==> AsString(a, Key(f)) == None)
      && (KindOf(f) == IntKind ==> AsInt(a, Key(f)) == None)
      && (KindOf(f) == DateKind ==> AsDate(a, Key(f)) == None)
  {
    KeyInjective(f, g);
  }

  /** Assigning an optional field's key leaves the seven required lookups
      unchanged. */
  lemma RequiredLookupsKept(fields: Fields, f: Field, v: Option<Value>)
    requires !IsRequired(f)
    requires v.None? || !HasKind(v.value, KindOf(f))
    ensures var a := Assigned(fields, Key(f), v);
      && AsString(a, Key(Name)) == AsString(fields, Key(Name))
      && AsInt(a, Key(Quantity)) == AsInt(fields, Key(Quantity))
      && AsBool(a, Key(Favorite)) == AsBool(fields, Key(Favorite))
      && AsDate(a, Key(DateAdded)) == AsDate(fields, Key(DateAdded))
      && AsDate(a, Key(DateLastUpdated)) == AsDate(fields, Key(DateLastUpdated))
      && AsInt(a, Key(StatusCode)) == AsInt(fields, Key(StatusCode))
      && AsString(a, Key(PantryId)) == AsString(fields, Key(PantryId))
  {
    AssignedLookups(fields, f, v, Name);
    AssignedLookups(fields, f, v, Quantity);
    AssignedLookups(fields, f, v, Favorite);
    AssignedLookups(fields, f, v, DateAdded);
    AssignedLookups(fields, f, v, DateLastUpdated);
    AssignedLookups(fields, f, v, StatusCode);
    AssignedLookups(fields, f, v, PantryId);
  }

  /** Assigning an optional field's key with nil or a wrongly typed value
      clears that optional's lookup and keeps the other optionals'. */
  lemma OptionalLookupsAfterAssign(fields: Fields, f: Field, v: Option<Value>)
    requires v.None? || !HasKind(v.value, KindOf(f))
    ensures var a := Assigned(fields, Key(f), v);
      && AsInt(a, Key(QuantityDesired)) == (if f == QuantityDesired then None else AsInt(fields, Key(QuantityDesired)))
      && AsString(a, Key(Barcode)) == (if f == Barcode then None else AsString(fields, Key(Barcode)))
      && AsString(a, Key(CustomContent1)) == (if f == CustomContent1 then None else AsString(fields, Key(CustomContent1)))
      && AsString(a, Key(CustomContent2)) == (if f == CustomContent2 then None else AsString(fields, Key(CustomContent2)))
      && AsString(a, Key(CustomContent3)) == (if f == CustomContent3 then None else AsString(fields, Key(CustomContent3)))
      && AsDate(a, Key(ExpireDate)) == (if f == ExpireDate then None else AsDate(fields, Key(ExpireDate)))
      && AsString(a, Key(Note)) == (if f == Note then None else AsString(fields, Key(Note)))
  {
    AssignedLookups(fields, f, v, QuantityDesired);
    AssignedLookups(fields, f, v, Barcode);
    AssignedLookups(fields, f, v, CustomContent1);
    AssignedLookups(fields, f, v, CustomContent2);
    AssignedLookups(fields, f, v, CustomContent3);
    AssignedLookups(fields, f, v, ExpireDate);
    AssignedLookups(fields, f, v, Note);
  }

  /** An optional key that is absent or holds a value of the wrong type does
      not reject the record: the field decodes to nil and nothing else moves. */
  lemma OptionalFieldTolerated(r: Record, f: Field, v: Option<Value>)
    requires FromRecord(r).Some?
    requires !IsRequired(f)
    requires v.None? || !HasKind(v.value, KindOf(f))
    ensures FromRecord(r.(fields := Assigned(r.fields, Key(f), v))) == Some(ClearOptional(FromRecord(r).value, f))
  {
    RequiredLookupsKept(r.fields, f, v);
    OptionalLookupsAfterAssign(r.fields, f, v);
  }

  /** The two field maps agree at a field's key: both lack it or both hold the
      same value there. */
  predicate SameAt(a: Fields, b: Fields, f: Field) {
    && (Key(f) in a <==> Key(f) in b)
    && (Key(f) in a ==> a[Key(f)] == b[Key(f)])
  }

  lemma TextLookupsAgree(a: Fields, b: Fields)
    requires forall f: Field :: SameAt(a, b, f)
    ensures AsString(a, Key(Name)) == AsString(b, Key(Name))
    ensures AsString(a, Key(Barcode)) == AsString(b, Key(Barcode))
    ensures AsString(a, Key(CustomContent1)) == AsString(b, Key(CustomContent1))
    ensures AsString(a, Key(CustomContent2)) == AsString(b, Key(CustomContent2))
    ensures AsString(a, Key(CustomContent3)) == AsString(b, Key(CustomContent3))
    ensures AsString(a, Key(Note)) == AsString(b, Key(Note))
    ensures AsString(a, Key(PantryId)) == AsString(b, Key(PantryId))
  {
    assert SameAt(a, b, Name) && SameAt(a, b, Barcode) && SameAt(a, b, Note) && SameAt(a, b, PantryId);
    assert SameAt(a, b, CustomContent1) && SameAt(a, b, CustomContent2) && SameAt(a, b, CustomContent3);
  }

  lemma ScalarLookupsAgree(a: Fields, b: Fields)
    requires forall f: Field :: SameAt(a, b, f)
    ensures AsInt(a, Key(Quantity)) == AsInt(b, Key(Quantity))
    ensures AsInt(a, Key(QuantityDesired)) == AsInt(b, Key(QuantityDesired))
    ensures AsInt(a, Key(StatusCode)) == AsInt(b, Key(StatusCode))
    ensures AsBool(a, Key(Favorite)) == AsBool(b, Key(Favorite))
    ensures AsDate(a, Key(DateAdded)) == AsDate(b, Key(DateAdded))
    ensures AsDate(a, Key(DateLastUpdated)) == AsDate(b, Key(DateLastUpdated))
    ensures AsDate(a, Key(ExpireDate)) == AsDate(b, Key(ExpireDate))
  {
    assert SameAt(a, b, Quantity) && SameAt(a, b, QuantityDesired) && SameAt(a, b, StatusCode);
    assert SameAt(a, b, Favorite) && SameAt(a, b, DateAdded) && SameAt(a, b, DateLastUpdated) && SameAt(a, b, ExpireDate);
  }

  /** Decoding reads nothing but the record type, the record name and the
      fourteen coding keys: other keys, and the zone, make no difference. */
  lemma DecodeReadsOnlyFieldKeys(r: Record, fields: Fields, zone: string)
    requires forall f: Field :: SameAt(r.fields, fields, f)
    ensures FromRecord(Record(r.recordType, RecordId(r.recordID.recordName, zone), fields)) == FromRecord(r)
  {
    TextLookupsAgree(r.fields, fields);
    ScalarLookupsAgree(r.fields, fields);
  }

  /** The record name alone gives the decoded id: any record of type "Item"
      whose coding keys hold an item's encoding decodes to that item under the
      record's name. */
  lemma DecodesUnderRecordName(i: Item, r: Record)
    requires r.recordType == RecordType
    requires forall f: Field :: SameAt(r.fields, ItemFields(i), f)
    ensures FromRecord(r) == Some(i.(id := r.recordID.recordName))
  {
    var i' := i.(id := r.recordID.recordName);
    assert Encoding(i') == Encoding(i);
    RoundTrip(i');
    forall f: Field
      ensures SameAt(ToRecord(i').fields, r.fields, f)
    {
      assert SameAt(r.fields, ItemFields(i), f);
    }
    DecodeReadsOnlyFieldKeys(ToRecord(i'), r.fields, r.recordID.zoneName);
  }

  /** A decoded note is the string stored under its key. */
  lemma DecodedNote(r: Record)
    requires FromRecord(r).Some?
    ensures FromRecord(r).value.note == AsString(r.fields, Key(Note))
  {
  }
}
