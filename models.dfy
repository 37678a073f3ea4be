/** The Pantry of Models/Sources/Models/Pantry.swift: a CKRecord.ID id, an
    optional share reference, and an exact record codec. */
module PantryModel {
  import opened Wrappers
  import opened Records

  datatype Pantry = Pantry(
    id: RecordId,
    name: string,
    ownerId: string,
    shareReference: Option<RecordId>,
    isShared: bool)

  const RecordType: string := "Pantry"

  /** `Pantry.zoneId` */
  const ZoneName: string := "PantryZone"

  const NameKey: string := "name"
  const OwnerIdKey: string := "ownerId"
  const ShareReferenceKey: string := "shareReference"
  const IsSharedKey: string := "isShared"

  /** `Pantry(name:ownerId:isShared:)` with the id and the share reference
      left to their defaults: a freshly generated record name in the pantry
      zone and no share reference. `isShared` itself defaults to false. */
  function NewPantry(freshName: string, name: string, ownerId: string, isShared: bool): (p: Pantry)
    ensures p.id == RecordId(freshName, ZoneName)
    ensures p.name == name && p.ownerId == ownerId && p.isShared == isShared
    ensures p.shareReference == None
  {
    Pantry(RecordId(freshName, ZoneName), name, ownerId, None, isShared)
  }

  /** `toRecord`: four subscript writes into a record created with the
      pantry's own id; a nil share reference leaves its key absent. */
  function ToRecord(p: Pantry): (r: Record)
    ensures r.recordType == RecordType && r.recordID == p.id
  {
    var f1 := Assigned(map[], NameKey, Some(VString(p.name)));
    var f2 := Assigned(f1, OwnerIdKey, Some(VString(p.ownerId)));
    var f3 := Assigned(f2, ShareReferenceKey, if p.shareReference.Some? then Some(VRef(p.shareReference.value)) else None);
    Record(RecordType, p.id, Assigned(f3, IsSharedKey, Some(VBool(p.isShared))))
  }

  /** `fromRecord`: a "Pantry" record with a string name and owner and a Bool
      `isShared` decodes, keeping the record id and any share reference. */
  function FromRecord(r: Record): (p: Option<Pantry>)
    ensures p.Some? <==>
      && r.recordType == RecordType
      && AsString(r.fields, NameKey).Some?
      && AsString(r.fields, OwnerIdKey).Some?
      && AsBool(r.fields, IsSharedKey).Some?
    ensures p.Some? ==> p.value.id == r.recordID && p.value.shareReference == AsRef(r.fields, ShareReferenceKey)
    ensures p.Some? ==>
      && r.fields[NameKey] == VString(p.value.name)
      && r.fields[OwnerIdKey] == VString(p.value.ownerId)
      && AsBool(r.fields, IsSharedKey) == Some(p.value.isShared)
  {
    if r.recordType == RecordType
       && AsString(r.fields, NameKey).Some?
       && AsString(r.fields, OwnerIdKey).Some?
       && AsBool(r.fields, IsSharedKey).Some?
    then
      Some(Pantry(
        r.recordID,
        AsString(r.fields, NameKey).value,
        AsString(r.fields, OwnerIdKey).value,
        AsRef(r.fields, ShareReferenceKey),
        AsBool(r.fields, IsSharedKey).value))
    else None
  }

  /** The keys `toRecord` writes: exactly the four coding keys, less the share
      reference when it is nil. */
  lemma ToRecordKeys(p: Pantry)
    ensures ToRecord(p).fields.Keys ==
      {NameKey, OwnerIdKey, IsSharedKey} + (if p.shareReference.Some? then {ShareReferenceKey} else {})
  {
  }

  /** Decoding an encoded pantry gives back every field, id and share
      reference included. */
  lemma RoundTrip(p: Pantry)
    ensures FromRecord(ToRecord(p)) == Some(p)
  {
    var r := ToRecord(p);
    assert AsString(r.fields, NameKey) == Some(p.name);
    assert AsString(r.fields, OwnerIdKey) == Some(p.ownerId);
    assert AsBool(r.fields, IsSharedKey) == Some(p.isShared);
  }

  /** Decoding fails exactly when the type is wrong or a required key is
      absent or holds another type. */
  lemma FromRecordFails(r: Record)
    ensures FromRecord(r).None? <==>
      || r.recordType != RecordType
      || NameKey !in r.fields || !r.fields[NameKey].VString?
      || OwnerIdKey !in r.fields || !r.fields[OwnerIdKey].VString?
      || IsSharedKey !in r.fields || !IsFlag(r.fields[IsSharedKey])
  {
  }

  /** An absent or non-reference share reference decodes to nil without
      failing the decode. */
  lemma ShareReferenceIsOptional(r: Record, v: Option<Value>)
    requires FromRecord(r).Some?
    requires v.None? || !v.value.VRef?
    ensures FromRecord(r.(fields := Assigned(r.fields, ShareReferenceKey, v)))
         == Some(FromRecord(r).value.(shareReference := None))
  {
  }
}

/** The older Pantry of Models/Sources/Models/File.swift: an optional id, an
    access code, and a failable initializer that does not look at the record
    type. */
module LegacyPantry {
  import opened Wrappers
  import opened Records

  datatype Pantry = Pantry(
    id: Option<RecordId>,
    name: string,
    accessCode: string,
    ownerId: string)

  /** `Pantry.type` */
  const RecordType: string := "Pantry"

  const NameKey: string := "name"
  const AccessCodeKey: string := "accessCode"
  const OwnerIdKey: string := "ownerId"

  /** `init?(record:)` */
  function FromRecord(r: Record): (p: Option<Pantry>)
    ensures p.Some? <==>
      AsString(r.fields, NameKey).Some? && AsString(r.fields, AccessCodeKey).Some? && AsString(r.fields, OwnerIdKey).Some?
    ensures p.Some? ==> p.value.id == Some(r.recordID)
    ensures p.Some? ==>
      && r.fields[NameKey] == VString(p.value.name)
      && r.fields[AccessCodeKey] == VString(p.value.accessCode)
      && r.fields[OwnerIdKey] == VString(p.value.ownerId)
  {
    if AsString(r.fields, NameKey).Some?
       && AsString(r.fields, AccessCodeKey).Some?
       && AsString(r.fields, OwnerIdKey).Some?
    then
      Some(Pantry(
        Some(r.recordID),
        AsString(r.fields, NameKey).value,
        AsString(r.fields, AccessCodeKey).value,
        AsString(r.fields, OwnerIdKey).value))
    else None
  }

  /** The record PantryService saves for a pantry: a fresh record of type
      "Pantry" with the name, access code and owner written, built the way
      `User.record` builds its record. */
  function ToRecord(p: Pantry, freshName: string): (r: Record)
    ensures r.recordType == RecordType && r.recordID == RecordId(freshName, DefaultZone)
    ensures r.fields.Keys == {NameKey, AccessCodeKey, OwnerIdKey}
  {
    Record(RecordType, RecordId(freshName, DefaultZone),
      map[NameKey := VString(p.name), AccessCodeKey := VString(p.accessCode), OwnerIdKey := VString(p.ownerId)])
  }

  /** The record type is never checked: a record of any type carrying the three
      strings decodes, and only its fields and id matter. */
  lemma RecordTypeIgnored(r: Record, otherType: string)
    ensures FromRecord(r.(recordType := otherType)) == FromRecord(r)
  {
  }

  /** Decoding the saved record gives back the three strings, with the
      record's own id in place of the pantry's. */
  lemma RoundTrip(p: Pantry, freshName: string)
    ensures FromRecord(ToRecord(p, freshName)) == Some(p.(id := Some(RecordId(freshName, DefaultZone))))
  {
  }
}

/** The User of Models/Sources/Models/User.swift. */
module UserModel {
  import opened Wrappers
  import opened Records

  datatype User = User(id: Option<RecordId>, displayName: string, pantryId: string)

  /** `User.type` */
  const RecordType: string := "User"

  const DisplayNameKey: string := "displayName"
  const PantryIdKey: string := "pantryId"

  /** `init?(record:)`: the record type is not checked. */
  function FromRecord(r: Record): (u: Option<User>)
    ensures u.Some? <==> AsString(r.fields, DisplayNameKey).Some? && AsString(r.fields, PantryIdKey).Some?
    ensures u.Some? ==> u.value.id == Some(r.recordID)
    ensures u.Some? ==>
      r.fields[DisplayNameKey] == VString(u.value.displayName) && r.fields[PantryIdKey] == VString(u.value.pantryId)
  {
    if AsString(r.fields, DisplayNameKey).Some? && AsString(r.fields, PantryIdKey).Some? then
      Some(User(Some(r.recordID), AsString(r.fields, DisplayNameKey).value, AsString(r.fields, PantryIdKey).value))
    else None
  }

  /** The `record` getter: a new record of type "User" with a freshly generated
      name in the default zone; the user's own id is not used. */
  function ToRecord(u: User, freshName: string): (r: Record)
    ensures r.recordType == RecordType && r.recordID == RecordId(freshName, DefaultZone)
    ensures r.fields.Keys == {DisplayNameKey, PantryIdKey}
  {
    Record(RecordType, RecordId(freshName, DefaultZone),
      map[DisplayNameKey := VString(u.displayName), PantryIdKey := VString(u.pantryId)])
  }

  /** The display name and pantry id survive the round trip; the id becomes the
      new record's, whatever the user's was. */
  lemma RoundTrip(u: User, freshName: string)
    ensures FromRecord(ToRecord(u, freshName)) == Some(u.(id := Some(RecordId(freshName, DefaultZone))))
  {
  }

  /** So a user whose id differs from the fresh record's does not come back
      equal to itself. */
  lemma IdNotRoundTripped(u: User, freshName: string)
    requires u.id != Some(RecordId(freshName, DefaultZone))
    ensures FromRecord(ToRecord(u, freshName)) != Some(u)
  {
    RoundTrip(u, freshName);
  }

  /** The record type is never checked. */
  lemma RecordTypeIgnored(r: Record, otherType: string)
    ensures FromRecord(r.(recordType := otherType)) == FromRecord(r)
  {
  }
}
