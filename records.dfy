/** The CloudKit record: a record type, a record id (record name and zone) and a
    dictionary of scalar values. A key that is absent stands for nil. */
module Records {
  import opened Wrappers

  /** CKRecord.ID: the record name within a zone. */
  datatype RecordId = RecordId(recordName: string, zoneName: string)

  /** The zone that `CKRecord.ID(recordName:)` uses when no zone is given. */
  const DefaultZone: string := "_defaultZone"

  /** The scalar values the application stores in a record. Dates are opaque
      time stamps; a reference (CKRecord.Reference) names another record. */
  datatype Value =
    | VString(str: string)
    | VInt(num: int)
    | VBool(flag: bool)
    | VDate(time: int)
    | VRef(target: RecordId)

  type Fields = map<string, Value>

  /** A snapshot of a CKRecord. */
  datatype Record = Record(recordType: string, recordID: RecordId, fields: Fields)

  /** `record[key] as? String` */
  function AsString(fields: Fields, key: string): (r: Option<string>)
    ensures r.Some? <==> key in fields && fields[key].VString?
    ensures r.Some? ==> fields[key] == VString(r.value)
  {
    if key in fields && fields[key].VString? then Some(fields[key].str) else None
  }

  /** CloudKit keeps no separate Boolean type: a Bool is stored as an NSNumber
      holding 0 or 1, so a number and a flag read back through each other. */
  predicate IsNumber(v: Value) {
    v.VInt? || v.VBool?
  }

  /** The integer an NSNumber value holds; a flag holds 1 for true, 0 for false. */
  function NumberOf(v: Value): int
    requires IsNumber(v)
  {
    if v.VBool? then (if v.flag then 1 else 0) else v.num
  }

  /** An NSNumber that bridges to Bool: a flag, or an integer that is 0 or 1. */
  predicate IsFlag(v: Value) {
    v.VBool? || (v.VInt? && (v.num == 0 || v.num == 1))
  }

  /** `record[key] as? Int`: any stored number, a flag included. */
  function AsInt(fields: Fields, key: string): (r: Option<int>)
    ensures r.Some? <==> key in fields && IsNumber(fields[key])
    ensures key in fields && fields[key].VInt? ==> r == Some(fields[key].num)
    ensures key in fields && fields[key].VBool? ==> r == Some(if fields[key].flag then 1 else 0)
  {
    if key in fields && IsNumber(fields[key]) then Some(NumberOf(fields[key])) else None
  }

  /** `record[key] as? Bool`: a flag, or a number that is exactly 0 or 1. */
  function AsBool(fields: Fields, key: string): (r: Option<bool>)
    ensures r.Some? <==> key in fields && IsFlag(fields[key])
    ensures key in fields && fields[key].VBool? ==> r == Some(fields[key].flag)
    ensures key in fields && fields[key].VInt? ==> r.Some? ==> r.value == (fields[key].num == 1)
  {
    if key in fields && IsFlag(fields[key]) then
      Some(if fields[key].VBool? then fields[key].flag else fields[key].num == 1)
    else None
  }

  /** `record[key] as? Date` */
  function AsDate(fields: Fields, key: string): (r: Option<int>)
    ensures r.Some? <==> key in fields && fields[key].VDate?
    ensures r.Some? ==> fields[key] == VDate(r.value)
  {
    if key in fields && fields[key].VDate? then Some(fields[key].time) else None
  }

  /** `record[key] as? CKRecord.Reference` */
  function AsRef(fields: Fields, key: string): (r: Option<RecordId>)
    ensures r.Some? <==> key in fields && fields[key].VRef?
    ensures r.Some? ==> fields[key] == VRef(r.value)
  {
    if key in fields && fields[key].VRef? then Some(fields[key].target) else None
  }

  /** `record[key] = value`: a value is stored under the key, nil removes it. */
  function Assigned(fields: Fields, key: string, value: Option<Value>): (r: Fields)
    ensures value.Some? ==> key in r && r[key] == value.value
    ensures value.None? ==> key !in r
    ensures r.Keys - {key} == fields.Keys - {key}
    ensures forall k :: k in r && k != key ==> k in fields && r[k] == fields[k]
  {
    match value
    case Some(v) => fields[key := v]
    case None => fields - {key}
  }

  /** Lifts an optional string into an optional record value. */
  function StringValue(s: Option<string>): (r: Option<Value>)
    ensures r.Some? <==> s.Some?
    ensures s.Some? ==> r.value.VString? && r.value.str == s.value
  {
    match s
    case Some(x) => Some(VString(x))
    case None => None
  }

  /** Lifts an optional integer into an optional record value. */
  function IntValue(n: Option<int>): (r: Option<Value>)
    ensures r.Some? <==> n.Some?
    ensures n.Some? ==> r.value.VInt? && r.value.num == n.value
  {
    match n
    case Some(x) => Some(VInt(x))
    case None => None
  }

  /** Lifts an optional date into an optional record value. */
  function DateValue(t: Option<int>): (r: Option<Value>)
    ensures r.Some? <==> t.Some?
    ensures t.Some? ==> r.value.VDate? && r.value.time == t.value
  {
    match t
    case Some(x) => Some(VDate(x))
    case None => None
  }

  /** A CKRecord object: its type and id are fixed at creation, its fields are
      written in place through the subscript. */
  class MutableRecord {
    const recordType: string
    const recordID: RecordId
    var fields: Fields

    /** `CKRecord(recordType:recordID:)`: a record with no fields. */
    constructor (recordType: string, recordID: RecordId)
      ensures this.recordType == recordType && this.recordID == recordID
      ensures fields == map[]
    {
      this.recordType := recordType;
      this.recordID := recordID;
      fields := map[];
    }

    /** A record object holding the given snapshot, as a fetch returns it. */
    constructor FromSnapshot(r: Record)
      ensures Snapshot() == r
    {
      recordType := r.recordType;
      recordID := r.recordID;
      fields := r.fields;
    }

    function Snapshot(): (r: Record)
      reads this
      ensures r.recordType == recordType && r.recordID == recordID && r.fields == fields
    {
      Record(recordType, recordID, fields)
    }

    /** `record[key] = value` */
    method Set(key: string, value: Option<Value>)
      modifies this
      ensures fields == Assigned(old(fields), key, value)
    {
      fields := Assigned(fields, key, value);
    }
  }
}
