/** `setRecordValue` of MyPantry/Helper/SetCKRecords.swift: writes a value into
    a record only when there is one. */
module SetCKRecords {
  import opened Wrappers
  import opened Records

  /** `RecordValueError` */
  datatype RecordValueError = IncompatibleType

  /** The fields after the write: a value is stored under the key; nil writes
      nothing, so an existing value under the key stays. */
  function WrittenIfPresent(fields: Fields, key: string, value: Option<Value>): (r: Fields)
    ensures value.Some? ==> key in r && r[key] == value.value
    ensures value.None? ==> r == fields
    ensures r.Keys == fields.Keys + (if value.Some? then {key} else {})
    ensures forall k :: k in fields && k != key ==> r[k] == fields[k]
  {
    if value.Some? then fields[key := value.value] else fields
  }

  /** Unlike a plain subscript write, nil does not clear the key. */
  lemma NilDoesNotClear(fields: Fields, key: string)
    requires key in fields
    ensures key in WrittenIfPresent(fields, key, None)
    ensures key !in Assigned(fields, key, None)
  {
  }

  /** With a value the two writes agree. */
  lemma AgreesWithSubscriptOnValue(fields: Fields, key: string, v: Value)
    ensures WrittenIfPresent(fields, key, Some(v)) == Assigned(fields, key, Some(v))
  {
  }

  /** `setRecordValue(_:for:in:)`: always succeeds; the record's type and id
      are constants of the record object and cannot change. */
  method SetRecordValue(value: Option<Value>, key: string, record: MutableRecord)
    returns (r: Result<(), RecordValueError>)
    modifies record
    ensures r == Success(())
    ensures record.fields == WrittenIfPresent(old(record.fields), key, value)
  {
    if value.Some? {
      record.Set(key, value);
      return Success(());
    } else {
      return Success(());
    }
  }
}
