/** The single-property item editor of
    MyPantry/Main/ViewItem/Views/EditPropertyView.swift: a property name picks
    one field of the bound item; the getters load that field into the edit
    buffers and `updateItem` writes the buffers back into that field only. */
module EditProperty {
  import opened Wrappers
  import opened Records
  import opened ItemStatus
  import opened IntText
  import opened ItemConverter

  /** The field a property name selects. The source compares `property` with
      each field's name in turn; the names are pairwise distinct, so at most
      one comparison succeeds. */
  function FieldNamed(property: string): (f: Option<Field>)
    ensures f.Some? ==> Key(f.value) == property
  {
    if property == Key(Name) then Some(Name)
    else if property == Key(Quantity) then Some(Quantity)
    else if property == Key(QuantityDesired) then Some(QuantityDesired)
    else if property == Key(Barcode) then Some(Barcode)
    else if property == Key(Favorite) then Some(Favorite)
    else if property == Key(CustomContent1) then Some(CustomContent1)
    else if property == Key(CustomContent2) then Some(CustomContent2)
    else if property == Key(CustomContent3) then Some(CustomContent3)
    else if property == Key(DateAdded) then Some(DateAdded)
    else if property == Key(DateLastUpdated) then Some(DateLastUpdated)
    else if property == Key(ExpireDate) then Some(ExpireDate)
    else if property == Key(Note) then Some(Note)
    else if property == Key(PantryId) then Some(PantryId)
    else if property == Key(StatusCode) then Some(StatusCode)
    else None
  }

  /** Every field is selected by its own name. */
  lemma FieldNamedKey(f: Field)
    ensures FieldNamed(Key(f)) == Some(f)
  {
    KeyInjective(f, FieldNamed(Key(f)).value);
  }

  /** A name that is no field's name selects nothing. */
  lemma FieldNamedNone(property: string)
    ensures FieldNamed(property).None? <==> forall f: Field :: Key(f) != property
  {
    if FieldNamed(property).None? {
      forall f: Field
        ensures Key(f) != property
      {
        FieldNamedKey(f);
      }
    }
  }

  /** `editedValue.isEmpty ? nil : editedValue` */
  function NilIfEmpty(text: string): (r: Option<string>)
    ensures r.None? <==> text == ""
    ensures r.Some? ==> r.value == text
  {
    if text == "" then None else Some(text)
  }

  /** The new value `updateItem` gives one field, from the edit buffers. The
      id and the pantry id are never edited. */
  function Edited(item: Item, f: Field, editedValue: string, editedBool: bool, editedDate: int): (r: Item)
    ensures r.id == item.id && r.pantryId == item.pantryId
    ensures f != DateLastUpdated ==> r.dateLastUpdated == item.dateLastUpdated
  {
    match f
    case Name => item.(name := editedValue)
    case Quantity => item.(quantity := ParseInt(editedValue).GetOr(item.quantity))
    case QuantityDesired => item.(quantityDesired := ParseInt(editedValue))
    case Barcode => item.(barcode := NilIfEmpty(editedValue))
    case Favorite => item.(favorite := editedBool)
    case CustomContent1 => item.(customContent1 := NilIfEmpty(editedValue))
    case CustomContent2 => item.(customContent2 := NilIfEmpty(editedValue))
    case CustomContent3 => item.(customContent3 := NilIfEmpty(editedValue))
    case DateAdded => item.(dateAdded := editedDate)
    case DateLastUpdated => item.(dateLastUpdated := editedDate)
    case ExpireDate => item.(expireDate := Some(editedDate))
    case Note => item.(note := NilIfEmpty(editedValue))
    case PantryId => item
    case StatusCode =>
      item.(status := FromRawValue(ParseInt(editedValue).GetOr(RawValue(item.status))).GetOr(item.status))
  }

  /** `updateItem`: the item rebuilt with the named property taken from the
      edit buffers; an unknown name rebuilds it unchanged. Whatever the
      property, the id and the pantry id are kept. */
  function Updated(item: Item, property: string, editedValue: string, editedBool: bool, editedDate: int): (r: Item)
    ensures r.id == item.id && r.pantryId == item.pantryId
    ensures FieldNamed(property).None? ==> r == item
  {
    match FieldNamed(property)
    case None => item
    case Some(f) => Edited(item, f, editedValue, editedBool, editedDate)
  }

  /** The three edit buffers: `editedValue`, `editedDate`, `editedBool`. */
  datatype EditBuffers = EditBuffers(value: string, date: int, flag: bool)

  /** The fields edited with the date picker. */
  predicate IsDateField(f: Field) {
    f == DateAdded || f == DateLastUpdated || f == ExpireDate
  }

  /** The getter of one field: it loads the field into the buffer its editor
      uses and leaves the other buffers alone. `now` is `Date()`. A number
      loaded as text reads back as that number. */
  function Load(item: Item, f: Field, now: int, b: EditBuffers): (r: EditBuffers)
    ensures f == Favorite ==> r.value == b.value && r.date == b.date && r.flag == item.favorite
    ensures IsDateField(f) ==> r.value == b.value && r.flag == b.flag
    ensures f != Favorite && !IsDateField(f) ==> r.flag == b.flag && r.date == b.date
    ensures f == PantryId ==> r == b
    ensures f == Quantity ==> ParseInt(r.value) == Some(item.quantity)
    ensures f == StatusCode ==> ParseInt(r.value) == Some(RawValue(item.status))
  {
    match f
    case Name => b.(value := item.name)
    case Quantity => ParseShowInt(item.quantity); b.(value := ShowInt(item.quantity))
    case QuantityDesired => b.(value := if item.quantityDesired.Some? then ShowInt(item.quantityDesired.value) else "")
    case Barcode => b.(value := item.barcode.GetOr(""))
    case Favorite => b.(flag := item.favorite)
    case CustomContent1 => b.(value := item.customContent1.GetOr(""))
    case CustomContent2 => b.(value := item.customContent2.GetOr(""))
    case CustomContent3 => b.(value := item.customContent3.GetOr(""))
    case DateAdded => b.(date := item.dateAdded)
    case DateLastUpdated => b.(date := item.dateLastUpdated)
    case ExpireDate => b.(date := item.expireDate.GetOr(now))
    case Note => b.(value := item.note.GetOr(""))
    case PantryId => b
    case StatusCode => ParseShowInt(RawValue(item.status)); b.(value := ShowInt(RawValue(item.status)))
  }

  /** `setupInitialValue`: runs the getter of the named property, if the
      getter table has one; the pantry id has none. */
  function Setup(item: Item, property: string, now: int, b: EditBuffers): (r: EditBuffers)
    ensures r.flag != b.flag ==> property == Key(Favorite)
    ensures r.date != b.date ==> property == Key(DateAdded) || property == Key(DateLastUpdated) || property == Key(ExpireDate)
    ensures FieldNamed(property).None? || property == Key(PantryId) ==> r == b
  {
    match FieldNamed(property)
    case None => b
    case Some(f) => Load(item, f, now, b)
  }

  /** The editor's state: the item it is bound to, the property it edits and
      the edit buffers. */
  class EditPropertyView {
    var item: Item
    const property: string
    var editedValue: string
    var editedDate: int
    var editedBool: bool

    /** The buffers start empty, at the current date and off. */
    constructor (item: Item, property: string, now: int)
      ensures this.item == item && this.property == property
      ensures Buffers() == EditBuffers("", now, false)
    {
      this.item := item;
      this.property := property;
      editedValue := "";
      editedDate := now;
      editedBool := false;
    }

    function Buffers(): EditBuffers
      reads this
    {
      EditBuffers(editedValue, editedDate, editedBool)
    }

    /** `setupInitialValue`: loads the property into the buffers. */
    method SetupInitialValue(now: int)
      modifies this
      ensures item == old(item)
      ensures Buffers() == Setup(item, property, now, old(Buffers()))
    {
      var f := FieldNamed(property);
      if f.Some? {
        var b := Load(item, f.value, now, Buffers());
        editedValue, editedDate, editedBool := b.value, b.date, b.flag;
      }
    }

    /** `updateItem`: writes the buffers back into the bound item. */
    method UpdateItem()
      modifies this
      ensures item == Updated(old(item), property, editedValue, editedBool, editedDate)
      ensures Buffers() == old(Buffers())
    {
      item := Updated(item, property, editedValue, editedBool, editedDate);
    }
  }

  /** Equal stored text values mean equal text fields. */
  lemma EncodedDeterminesText(a: Item, b: Item)
    requires forall f: Field :: Encoded(a, f) == Encoded(b, f)
    ensures a.name == b.name && a.barcode == b.barcode && a.note == b.note && a.pantryId == b.pantryId
    ensures a.customContent1 == b.customContent1 && a.customContent2 == b.customContent2
    ensures a.customContent3 == b.customContent3
  {
    assert Encoded(a, Name) == Encoded(b, Name);
    assert Encoded(a, Barcode) == Encoded(b, Barcode);
    assert Encoded(a, CustomContent1) == Encoded(b, CustomContent1);
    assert Encoded(a, CustomContent2) == Encoded(b, CustomContent2);
    assert Encoded(a, CustomContent3) == Encoded(b, CustomContent3);
    assert Encoded(a, Note) == Encoded(b, Note);
    assert Encoded(a, PantryId) == Encoded(b, PantryId);
  }

  /** Equal stored numbers, flags and dates mean equal fields of those types. */
  lemma EncodedDeterminesScalars(a: Item, b: Item)
    requires forall f: Field :: Encoded(a, f) == Encoded(b, f)
    ensures a.quantity == b.quantity && a.quantityDesired == b.quantityDesired && a.favorite == b.favorite
    ensures a.dateAdded == b.dateAdded && a.dateLastUpdated == b.dateLastUpdated && a.expireDate == b.expireDate
    ensures a.status == b.status
  {
    assert Encoded(a, Quantity) == Encoded(b, Quantity);
    assert Encoded(a, QuantityDesired) == Encoded(b, QuantityDesired);
    assert Encoded(a, Favorite) == Encoded(b, Favorite);
    assert Encoded(a, DateAdded) == Encoded(b, DateAdded);
    assert Encoded(a, DateLastUpdated) == Encoded(b, DateLastUpdated);
    assert Encoded(a, ExpireDate) == Encoded(b, ExpireDate);
    assert Encoded(a, StatusCode) == Encoded(b, StatusCode);
    RawValueInjective(a.status, b.status);
  }

  /** Two items with the same id that store the same value under every key are
      the same item, so the stored values are a faithful view of the fields. */
  lemma EncodedDetermines(a: Item, b: Item)
    requires a.id == b.id
    requires forall f: Field :: Encoded(a, f) == Encoded(b, f)
    ensures a == b
  {
    EncodedDeterminesText(a, b);
    EncodedDeterminesScalars(a, b);
  }

  /** Editing one field leaves the stored value of every other field as it
      was. */
  lemma EditedOnlyField(item: Item, f: Field, text: string, flag: bool, date: int, g: Field)
    requires f != g
    ensures Encoded(Edited(item, f, text, flag, date), g) == Encoded(item, g)
  {
  }

  /** Only the named field can change: every other field keeps the value it
      had, and a name that is no field's leaves the item as it was. */
  lemma OnlyNamedFieldChanges(item: Item, property: string, text: string, flag: bool, date: int, g: Field)
    requires FieldNamed(property) != Some(g)
    ensures Encoded(Updated(item, property, text, flag, date), g) == Encoded(item, g)
  {
    var f := FieldNamed(property);
    if f.Some? {
      EditedOnlyField(item, f.value, text, flag, date, g);
    }
  }

  lemma UnknownPropertyKeepsItem(item: Item, property: string, text: string, flag: bool, date: int)
    requires forall f: Field :: Key(f) != property
    ensures Updated(item, property, text, flag, date) == item
  {
    FieldNamedNone(property);
  }

  /** Text that is not a number keeps the quantity but clears the desired
      quantity. */
  lemma UnparseableQuantity(item: Item, text: string, flag: bool, date: int)
    requires ParseInt(text).None?
    ensures Updated(item, Key(Quantity), text, flag, date) == item
    ensures Updated(item, Key(QuantityDesired), text, flag, date) == item.(quantityDesired := None)
  {
    FieldNamedKey(Quantity);
    FieldNamedKey(QuantityDesired);
  }

  /** A number is stored in either quantity field. */
  lemma ParsedQuantity(item: Item, text: string, flag: bool, date: int, n: int)
    requires ParseInt(text) == Some(n)
    ensures Updated(item, Key(Quantity), text, flag, date) == item.(quantity := n)
    ensures Updated(item, Key(QuantityDesired), text, flag, date) == item.(quantityDesired := Some(n))
  {
    FieldNamedKey(Quantity);
    FieldNamedKey(QuantityDesired);
  }

  /** The optional text fields: empty text stores nil, anything else the text. */
  predicate IsOptionalText(f: Field) {
    f in {Barcode, CustomContent1, CustomContent2, CustomContent3, Note}
  }

  lemma OptionalTextEdited(item: Item, f: Field, text: string, flag: bool, date: int)
    requires IsOptionalText(f)
    ensures var u := Updated(item, Key(f), text, flag, date);
      Encoded(u, f) == (if text == "" then None else Some(VString(text)))
  {
    FieldNamedKey(f);
  }

  /** A status edit stores the status whose code the text names; text that is
      not a number, or names no status, keeps the current status. */
  lemma StatusEdited(item: Item, text: string, flag: bool, date: int)
    ensures var u := Updated(item, Key(StatusCode), text, flag, date);
      && (ParseInt(text).Some? && FromRawValue(ParseInt(text).value).Some? ==>
            u == item.(status := FromRawValue(ParseInt(text).value).value))
      && (ParseInt(text).None? || FromRawValue(ParseInt(text).value).None? ==> u == item)
  {
    FieldNamedKey(StatusCode);
    RawValueRoundTrip(item.status);
  }

  /** A date edit stores the picked date, so the expiry date becomes set; no
      other edit stamps the last-updated date. */
  lemma DateEdited(item: Item, f: Field, text: string, flag: bool, date: int)
    requires f in {DateAdded, DateLastUpdated, ExpireDate}
    ensures Encoded(Updated(item, Key(f), text, flag, date), f) == Some(VDate(date))
  {
    FieldNamedKey(f);
  }

  lemma LastUpdatedNotStamped(item: Item, property: string, text: string, flag: bool, date: int)
    requires property != Key(DateLastUpdated)
    ensures Updated(item, property, text, flag, date).dateLastUpdated == item.dateLastUpdated
  {
  }

  /** Loading a property and saving it unedited gives the item back, for the
      name, both quantities, the favourite flag, the status and the two
      required dates. */
  lemma LoadThenSaveKeeps(item: Item, f: Field, now: int, b: EditBuffers)
    requires f in {Name, Quantity, QuantityDesired, Favorite, StatusCode, DateAdded, DateLastUpdated}
    ensures var l := Setup(item, Key(f), now, b);
      Updated(item, Key(f), l.value, l.flag, l.date) == item
  {
    FieldNamedKey(f);
    match f {
      case Quantity =>
        ParseShowInt(item.quantity);
      case QuantityDesired =>
        if item.quantityDesired.Some? {
          ParseShowInt(item.quantityDesired.value);
        }
      case StatusCode =>
        ParseShowInt(RawValue(item.status));
        RawValueRoundTrip(item.status);
      case _ =>
    }
  }

  /** For the optional text fields the unedited round trip is the identity,
      except that an empty text becomes nil. */
  lemma LoadThenSaveOptionalText(item: Item, f: Field, now: int, b: EditBuffers)
    requires IsOptionalText(f)
    ensures var l := Setup(item, Key(f), now, b);
      Encoded(Updated(item, Key(f), l.value, l.flag, l.date), f) ==
        (if Encoded(item, f) == Some(VString("")) then None else Encoded(item, f))
  {
    FieldNamedKey(f);
  }

  /** Loading and saving the expiry date sets it, to the current date when it
      was nil. */
  lemma LoadThenSaveExpireDate(item: Item, now: int, b: EditBuffers)
    ensures var l := Setup(item, Key(ExpireDate), now, b);
      Updated(item, Key(ExpireDate), l.value, l.flag, l.date) == item.(expireDate := Some(item.expireDate.GetOr(now)))
  {
    FieldNamedKey(ExpireDate);
  }
}
