# MyPantry: record codecs, item editor, managers and view models

MyPantry is a SwiftUI app that keeps pantries and the items in them in
CloudKit. This project models, in Dafny, the part of the app that contains
logic rather than UI. It covers five parts:

- **Record codecs.** These map a `Pantry`, an `Item` or a `User` to and from a
  CloudKit record. A record has a record type, a record id (a record name in a
  zone) and a dictionary of scalar values. An absent key stands for nil.
  - `PantryConverter` and `ItemConverter` are in `CloudKitConvertible.swift`.
  - The `Pantry` of the Models package has a `CKRecord.ID` id and a share
    reference.
  - The older `Pantry` with an access code, and `User`.
  - The item `Status` enum.
  - The "write only if non-nil" helper `setRecordValue`.
- **The single-property item editor** (`EditPropertyView`). It loads a
  property of an item into edit buffers, then rebuilds the item from the
  edited text, flag or date.
- **`ItemManager` and `PantryService`.** Both work over a CloudKit database,
  modelled as an in-memory map from record id to record.
- **The view models.** These are the pantry list, the pantry overview, the
  pantry picker, the create-pantry form and the add-item form.
- **Conversions.** Swift's decimal text conversions `"\(n)"` and `Int(text)`,
  which the editor relies on.

Values are modelled as datatypes and code as functions and lemmas. Objects
whose fields the source updates in place are modelled as classes:
- the CKRecord itself (`Records.MutableRecord`);
- the database;
- the managers;
- the editor view;
- each view model.

Every service or network call a view model makes becomes a parameter. A call
whose argument matters (creating, saving or sharing a pantry) is passed as a
function from its arguments to its outcome. A call without arguments (the
loads) is passed as its outcome. An outcome is the value the call returns, or
the `localizedDescription` of the error it throws.
Generated UUIDs and `Date()` are parameters too (`freshName`, `now`). A
server that rejects a save, or a query that fails, is a boolean parameter.

`ItemManager.updateItem` (MyPantry/Managers/ItemManager.swift:100-119) does
not stamp `dateLastUpdated`. It copies the item's encoding onto the stored
record as it is, and the model does the same.

## Model

| member | source | states |
|---|---|---|
| Records.Assigned | MyPantry/Main/CloudKit/CloudKitConvertible.swift:41-44 | A subscript write stores a value under its key, or removes the key for nil, and leaves every other key as it was. |
| Records.MutableRecord.Set | MyPantry/Main/CloudKit/CloudKitConvertible.swift:52-56 | Writing through the subscript of a record object changes its fields as `Assigned` says and nothing else. |
| Records.AsInt | MyPantry/Main/CloudKit/CloudKitConvertible.swift:69 | `record[key] as? Int` is non-nil exactly when the key holds a number, a stored Bool included, and yields its value, 1 or 0 for a Bool. |
| Records.AsBool | MyPantry/Main/CloudKit/CloudKitConvertible.swift:70 | `record[key] as? Bool` is non-nil exactly when the key holds a Bool or the number 0 or 1, and yields the flag. |
| Records.AsString | MyPantry/Main/CloudKit/CloudKitConvertible.swift:68 | `record[key] as? String` is non-nil exactly when the key holds a string, and then yields that string. |
| IntText.ParseInt | MyPantry/Main/ViewItem/Views/EditPropertyView.swift:33-34 | `Int(text)` is nil for empty text, and a number only for text ending in a digit. |
| IntText.ShowInt | MyPantry/Main/ViewItem/Views/EditPropertyView.swift:52 | The decimal text of an integer is never empty, and starts with a minus sign exactly when the integer is negative. |
| IntText.ParseShowInt | MyPantry/Main/ViewItem/Views/EditPropertyView.swift:52 | Reading back the decimal text that interpolation writes for any integer gives that integer. |
| IntText.ParseSignedDigits | MyPantry/Main/ViewItem/Views/EditPropertyView.swift:33-34 | An optional sign followed by one or more digits, such as "+5", "007" or "-0", reads as the signed value of the digits. |
| IntText.ParseRejectsNonDigits | MyPantry/Main/ViewItem/Views/EditPropertyView.swift:33-34 | Text with a non-digit anywhere except a leading sign does not parse. |
| ItemStatus.RawValue | Models/Sources/Models/Item.swift:26-27 | The raw codes of the status cases lie in 0..2. |
| ItemStatus.FromRawValue | Models/Sources/Models/Item.swift:26-27 | `Status(rawValue:)` is defined exactly on 0, 1 and 2, and there inverts `rawValue`. |
| ItemStatus.AllCases | Models/Sources/Models/Item.swift:26-27 | `allCases` lists the three cases, the case with code i at position i. |
| ItemStatus.Id | Models/Sources/Models/Item.swift:29-31 | A status's id is the case itself. |
| ItemStatus.RawValueRoundTrip | Models/Sources/Models/Item.swift:26-27 | Decoding a status's raw code gives the status back. |
| ItemStatus.RawValueInjective | Models/Sources/Models/Item.swift:26-27 | Two statuses share a raw code only if they are the same case. |
| ItemStatus.Descr | Models/Sources/Models/Item.swift:33-42 | Every status has one of the three non-empty labels "In Stock", "Out Of Stock" and "Low Stock". |
| ItemStatus.DescrInjective | Models/Sources/Models/Item.swift:33-42 | The three descriptions are pairwise distinct. |
| Sequences.Filter | MyPantry/Main/Pantry/PantryViewModel.swift:38-39 | `filter` keeps exactly the elements that satisfy the predicate and is never longer than its input. |
| Sequences.FilterIsSubsequence | MyPantry/AddItem/AddItemViewModel.swift:33 | A filtered list keeps the original order: it is a subsequence of its input. |
| Sequences.FilterPartition | MyPantry/Main/Pantry/PantryViewModel.swift:36-39 | Filtering by a predicate and by its negation splits a list: the lengths add up, and so do the element counts. |
| Sequences.FilterAppend | MyPantry/Main/Pantry/PantryViewModel.swift:36-38 | Filtering a concatenation is the concatenation of the filtered parts. |
| Sequences.CompactMap | MyPantry/Managers/ItemManager.swift:78-80 | `compactMap` yields exactly the non-nil results of the transform over the input, and no more of them than inputs. |
| PantryConverter.ToRecord | MyPantry/Main/CloudKit/CloudKitConvertible.swift:37-47 | The record has type "Pantry" and the pantry id as record name in the default zone. It holds only the four coding keys, never `zoneId`, and the share reference key only when it is set. |
| PantryConverter.SetFields | MyPantry/Main/CloudKit/CloudKitConvertible.swift:51-57 | `setFields` performs the four writes of `toRecord` and then writes `zoneId`, on the caller's record. |
| PantryConverter.WriteFieldsAt | MyPantry/Main/CloudKit/CloudKitConvertible.swift:52-55 | After the four writes, each coding key reads back its value and every other key is untouched. |
| PantryConverter.RoundTrip | MyPantry/Main/CloudKit/CloudKitConvertible.swift:21-47 | Decoding an encoded pantry gives back id, name, owner, share reference and shared flag, but not the zone id. |
| PantryConverter.FromRecord | MyPantry/Main/CloudKit/CloudKitConvertible.swift:21-35 | A record decodes exactly when it is a "Pantry" record with a string name and owner and a flag `isShared`. The pantry then carries those values, the record name as id, the share reference string if any, and a nil zone id. |
| PantryConverter.FromRecordFails | MyPantry/Main/CloudKit/CloudKitConvertible.swift:22-26 | Decoding fails exactly when the type is not "Pantry", or `name` or `ownerId` is not a string, or `isShared` is neither a Bool nor the number 0 or 1. |
| PantryConverter.ShareReferenceIsOptional | MyPantry/Main/CloudKit/CloudKitConvertible.swift:32 | An absent or non-string share reference decodes to nil and does not make the decode fail. |
| PantryConverter.SetFieldsDecodes | MyPantry/Main/CloudKit/CloudKitConvertible.swift:51-57 | After `setFields`, a pantry record decodes to the pantry under the record's own name and holds its zone id. Keys outside the five are unchanged. |
| ItemConverter.Encoded | MyPantry/Main/CloudKit/CloudKitConvertible.swift:101-114 | `toRecord` writes every required field, with the scalar type that `fromRecord` expects. |
| ItemConverter.ToRecord | MyPantry/Main/CloudKit/CloudKitConvertible.swift:97-99 | The record has type "Item" and the item id as record name in the default zone. |
| ItemConverter.KeyInjective | MyPantry/Main/CloudKit/CloudKitConvertible.swift:101-114 | No two item fields share a coding key. |
| ItemConverter.ItemFieldsAt | MyPantry/Main/CloudKit/CloudKitConvertible.swift:101-114 | A field's key is present in the encoded record exactly when that field is non-nil, and holds its encoding. |
| ItemConverter.StringFieldsRoundTrip | MyPantry/Main/CloudKit/CloudKitConvertible.swift:101-113 | Name, pantry id, barcode and note read back from the encoded fields as written. |
| ItemConverter.CustomContentRoundTrip | MyPantry/Main/CloudKit/CloudKitConvertible.swift:106-108 | The three custom contents read back from the encoded fields as written. |
| ItemConverter.NumericFieldsRoundTrip | MyPantry/Main/CloudKit/CloudKitConvertible.swift:102-114 | Quantity, desired quantity and the status raw code read back as written. |
| ItemConverter.FlagAndDateFieldsRoundTrip | MyPantry/Main/CloudKit/CloudKitConvertible.swift:105-111 | The favourite flag and the three dates read back as written. |
| ItemConverter.RoundTrip | MyPantry/Main/CloudKit/CloudKitConvertible.swift:66-117 | Decoding an encoded item gives back the item, field for field, whichever optionals are set. |
| ItemConverter.RequiredPresentLookups | MyPantry/Main/CloudKit/CloudKitConvertible.swift:67-74 | Every required key holds its scalar type exactly when each of the seven typed lookups of the guard succeeds. |
| ItemConverter.FromRecord | MyPantry/Main/CloudKit/CloudKitConvertible.swift:66-95 | A decoded item comes only from an "Item" record holding every required field with its type. Its id is the record name, and its name, pantry id, quantity and status code are the record's. |
| ItemConverter.FromRecordFails | MyPantry/Main/CloudKit/CloudKitConvertible.swift:67-76 | Decoding fails exactly when the type is not "Item", a required field is absent or of the wrong type, or the status code names no status. A number 0 or 1 counts as a Bool, and a Bool as a number. |
| ItemConverter.RequiredFieldRejects | MyPantry/Main/CloudKit/CloudKitConvertible.swift:67-76 | Removing any one required field, or giving it a value of the wrong type, makes the decode fail. |
| ItemConverter.LookupsAgree | MyPantry/Main/CloudKit/CloudKitConvertible.swift:67-91 | (predicate) The fourteen typed lookups of the decoder agree on two field maps. |
| ItemConverter.DecodeDependsOnLookups | MyPantry/Main/CloudKit/CloudKitConvertible.swift:66-95 | Two records that differ only in fields on which the fourteen lookups agree decode alike. |
| ItemConverter.FavoriteLookupsAgree | MyPantry/Main/CloudKit/CloudKitConvertible.swift:70 | Storing a Bool `favorite` as the number 1 or 0 changes none of the decoder's lookups. |
| ItemConverter.FavoriteStoredAsNumber | MyPantry/Main/CloudKit/CloudKitConvertible.swift:70 | An encoded item whose favourite flag comes back from the store as the number 1 or 0 still decodes to the item. |
| ItemConverter.UnknownStatusRejects | MyPantry/Main/CloudKit/CloudKitConvertible.swift:73-76 | An integer status code outside 0..2 makes the decode fail; it is never defaulted. |
| ItemConverter.OptionalFieldTolerated | MyPantry/Main/CloudKit/CloudKitConvertible.swift:82-91 | Removing an optional field, or giving it a value of the wrong type, still decodes, with that field nil. |
| ItemConverter.TextLookupsAgree | MyPantry/Main/CloudKit/CloudKitConvertible.swift:68-91 | Two field maps that agree at every coding key give the same string lookups. |
| ItemConverter.ScalarLookupsAgree | MyPantry/Main/CloudKit/CloudKitConvertible.swift:69-90 | Two field maps that agree at every coding key give the same number, flag and date lookups. |
| ItemConverter.DecodeReadsOnlyFieldKeys | MyPantry/Main/CloudKit/CloudKitConvertible.swift:66-95 | Decoding reads only the coding keys and the record name: other keys and the zone do not affect it. |
| ItemConverter.DecodesUnderRecordName | MyPantry/Main/CloudKit/CloudKitConvertible.swift:78-93 | An item record holding an item's encoding at every coding key decodes to that item, with the record's name as id. |
| ItemConverter.DecodedNote | MyPantry/Main/CloudKit/CloudKitConvertible.swift:91 | The decoded note is whatever string the `note` key holds, or nil. |
| PantryModel.NewPantry | Models/Sources/Models/Pantry.swift:24-36 | A new pantry gets a fresh record name in zone "PantryZone" and no share reference; name, owner and shared flag are as given. |
| PantryModel.ToRecord | Models/Sources/Models/Pantry.swift:38-45 | The record has type "Pantry" and exactly the pantry's own record id. |
| PantryModel.ToRecordKeys | Models/Sources/Models/Pantry.swift:40-43 | The record holds `name`, `ownerId` and `isShared`, and `shareReference` only when it is set. |
| PantryModel.RoundTrip | Models/Sources/Models/Pantry.swift:38-61 | Decoding an encoded pantry gives back the pantry, id and share reference included. |
| PantryModel.FromRecord | Models/Sources/Models/Pantry.swift:47-61 | A record decodes exactly when it is a "Pantry" record with a string name and owner and a flag `isShared`. The pantry then carries those values, the record id and the share reference if any. |
| PantryModel.FromRecordFails | Models/Sources/Models/Pantry.swift:47-52 | Decoding fails exactly when the type is not "Pantry", `name` or `ownerId` is not a string, or `isShared` is neither a Bool nor the number 0 or 1. |
| PantryModel.ShareReferenceIsOptional | Models/Sources/Models/Pantry.swift:58 | An absent or non-reference share reference decodes to nil without failing. |
| LegacyPantry.FromRecord | Models/Sources/Models/File.swift:27-42 | Decoding succeeds exactly when `name`, `accessCode` and `ownerId` are strings. It then copies them and sets the id to the record id. |
| LegacyPantry.RecordTypeIgnored | Models/Sources/Models/File.swift:28-34 | The record type plays no part in decoding. |
| LegacyPantry.ToRecord | MyPantry/Managers/PantryService.swift:49 | The pantry's record is a fresh "Pantry" record in the default zone with exactly the three string keys. |
| LegacyPantry.RoundTrip | MyPantry/Managers/PantryService.swift:49-51 | Decoding the pantry's record gives back the pantry, with the fresh record's id. |
| UserModel.FromRecord | Models/Sources/Models/User.swift:25-38 | Decoding succeeds exactly when `displayName` and `pantryId` are strings; the id is the record id. |
| UserModel.ToRecord | Models/Sources/Models/User.swift:41-47 | `record` is a fresh "User" record in the default zone with exactly the two keys. |
| UserModel.RoundTrip | Models/Sources/Models/User.swift:25-47 | Decoding a user's record gives back its display name and pantry id, with the fresh record's id. |
| UserModel.IdNotRoundTripped | Models/Sources/Models/User.swift:42-43 | A user whose id differs from the fresh record's does not come back equal: the id is not round-tripped. |
| UserModel.RecordTypeIgnored | Models/Sources/Models/User.swift:25-31 | The record type plays no part in decoding. |
| SetCKRecords.WrittenIfPresent | MyPantry/Helper/SetCKRecords.swift:22-30 | A non-nil value is stored under the key; nil leaves the fields as they were; other keys are untouched. |
| SetCKRecords.NilDoesNotClear | MyPantry/Helper/SetCKRecords.swift:26-28 | Unlike a subscript write of nil, the helper keeps an existing value for the key. |
| SetCKRecords.AgreesWithSubscriptOnValue | MyPantry/Helper/SetCKRecords.swift:23-25 | For a non-nil value the helper does what the subscript write does. |
| SetCKRecords.SetRecordValue | MyPantry/Helper/SetCKRecords.swift:22-30 | The helper always succeeds (`incompatibleType` is never produced) and changes the record's fields as `WrittenIfPresent` says. |
| EditProperty.FieldNamed | MyPantry/Main/ViewItem/Views/EditPropertyView.swift:30-46 | A property name selects the item field whose coding key it is, if any. |
| EditProperty.FieldNamedKey | MyPantry/Main/ViewItem/Views/EditPropertyView.swift:32-45 | Every field is selected by its own key. |
| EditProperty.FieldNamedNone | MyPantry/Main/ViewItem/Views/EditPropertyView.swift:30-46 | A name selects no field exactly when it is no field's key. |
| EditProperty.NilIfEmpty | MyPantry/Main/ViewItem/Views/EditPropertyView.swift:35 | Empty text becomes nil; other text is kept. |
| EditProperty.EditPropertyView.constructor | MyPantry/Main/ViewItem/Views/EditPropertyView.swift:20-27 | The view starts with empty text, a false flag and the current date in its buffers. |
| EditProperty.EditPropertyView.SetupInitialValue | MyPantry/Main/ViewItem/Views/EditPropertyView.swift:105-107 | Only the buffer the property's getter writes is loaded from the item. |
| EditProperty.EditPropertyView.UpdateItem | MyPantry/Main/ViewItem/Views/EditPropertyView.swift:29-47 | The item is rebuilt from the buffers for the named property; the buffers are kept. |
| EditProperty.Edited | MyPantry/Main/ViewItem/Views/EditPropertyView.swift:31-45 | Editing one field never changes the item's id or pantry id, and leaves `dateLastUpdated` alone unless that is the field edited. |
| EditProperty.Updated | MyPantry/Main/ViewItem/Views/EditPropertyView.swift:29-47 | `updateItem` never changes the item's id or pantry id, whatever the property, and leaves the item as it was for an unknown name. |
| EditProperty.Load | MyPantry/Main/ViewItem/Views/EditPropertyView.swift:49-65 | Each getter writes only the buffer its editor uses: the flag for favourite, the date for the three dates, the text otherwise, nothing for the pantry id. A quantity or status code loaded as text reads back as that number. |
| EditProperty.Setup | MyPantry/Main/ViewItem/Views/EditPropertyView.swift:105-107 | `setupInitialValue` changes the flag only for "favorite" and the date only for the three date properties, and changes nothing for an unknown name or "pantryId". |
| EditProperty.EncodedDetermines | MyPantry/Main/ViewItem/Views/EditPropertyView.swift:30-46 | Two items with the same id and the same encoding at every field are equal. |
| EditProperty.EditedOnlyField | MyPantry/Main/ViewItem/Views/EditPropertyView.swift:30-46 | Editing one field leaves every other field's encoding as it was. |
| EditProperty.OnlyNamedFieldChanges | MyPantry/Main/ViewItem/Views/EditPropertyView.swift:30-46 | Only the field the property names can change. |
| EditProperty.UnknownPropertyKeepsItem | MyPantry/Main/ViewItem/Views/EditPropertyView.swift:30-46 | An unrecognised property name leaves the item equal to the original. |
| EditProperty.UnparseableQuantity | MyPantry/Main/ViewItem/Views/EditPropertyView.swift:33-34 | On text that is not a number, "quantity" keeps the old quantity and "quantityDesired" becomes nil. |
| EditProperty.ParsedQuantity | MyPantry/Main/ViewItem/Views/EditPropertyView.swift:33-34 | On text that is a number, either quantity property takes that number. |
| EditProperty.OptionalTextEdited | MyPantry/Main/ViewItem/Views/EditPropertyView.swift:35-43 | For barcode, the custom contents and note, empty text clears the field and other text is stored. |
| EditProperty.StatusEdited | MyPantry/Main/ViewItem/Views/EditPropertyView.swift:45 | A status edit takes the status the text's code names; unparseable text or an unknown code keeps the status. |
| EditProperty.DateEdited | MyPantry/Main/ViewItem/Views/EditPropertyView.swift:40-42 | Editing a date property stores the picked date, so the expiry date becomes non-nil. |
| EditProperty.LastUpdatedNotStamped | MyPantry/Main/ViewItem/Views/EditPropertyView.swift:41 | Editing any other property leaves `dateLastUpdated` as it was. |
| EditProperty.LoadThenSaveKeeps | MyPantry/Main/ViewItem/Views/EditPropertyView.swift:49-65 | Loading a property and saving it unedited gives back the item, for name, both quantities, favourite, status and the two required dates. |
| EditProperty.LoadThenSaveOptionalText | MyPantry/Main/ViewItem/Views/EditPropertyView.swift:54-62 | For the optional text fields the unedited round trip is the identity, except that an empty string becomes nil. |
| EditProperty.LoadThenSaveExpireDate | MyPantry/Main/ViewItem/Views/EditPropertyView.swift:61 | The unedited round trip of the expiry date keeps a set date and sets a nil one to the current date. |
| CloudDatabase.ReadRecords | MyPantry/Managers/ItemManager.swift:78 | The records read from match results are exactly those of the successful entries. |
| CloudDatabase.ReadRecordsMembers | MyPantry/Managers/ItemManager.swift:78 | A record is read exactly when some entry holds it as a success. |
| CloudDatabase.MatchingIds | MyPantry/Managers/ItemManager.swift:74-77 | The ids a query matches are exactly the stored ids whose records match. |
| CloudDatabase.AnswerPage | MyPantry/Managers/ItemManager.swift:77 | (predicate) A page of `matchResults` holds distinct entries, each for a stored matching record, holding the record or a read error. |
| CloudDatabase.CoversMatches | MyPantry/Managers/ItemManager.swift:77 | (predicate) Every matching stored record has an entry in the page. |
| CloudDatabase.PageShorterThanIds | MyPantry/Managers/ItemManager.swift:77 | A page of distinct matches that leaves out one matching id is shorter than the set of matching ids. |
| CloudDatabase.AnsweredRecords | MyPantry/Managers/ItemManager.swift:77-78 | Every record read from a page is a readable stored record that matches the query; when the page covers the query, every such record is read. |
| CloudDatabase.Decoded | MyPantry/Managers/ItemManager.swift:78-80 | Decoding the records read yields exactly the decodings of the successfully read records, and no more values than there were entries. |
| CloudDatabase.Database.Save | MyPantry/Managers/ItemManager.swift:92 | A save stores the record under its id, or fails and changes nothing, and keeps records keyed by their own id. |
| CloudDatabase.Database.RecordFor | MyPantry/Managers/ItemManager.swift:106 | Fetching by id gives a fresh record object holding the stored record, or fails with unknown item. |
| CloudDatabase.Database.DeleteRecord | MyPantry/Managers/ItemManager.swift:126 | Deleting removes exactly the record with that id, or fails with unknown item and changes nothing. |
| CloudDatabase.Database.RecordsMatching | MyPantry/Managers/ItemManager.swift:77 | A query fails, or answers a page of at most `pageSize` distinct entries for matching records, each holding the record or a read error. A cursor comes back only with a full page; without one the page covers every match, which is always so when the matches fit in one page. |
| ItemManager.FetchedItems | MyPantry/Managers/ItemManager.swift:73-81 | Every item decoded from a page is the decoding of a readable stored item record of the pantry, so it has that pantry id. When the page covers the query, every such record's item is among them. |
| ItemManager.NewItem | MyPantry/Managers/ItemManager.swift:84-90 | The new item has the fresh id and the given pantry id; every other field is copied from the input. |
| ItemManager.Merged | MyPantry/Managers/ItemManager.swift:106-110 | The merged record keeps the stored type and id, and its keys are the stored keys plus the encoded ones. |
| ItemManager.MergedAt | MyPantry/Managers/ItemManager.swift:108-110 | At each coding key the merge holds the item's value when the item has one, and otherwise the stored value. |
| ItemManager.MergedRequiredPresent | MyPantry/Managers/ItemManager.swift:106-110 | The merged record holds every required key with its type. |
| ItemManager.MergedDecodes | MyPantry/Managers/ItemManager.swift:113-116 | The merged record decodes exactly when the stored record is of type "Item". |
| ItemManager.MergedFullItem | MyPantry/Managers/ItemManager.swift:106-118 | An item with every optional set comes back from an update as itself, under the stored record's name. |
| ItemManager.MergeKeepsClearedNote | MyPantry/Managers/ItemManager.swift:106-110 | An update with a nil note on a record that has a note returns the stale stored note, not nil. |
| ItemManager.ClearingMerged | MyPantry/Managers/ItemManager.swift:106-110 | The corrected merge keeps the stored type and id and every stored key that is not an item coding key. |
| ItemManager.ClearingMergedDecodes | MyPantry/Managers/ItemManager.swift:106-118 | With the corrected merge, an update of an item record returns exactly the item, under the stored record's name. |
| ItemManager.WithoutId | MyPantry/Managers/ItemManager.swift:129 | `removeAll` keeps exactly the items whose record id is not the deleted one. |
| ItemManager.CopyInto | MyPantry/Managers/ItemManager.swift:108-110 | The copy loop leaves the record's fields as the old fields overridden by the encoding. |
| ItemManager.ItemManager.FetchItems | MyPantry/Managers/ItemManager.swift:73-81 | A fetch fails when the query fails. Otherwise it returns at most `pageSize` items, each decoded from a readable stored item record of the pantry and carrying that pantry id. When the pantry's records fit in one page, every such item is returned; the cursor for more is dropped. |
| ItemManager.ItemManager.AddItem | MyPantry/Managers/ItemManager.swift:83-98 | An add stores exactly one new record, the new item's encoding under the fresh id, and returns the new item; a rejected save changes nothing. |
| ItemManager.ItemManager.UpdateItem | MyPantry/Managers/ItemManager.swift:100-119 | A nil id fails with `itemHasNoId` before touching the store. Otherwise the merged record replaces the stored one, and the call returns its decoding or `failedToUpdateItem`. |
| ItemManager.ItemManager.DeleteItem | MyPantry/Managers/ItemManager.swift:121-130 | A nil id fails with `itemHasNoId` and changes nothing. Otherwise exactly that record is removed, and a failing re-fetch still makes the call throw. |
| PantryService.FetchedPantries | MyPantry/Managers/PantryService.swift:37-44 | Every pantry decoded from a page is the decoding of a readable stored pantry record; when the page covers the query, every such record's pantry is among them. |
| PantryService.Renamed | MyPantry/Managers/PantryService.swift:63-65 | The update rewrites only `name` and `ownerId`; every other key, the type and the id keep their stored values. |
| PantryService.RenamedDecodes | MyPantry/Managers/PantryService.swift:63-71 | The rewritten record decodes exactly when the stored record holds a string access code; it decodes to the new name and owner. |
| PantryService.PantryService.FetchPantry | MyPantry/Managers/PantryService.swift:37-44 | A fetch fails when the query fails. Otherwise it returns at most `pageSize` pantries, each decoded from a readable stored pantry record. When the pantry records fit in one page, all of them are returned; the cursor for more is dropped. |
| PantryService.PantryService.AddPantry | MyPantry/Managers/PantryService.swift:46-56 | An add saves the pantry with the given owner under a fresh record and returns it with that owner, whatever its own owner was. |
| PantryService.PantryService.UpdatePantry | MyPantry/Managers/PantryService.swift:58-73 | A nil id fails with `invalidPantryId` and changes nothing. Otherwise the rewritten record replaces the stored one, and the call returns its decoding or `failedToUpdatePantry`. |
| PantryService.PantryService.DeletePantry | MyPantry/Managers/PantryService.swift:75-81 | A nil id fails with `invalidPantryId` and changes nothing; otherwise exactly that record is removed. |
| PantryListViewModel.FirstIndexOf | MyPantry/Main/Pantry/PantryListViewModel.swift:64 | `firstIndex(where:)` finds the first pantry with the id, or nil exactly when none has it. |
| PantryListViewModel.RemoveAt | MyPantry/Main/Pantry/PantryListViewModel.swift:65 | `remove(at:)` drops exactly the element at the index and keeps the others in order. |
| PantryListViewModel.PantryListViewModel.LoadPantries | MyPantry/Main/Pantry/PantryListViewModel.swift:22-35 | A load clears the error and takes both fetched lists verbatim, or records the error and keeps the lists; loading is false afterwards. |
| PantryListViewModel.PantryListViewModel.CreatePantry | MyPantry/Main/Pantry/PantryListViewModel.swift:37-54 | The input pantry is saved with its own shared flag. The saved pantry is appended to the shared list if the input is shared, otherwise to the private one. A failure keeps both lists, records the error and rethrows it. |
| PantryListViewModel.PantryListViewModel.SharePantry | MyPantry/Main/Pantry/PantryListViewModel.swift:56-73 | The input pantry is shared through the service. The first private pantry with the id moves, as the shared copy, to the end of the shared list; with no match the lists are unchanged. The total count is kept and the sharing info is returned. |
| PantryViewModel.SplitPartitions | MyPantry/Main/Pantry/PantryViewModel.swift:36-39 | The created and invited lists partition the fetched pantries: the lengths add up, and so do the element counts. |
| PantryViewModel.SplitKeepsOrder | MyPantry/Main/Pantry/PantryViewModel.swift:38-39 | The created list holds only shared pantries, the invited list only private ones, each in fetched order. |
| PantryViewModel.SplitFollowsFetchOrder | MyPantry/Main/Pantry/PantryViewModel.swift:36-39 | Each split list holds the matches from the private list first, then those from the shared list. |
| PantryViewModel.PantryViewModel.LoadPantries | MyPantry/Main/Pantry/PantryViewModel.swift:29-46 | A load splits the fetched pantries by `isShared`, or records the error and keeps the lists. A previous error is never cleared; loading is false afterwards. |
| PantryViewModel.PantryViewModel.InitiateSharing | MyPantry/Main/Pantry/PantryViewModel.swift:48-58 | The input pantry is shared through the service. Success stores the sharing info and presents the share sheet. Failure records the error and leaves both as they were. |
| SelectPantryViewModel.SelectPantryViewModel.LoadPantries | MyPantry/Main/Pantry/SelectPantryViewModel.swift:22-38 | Afterwards there is either no error and the fetched lists, or an error and the old lists; loading is false either way. |
| CreatePantryViewModel.Created | MyPantry/Main/Pantry/CreatePantryViewModel.swift:33-39 | A shared pantry is created through the sharing call and its pantry returned; a private one through the private call. |
| CreatePantryViewModel.CreatePantryViewModel.Request | MyPantry/Main/Pantry/CreatePantryViewModel.swift:34-37 | The pantry sent carries the form's name, an empty owner id and the form's shared flag. |
| CreatePantryViewModel.CreatePantryViewModel.CreatePantry | MyPantry/Main/Pantry/CreatePantryViewModel.swift:22-44 | The pantry sent is routed by the shared flag and the created pantry returned. The error is cleared, or set on failure, and creating is false afterwards. |
| AddItemViewModel.AddItemViewModel.constructor | MyPantry/AddItem/AddItemViewModel.swift:15-27 | The form starts with its declared defaults and the five default suggestions. |
| AddItemViewModel.AddItemViewModel.FilteredResults | MyPantry/AddItem/AddItemViewModel.swift:29-35 | An empty search suggests nothing. Otherwise the suggestions are exactly the matching results, in order, never more than there are results. |
| AddItemViewModel.AddItemViewModel.ClearQuantity | MyPantry/AddItem/AddItemViewModel.swift:37-39 | The quantity becomes 0 and nothing else in the form changes. |
| AddItemViewModel.AddItemViewModel.SaveItem | MyPantry/AddItem/AddItemViewModel.swift:41-44 | Saving changes nothing in the form. |

## Left out

- Network I/O, `async`/`await`, the main actor, logging and `print`. Every
  CloudKit or service call is a parameter: its result or the error
  description it throws. The database is an in-memory map whose failures
  (rejected save, failed query, unreadable record) are parameters.
- `CKRecord.ID(zoneID:)` and `UUID()` draw fresh names, modelled as a
  `freshName` parameter. `Date()` and `.now` are a `now` parameter. Dates are
  integers, since only their identity matters here.
- `localizedCaseInsensitiveContains` is a `contains` parameter of
  `FilteredResults`, since Unicode case folding and locale rules are outside
  the model.
- Swift `Int` is 64-bit. `IntText.ParseInt` does not model the overflow that
  makes `Int(text)` nil for numbers beyond 64 bits, and quantities are
  unbounded integers.
- The CodingKeys raw values of the `Item` and `Pantry` revisions that
  `CloudKitConvertible.swift` uses are not in the source files modelled. They
  are taken to be the Swift default, the case name, with "status" for the
  status code.
- `Item.ItemStatus` is modelled by the three-case `Status` of
  Models/Sources/Models/Item.swift.
- ItemConverter.UnknownStatusRejects: MyPantry/ListItems/ListItemsView.swift:84
  and MyPantry/ListItems/Views/ItemRow.swift:38 switch over an `.inactive`
  status, so the app's `Item.ItemStatus` has a fourth case whose raw code is
  not in the source files modelled. Against that enum, the code 3 that the
  lemma rejects may name `.inactive` and decode.
- PantryConverter.FromRecord: the `Pantry` initializer it calls is not in the
  source files modelled. The model takes its `zoneId` argument to default to
  nil, so a decoded pantry has no zone id.
- `records(matching:)` returns one batch of results and a cursor for the
  rest. The batch size is left to the server, so it is a `pageSize`
  parameter, and the cursor is modelled only as whether one came back. Both
  fetches drop the cursor, as the source does, so a store with more matches
  than one page holds is fetched only in part.
- NSNumber bridging is modelled only for `Int` and `Bool`: a stored `Bool`
  reads as the number 1 or 0, and a stored number reads as a `Bool` when it
  is 0 or 1. Floating-point numbers are not stored by the app and are left
  out.
- The `Item` revision with an optional `CKRecord.ID` id and member codecs,
  used by `ItemManager`, is not part of this model. `ItemManager` uses
  `ItemConverter`'s item and codecs, with the optional id as a separate
  argument.
- The `record` getter of the access-code `Pantry` that `PantryService` calls
  is not part of this model. `LegacyPantry.ToRecord` follows `User.record`:
  a fresh record of type "Pantry" with the three string keys.
- The type `SharingInfo` is not part of this model beyond its `pantry`.
- `PantryViewModel.selectedPantry` and `showCreatePantrySheet` are kept as
  fields but no modelled operation changes them. The `range` constant of
  `AddItemViewModel` is not used by any operation and is left out.
- SwiftUI view bodies, `dismiss()`, the mock view models and the
  commented-out code in `PantryViewModel.swift` and
  `CreatePantryViewModel.swift`.
- ItemManager.ItemManager.DeleteItem: the trailing re-fetch and `removeAll`
  only change a local list. The model computes that list and drops it, so
  the only visible effect of the re-fetch is a failure.

## Findings

| source | as written | input that shows it | evidently intended | confidence | as-written member | corrected member |
|---|---|---|---|---|---|---|
| MyPantry/Managers/ItemManager.swift:106-110 | `updateItem` copies onto the stored record only the keys present in `item.toRecord()`. A subscript write of nil never happens, so clearing an optional leaves the old value stored. | A stored item record whose `note` is "milk", updated with an item whose `note` is nil: the saved record still has "milk", and `updateItem` returns an item with note "milk". | Clearing an optional in the app clears it in the store: the update returns exactly the item that was passed in. | not executed | ItemManager.MergeKeepsClearedNote | ItemManager.ClearingMergedDecodes |

`ItemManager.ItemManager.UpdateItem` keeps the behaviour as written, through
`ItemManager.Merged`. The corrected merge `ItemManager.ClearingMerged` writes
every item coding key, removing the ones that are nil. The lemma
`ItemManager.ClearingMergedDecodes` proves that an update through it returns
the item unchanged.
