/** What `createSharedPantry` hands back. Only its `pantry` is read by the
    view models; the rest of the type is not part of this model. */
module Sharing {
  import opened PantryModel

  datatype SharingInfo = SharingInfo(pantry: Pantry)
}

/** MyPantry/Main/Pantry/PantryListViewModel.swift: the private and shared
    pantry lists of the pantry screen. A service call is a parameter: the
    outcome of a load, or a function from a call's arguments to its outcome.
    An outcome is the value returned or the `localizedDescription` of the
    error thrown. */
module PantryListViewModel {
  import opened Wrappers
  import opened Records
  import opened PantryModel
  import opened Sharing

  /** `firstIndex(where: { $0.id == id })` */
  function FirstIndexOf(ps: seq<Pantry>, id: RecordId): (r: Option<nat>)
    ensures r.Some? ==> r.value < |ps| && ps[r.value].id == id
    ensures r.Some? ==> forall j :: 0 <= j < r.value ==> ps[j].id != id
    ensures r.None? <==> forall j :: 0 <= j < |ps| ==> ps[j].id != id
  {
    if ps == [] then None
    else if ps[0].id == id then Some(0)
    else
      match FirstIndexOf(ps[1..], id)
      case Some(k) => Some(k + 1)
      case None => None
  }

  /** `remove(at: i)` */
  function RemoveAt<T>(s: seq<T>, i: nat): (r: seq<T>)
    requires i < |s|
    ensures |r| == |s| - 1
    ensures forall j :: 0 <= j < i ==> r[j] == s[j]
    ensures forall j :: i <= j < |r| ==> r[j] == s[j + 1]
    ensures multiset(r) + multiset{s[i]} == multiset(s)
  {
    assert s == s[..i] + [s[i]] + s[i + 1..];
    s[..i] + s[i + 1..]
  }

  class PantryListViewModel {
    var privatePantries: seq<Pantry>
    var sharedPantries: seq<Pantry>
    var isLoading: bool
    var error: Option<string>

    constructor ()
      ensures privatePantries == [] && sharedPantries == []
      ensures !isLoading && error == None
    {
      privatePantries := [];
      sharedPantries := [];
      isLoading := false;
      error := None;
    }

    /** `loadPantries`: replaces both lists by what the service fetched, or
        records the error and keeps them. */
    method LoadPantries(fetched: Result<(seq<Pantry>, seq<Pantry>), string>)
      modifies this
      ensures !isLoading
      ensures fetched.Success? ==>
        error == None
        && privatePantries == fetched.value.0 && sharedPantries == fetched.value.1
      ensures fetched.Failure? ==>
        error == Some(fetched.error)
        && privatePantries == old(privatePantries) && sharedPantries == old(sharedPantries)
    {
      isLoading := true;
      error := None;
      match fetched {
        case Success(lists) =>
          privatePantries := lists.0;
          sharedPantries := lists.1;
        case Failure(description) =>
          error := Some(description);
      }
      isLoading := false;
    }

    /** `createPantry`: the pantry is saved with its own `isShared`, and the
        saved pantry joins the list that flag picks; a failure is recorded and
        passed on. `savePantry` is the service call. */
    method CreatePantry(pantry: Pantry, savePantry: (Pantry, bool) -> Result<Pantry, string>) returns (r: Result<(), string>)
      modifies this
      ensures var saved := savePantry(pantry, pantry.isShared);
        && !isLoading
        && (r.Success? <==> saved.Success?)
        && (saved.Success? && pantry.isShared ==>
              && error == None
              && sharedPantries == old(sharedPantries) + [saved.value]
              && privatePantries == old(privatePantries))
        && (saved.Success? && !pantry.isShared ==>
              && error == None
              && privatePantries == old(privatePantries) + [saved.value]
              && sharedPantries == old(sharedPantries))
        && (saved.Failure? ==>
              && r == Failure(saved.error) && error == Some(saved.error)
              && privatePantries == old(privatePantries) && sharedPantries == old(sharedPantries))
    {
      isLoading := true;
      error := None;
      var saved := savePantry(pantry, pantry.isShared);
      match saved {
        case Success(newPantry) =>
          if pantry.isShared {
            sharedPantries := sharedPantries + [newPantry];
          } else {
            privatePantries := privatePantries + [newPantry];
          }
          r := Success(());
        case Failure(description) =>
          error := Some(description);
          r := Failure(description);
      }
      isLoading := false;
    }

    /** `sharePantry`: the pantry is shared through the service, and the first
        private pantry with the same id moves, as the service's shared copy, to
        the end of the shared list. `createSharedPantry` is the service call. */
    method SharePantry(pantry: Pantry, createSharedPantry: Pantry -> Result<SharingInfo, string>)
      returns (r: Result<SharingInfo, string>)
      modifies this
      ensures var shared := createSharedPantry(pantry);
        && !isLoading
        && r == shared
        && (shared.Success? ==> error == None)
        && (shared.Success? && FirstIndexOf(old(privatePantries), pantry.id).Some? ==>
              && privatePantries == RemoveAt(old(privatePantries), FirstIndexOf(old(privatePantries), pantry.id).value)
              && sharedPantries == old(sharedPantries) + [shared.value.pantry])
        && (shared.Success? && FirstIndexOf(old(privatePantries), pantry.id).None? ==>
              privatePantries == old(privatePantries) && sharedPantries == old(sharedPantries))
        && (shared.Failure? ==>
              && error == Some(shared.error)
              && privatePantries == old(privatePantries) && sharedPantries == old(sharedPantries))
      ensures |privatePantries| + |sharedPantries| == old(|privatePantries| + |sharedPantries|)
    {
      isLoading := true;
      error := None;
      var shared := createSharedPantry(pantry);
      match shared {
        case Success(sharingInfo) =>
          var index := FirstIndexOf(privatePantries, pantry.id);
          if index.Some? {
            privatePantries := RemoveAt(privatePantries, index.value);
            sharedPantries := sharedPantries + [sharingInfo.pantry];
          }
        case Failure(description) =>
          error := Some(description);
      }
      r := shared;
      isLoading := false;
    }
  }
}

/** MyPantry/Main/Pantry/PantryViewModel.swift: the fetched pantries split
    into the shared ones (`createdPantries`) and the private ones
    (`invitedPantries`), and the sharing sheet state. */
module PantryViewModel {
  import opened Wrappers
  import opened PantryModel
  import opened Sharing
  import opened Sequences

  function IsSharedPantry(p: Pantry): bool { p.isShared }

  function IsPrivatePantry(p: Pantry): bool { !p.isShared }

  /** The two filters split the combined list: every fetched pantry lands in
      exactly one of them, as often as it was fetched. */
  lemma SplitPartitions(all: seq<Pantry>)
    ensures |Filter(all, IsSharedPantry)| + |Filter(all, IsPrivatePantry)| == |all|
    ensures multiset(Filter(all, IsSharedPantry)) + multiset(Filter(all, IsPrivatePantry)) == multiset(all)
  {
    FilterPartition(all, IsSharedPantry, IsPrivatePantry);
  }

  /** The shared list holds only shared pantries, the other only private ones,
      and each keeps the fetched order. */
  lemma SplitKeepsOrder(all: seq<Pantry>)
    ensures forall p :: p in Filter(all, IsSharedPantry) ==> p in all && p.isShared
    ensures forall p :: p in Filter(all, IsPrivatePantry) ==> p in all && !p.isShared
    ensures IsSubsequence(Filter(all, IsSharedPantry), all)
    ensures IsSubsequence(Filter(all, IsPrivatePantry), all)
  {
    FilterIsSubsequence(all, IsSharedPantry);
    FilterIsSubsequence(all, IsPrivatePantry);
  }

  /** Splitting the concatenation splits each fetched list in turn: the
      shared pantries among the private list come first, then those of the
      shared list. */
  lemma SplitFollowsFetchOrder(privatePantries: seq<Pantry>, sharedPantries: seq<Pantry>)
    ensures Filter(privatePantries + sharedPantries, IsSharedPantry)
         == Filter(privatePantries, IsSharedPantry) + Filter(sharedPantries, IsSharedPantry)
    ensures Filter(privatePantries + sharedPantries, IsPrivatePantry)
         == Filter(privatePantries, IsPrivatePantry) + Filter(sharedPantries, IsPrivatePantry)
  {
    FilterAppend(privatePantries, sharedPantries, IsSharedPantry);
    FilterAppend(privatePantries, sharedPantries, IsPrivatePantry);
  }

  class PantryViewModel {
    var createdPantries: seq<Pantry>
    var invitedPantries: seq<Pantry>
    var isLoading: bool
    var error: Option<string>
    var selectedPantry: Option<Pantry>
    var isSharePresented: bool
    var showCreatePantrySheet: bool
    var sharingInfo: Option<SharingInfo>

    constructor ()
      ensures createdPantries == [] && invitedPantries == []
      ensures !isLoading && error == None && selectedPantry == None
      ensures !isSharePresented && !showCreatePantrySheet && sharingInfo == None
    {
      createdPantries := [];
      invitedPantries := [];
      isLoading := false;
      error := None;
      selectedPantry := None;
      isSharePresented := false;
      showCreatePantrySheet := false;
      sharingInfo := None;
    }

    /** `loadPantries`: splits the fetched pantries by `isShared`. A previous
        error is never cleared. */
    method LoadPantries(fetched: Result<(seq<Pantry>, seq<Pantry>), string>)
      modifies this
      ensures !isLoading
      ensures fetched.Success? ==>
        var all := fetched.value.0 + fetched.value.1;
        createdPantries == Filter(all, IsSharedPantry)
        && invitedPantries == Filter(all, IsPrivatePantry)
        && |createdPantries| + |invitedPantries| == |all|
        && error == old(error)
      ensures fetched.Failure? ==>
        error == Some(fetched.error)
        && createdPantries == old(createdPantries) && invitedPantries == old(invitedPantries)
      ensures sharingInfo == old(sharingInfo) && isSharePresented == old(isSharePresented)
      ensures selectedPantry == old(selectedPantry) && showCreatePantrySheet == old(showCreatePantrySheet)
    {
      isLoading := true;
      match fetched {
        case Success(lists) =>
          var pantries := lists.0 + lists.1;
          createdPantries := Filter(pantries, IsSharedPantry);
          invitedPantries := Filter(pantries, IsPrivatePantry);
          SplitPartitions(pantries);
        case Failure(description) =>
          error := Some(description);
      }
      isLoading := false;
    }

    /** `initiateSharing(for:)`: shares the pantry through the service and
        presents the share sheet for its sharing info, or records the error and
        presents nothing. `createSharedPantry` is the service call. */
    method InitiateSharing(pantry: Pantry, createSharedPantry: Pantry -> Result<SharingInfo, string>)
      modifies this
      ensures var shared := createSharedPantry(pantry);
        && (shared.Success? ==>
              sharingInfo == Some(shared.value) && isSharePresented && error == old(error))
        && (shared.Failure? ==>
              && error == Some(shared.error)
              && sharingInfo == old(sharingInfo) && isSharePresented == old(isSharePresented))
      ensures createdPantries == old(createdPantries) && invitedPantries == old(invitedPantries)
      ensures isLoading == old(isLoading) && selectedPantry == old(selectedPantry)
      ensures showCreatePantrySheet == old(showCreatePantrySheet)
    {
      var shared := createSharedPantry(pantry);
      match shared {
        case Success(info) =>
          sharingInfo := Some(info);
          isSharePresented := true;
        case Failure(description) =>
          error := Some(description);
      }
    }
  }
}

/** MyPantry/Main/Pantry/SelectPantryViewModel.swift: the pantry picker's
    lists and loading state. */
module SelectPantryViewModel {
  import opened Wrappers
  import opened PantryModel

  class SelectPantryViewModel {
    var privatePantries: seq<Pantry>
    var sharedPantries: seq<Pantry>
    var isLoading: bool
    var error: Option<string>

    constructor ()
      ensures privatePantries == [] && sharedPantries == []
      ensures !isLoading && error == None
    {
      privatePantries := [];
      sharedPantries := [];
      isLoading := false;
      error := None;
    }

    /** `loadPantries`: afterwards either no error and the fetched lists, or
        an error and the old lists; never loading. */
    method LoadPantries(fetched: Result<(seq<Pantry>, seq<Pantry>), string>)
      modifies this
      ensures !isLoading
      ensures error == None <==> fetched.Success?
      ensures error == None ==>
        privatePantries == fetched.value.0 && sharedPantries == fetched.value.1
      ensures error != None ==>
        error == Some(fetched.error)
        && privatePantries == old(privatePantries) && sharedPantries == old(sharedPantries)
    {
      isLoading := true;
      error := None;
      match fetched {
        case Success(lists) =>
          privatePantries := lists.0;
          sharedPantries := lists.1;
          isLoading := false;
        case Failure(description) =>
          error := Some(description);
          isLoading := false;
      }
    }
  }
}

/** MyPantry/Main/Pantry/CreatePantryViewModel.swift: the create-pantry form,
    which sends a new pantry to the shared or the private creation call. */
module CreatePantryViewModel {
  import opened Wrappers
  import opened PantryModel
  import opened Sharing

  /** The outcome the form reports: the created pantry, which for a shared
      pantry is the one inside the sharing info. */
  function Created(isShared: bool, sent: Pantry,
                   createShared: Pantry -> Result<SharingInfo, string>,
                   createPrivate: Pantry -> Result<Pantry, string>): (r: Result<Pantry, string>)
    ensures isShared && createShared(sent).Success? ==> r == Success(createShared(sent).value.pantry)
    ensures isShared && createShared(sent).Failure? ==> r == Failure(createShared(sent).error)
    ensures !isShared ==> r == createPrivate(sent)
  {
    if isShared then
      match createShared(sent)
      case Success(info) => Success(info.pantry)
      case Failure(e) => Failure(e)
    else createPrivate(sent)
  }

  class CreatePantryViewModel {
    var name: string
    var isShared: bool
    var isCreating: bool
    var error: Option<string>

    constructor ()
      ensures name == "" && !isShared && !isCreating && error == None
    {
      name := "";
      isShared := false;
      isCreating := false;
      error := None;
    }

    /** The pantry the form sends: its current name, an empty owner id, and
        `isShared` as the toggle says. */
    function Request(freshName: string): (p: Pantry)
      reads this
      ensures p.name == name && p.ownerId == "" && p.isShared == isShared
      ensures p.shareReference == None
    {
      NewPantry(freshName, name, "", isShared)
    }

    /** `createPantry`: `freshName` stands for the UUID the new pantry draws
        for its record name. */
    method CreatePantry(freshName: string,
                        createShared: Pantry -> Result<SharingInfo, string>,
                        createPrivate: Pantry -> Result<Pantry, string>) returns (r: Result<Pantry, string>)
      modifies this
      ensures r == Created(old(isShared), old(Request(freshName)), createShared, createPrivate)
      ensures !isCreating
      ensures error == (if r.Failure? then Some(r.error) else None)
      ensures name == old(name) && isShared == old(isShared)
    {
      isCreating := true;
      error := None;
      var newPantry: Pantry;
      if isShared {
        var sharingInfo := createShared(NewPantry(freshName, name, "", true));
        if sharingInfo.Failure? {
          error := Some(sharingInfo.error);
          isCreating := false;
          return Failure(sharingInfo.error);
        }
        newPantry := sharingInfo.value.pantry;
      } else {
        var created := createPrivate(NewPantry(freshName, name, "", false));
        if created.Failure? {
          error := Some(created.error);
          isCreating := false;
          return Failure(created.error);
        }
        newPantry := created.value;
      }
      isCreating := false;
      return Success(newPantry);
    }
  }
}

/** MyPantry/AddItem/AddItemViewModel.swift: the add-item form and its search
    suggestions. */
module AddItemViewModel {
  import opened Sequences

  /** Every stored property of the form, for saying what an action leaves
      alone. Dates are opaque time stamps. */
  datatype Form = Form(
    name: string,
    quantity: int,
    barcode: string,
    isFavorite: bool,
    expirationDate: int,
    notes: string,
    hasExpirationDate: bool,
    searchText: string,
    searchResults: seq<string>,
    showingPicker: bool,
    selectedQuantity: int,
    isPickerVisible: bool)

  /** The suggestions the search starts with. */
  const DefaultSearchResults: seq<string> := ["Apple", "Banana", "Orange", "Grapes", "Mango"]

  class AddItemViewModel {
    var name: string
    var quantity: int
    var barcode: string
    var isFavorite: bool
    var expirationDate: int
    var notes: string
    var hasExpirationDate: bool
    var searchText: string
    var searchResults: seq<string>
    var showingPicker: bool
    var selectedQuantity: int
    var isPickerVisible: bool

    /** The defaults, with `now` standing for `Date.now`. */
    constructor (now: int)
      ensures State() == Form("", 0, "", false, now, "", false, "", DefaultSearchResults, false, 1, false)
    {
      name := "";
      quantity := 0;
      barcode := "";
      isFavorite := false;
      expirationDate := now;
      notes := "";
      hasExpirationDate := false;
      searchText := "";
      searchResults := DefaultSearchResults;
      showingPicker := false;
      selectedQuantity := 1;
      isPickerVisible := false;
    }

    function State(): Form
      reads this
    {
      Form(name, quantity, barcode, isFavorite, expirationDate, notes, hasExpirationDate,
           searchText, searchResults, showingPicker, selectedQuantity, isPickerVisible)
    }

    /** `filteredResults`: `contains(result, text)` stands for
        `localizedCaseInsensitiveContains`. Nothing is suggested for an
        empty search; otherwise the matching results, in their order. */
    function FilteredResults(contains: (string, string) -> bool): (r: seq<string>)
      reads this
      ensures searchText == "" ==> r == []
      ensures |r| <= |searchResults|
      ensures IsSubsequence(r, searchResults)
      ensures searchText != "" ==>
        forall s :: s in r <==> s in searchResults && contains(s, searchText)
    {
      if searchText == "" then []
      else
        var text := searchText;
        var keep := s => contains(s, text);
        FilterIsSubsequence(searchResults, keep);
        Filter(searchResults, keep)
    }

    /** `clearQuantity` */
    method ClearQuantity()
      modifies this
      ensures State() == old(State()).(quantity := 0)
    {
      quantity := 0;
    }

    /** `saveItem`: only logs, so the form is left as it is. */
    method SaveItem()
      ensures State() == old(State())
    {
    }
  }
}
