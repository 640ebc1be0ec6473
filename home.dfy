/** The map home screen: which bottom sheet it shows, how it keeps the selected place
    in step with the map's lists, and the order of its start-up work.

    The place lists belong to the map view model and the current location to the
    navigation manager; here they are fields that change when those owners publish a
    new value. Service calls are kept in `requests`, in order. */
module Home {
  import opened Common

  /** Stand-ins for a card on the map and an entry of a pick list. */
  datatype CardPlace = CardPlace(postId: int, placeName: string)
  datatype PickPlace = PickPlace(placeId: int, placeName: string)

  datatype SheetMode = PlaceCardSheet | SearchResultSheet | ListSheet | FixedSheet

  /** The bottom sheet chosen by priority: focused places, then search results for a
      chosen location, then the pick list, and otherwise the fixed sheet. */
  function SheetModeFor(focusedPlaces: seq<CardPlace>, currentLocation: Option<string>,
                        searchPickList: seq<PickPlace>, pickList: seq<PickPlace>): (m: SheetMode)
    ensures m == PlaceCardSheet <==> focusedPlaces != []
    ensures m == SearchResultSheet <==>
      focusedPlaces == [] && currentLocation.Some? && searchPickList != []
    ensures m == ListSheet <==>
      focusedPlaces == [] && !(currentLocation.Some? && searchPickList != []) && pickList != []
    ensures m == FixedSheet <==>
      focusedPlaces == [] && !(currentLocation.Some? && searchPickList != []) && pickList == []
  {
    if focusedPlaces != [] then PlaceCardSheet
    else if currentLocation.Some? && searchPickList != [] then SearchResultSheet
    else if pickList != [] then ListSheet
    else FixedSheet
  }

  /** Focused places outrank every other list, whatever they hold. */
  lemma FocusedPlacesWin(focusedPlaces: seq<CardPlace>, l1: Option<string>, s1: seq<PickPlace>, p1: seq<PickPlace>,
                         l2: Option<string>, s2: seq<PickPlace>, p2: seq<PickPlace>)
    requires focusedPlaces != []
    ensures SheetModeFor(focusedPlaces, l1, s1, p1) == SheetModeFor(focusedPlaces, l2, s2, p2) == PlaceCardSheet
  {
  }

  /** Without a chosen location the search results are never shown. */
  lemma SearchNeedsLocation(focusedPlaces: seq<CardPlace>, searchPickList: seq<PickPlace>, pickList: seq<PickPlace>)
    ensures SheetModeFor(focusedPlaces, None, searchPickList, pickList) != SearchResultSheet
    ensures SheetModeFor(focusedPlaces, None, searchPickList, pickList) ==
            SheetModeFor(focusedPlaces, None, [], pickList)
  {
  }

  datatype HomeRequest = SpoonCountFetch(userId: int) | PickListFetch

  class HomeScreen {
    /** The configured user id. */
    const userId: int
    var focusedPlaces: seq<CardPlace>
    var pickList: seq<PickPlace>
    var searchPickList: seq<PickPlace>
    var currentLocation: Option<string>
    var selectedPlace: Option<CardPlace>
    var spoonCount: int
    var isBottomSheetPresented: bool
    /** Service calls made so far, in order. */
    var requests: seq<HomeRequest>

    constructor (userId: int, currentLocation: Option<string>)
      ensures this.userId == userId && this.currentLocation == currentLocation
      ensures focusedPlaces == [] && pickList == [] && searchPickList == []
      ensures selectedPlace == None && spoonCount == 0 && isBottomSheetPresented
      ensures requests == []
    {
      this.userId := userId;
      this.currentLocation := currentLocation;
      focusedPlaces, pickList, searchPickList := [], [], [];
      selectedPlace, spoonCount, isBottomSheetPresented := None, 0, true;
      requests := [];
    }

    function Sheet(): SheetMode
      reads this
    {
      SheetModeFor(focusedPlaces, currentLocation, searchPickList, pickList)
    }

    /** The view model publishes new focused places. The change handler runs only on
        an actual change: non-empty places select their first element; empty places
        leave the selection as it is. */
    method FocusedPlacesChanged(newPlaces: seq<CardPlace>)
      modifies this
      ensures focusedPlaces == newPlaces
      ensures newPlaces != old(focusedPlaces) && newPlaces != [] ==> selectedPlace == Some(newPlaces[0])
      ensures newPlaces == old(focusedPlaces) || newPlaces == [] ==> selectedPlace == old(selectedPlace)
      ensures pickList == old(pickList) && searchPickList == old(searchPickList)
      ensures currentLocation == old(currentLocation) && spoonCount == old(spoonCount)
      ensures isBottomSheetPresented == old(isBottomSheetPresented) && requests == old(requests)
      ensures newPlaces != [] ==> Sheet() == PlaceCardSheet
    {
      var changed := newPlaces != focusedPlaces;
      focusedPlaces := newPlaces;
      if changed && newPlaces != [] {
        selectedPlace := Some(newPlaces[0]);
      }
    }

    /** The view model publishes a new pick list. Any actual change clears the
        selection. */
    method PickListChanged(newList: seq<PickPlace>)
      modifies this
      ensures pickList == newList
      ensures newList != old(pickList) ==> selectedPlace == None
      ensures newList == old(pickList) ==> selectedPlace == old(selectedPlace)
      ensures focusedPlaces == old(focusedPlaces) && searchPickList == old(searchPickList)
      ensures currentLocation == old(currentLocation) && spoonCount == old(spoonCount)
      ensures isBottomSheetPresented == old(isBottomSheetPresented) && requests == old(requests)
    {
      var changed := newList != pickList;
      pickList := newList;
      if changed {
        selectedPlace := None;
      }
    }

    /** The view model publishes new search results; no handler watches them. */
    method SearchPickListChanged(newList: seq<PickPlace>)
      modifies this
      ensures searchPickList == newList
      ensures focusedPlaces == old(focusedPlaces) && pickList == old(pickList)
      ensures selectedPlace == old(selectedPlace) && currentLocation == old(currentLocation)
      ensures spoonCount == old(spoonCount) && isBottomSheetPresented == old(isBottomSheetPresented)
      ensures requests == old(requests)
    {
      searchPickList := newList;
    }

    /** Back on the location title bar: the pick list is fetched again and the current
        location is cleared. */
    method LocationBackTapped()
      modifies this
      ensures requests == old(requests) + [PickListFetch]
      ensures currentLocation == None
      ensures focusedPlaces == old(focusedPlaces) && pickList == old(pickList)
      ensures searchPickList == old(searchPickList) && selectedPlace == old(selectedPlace)
      ensures spoonCount == old(spoonCount) && isBottomSheetPresented == old(isBottomSheetPresented)
    {
      requests := requests + [PickListFetch];
      currentLocation := None;
    }

    /** The start-up task begins: the sheet is presented and the spoon count is
        requested; nothing else happens before it answers. */
    method StartTask()
      modifies this
      ensures isBottomSheetPresented
      ensures requests == old(requests) + [SpoonCountFetch(userId)]
      ensures focusedPlaces == old(focusedPlaces) && pickList == old(pickList)
      ensures searchPickList == old(searchPickList) && selectedPlace == old(selectedPlace)
      ensures currentLocation == old(currentLocation) && spoonCount == old(spoonCount)
    {
      isBottomSheetPresented := true;
      requests := requests + [SpoonCountFetch(userId)];
    }

    /** The start-up task resumes with the spoon count. A count is stored, and only then,
        and only when no location is chosen, the pick list is requested. A thrown error
        skips both. */
    method ResumeStartTask(result: Result<int, APIError>)
      modifies this
      ensures result.Success? ==> spoonCount == result.value
      ensures result.Failure? ==> spoonCount == old(spoonCount)
      ensures result.Success? && currentLocation.None? ==> requests == old(requests) + [PickListFetch]
      ensures result.Failure? || currentLocation.Some? ==> requests == old(requests)
      ensures focusedPlaces == old(focusedPlaces) && pickList == old(pickList)
      ensures searchPickList == old(searchPickList) && selectedPlace == old(selectedPlace)
      ensures currentLocation == old(currentLocation)
      ensures isBottomSheetPresented == old(isBottomSheetPresented)
    {
      if result.Success? {
        spoonCount := result.value;
        if currentLocation.None? {
          requests := requests + [PickListFetch];
        }
      }
    }
  }

  /** Focusing places and then replacing the pick list: the first focused place is
      selected at first, and the pick-list change clears it again. */
  method FocusThenNewPickList(home: HomeScreen, places: seq<CardPlace>, picks: seq<PickPlace>)
    requires places != [] && places != home.focusedPlaces && picks != home.pickList
    modifies home
    ensures home.selectedPlace == None
    ensures home.Sheet() == PlaceCardSheet
  {
    home.FocusedPlacesChanged(places);
    assert home.selectedPlace == Some(places[0]);
    home.PickListChanged(picks);
  }
}
