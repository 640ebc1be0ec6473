/** The Explore screen's store.

    `dispatch` patches the state record synchronously. A feed fetch is issued with
    the category, location and sort order read from the state; the store keeps the
    requests it issued in `requests`, in order. Completions are separate steps
    (`ApplyFeedResult`, `ApplyCategoryListResult`, `ApplySpoonCountResult`) that
    overwrite their fields whenever they arrive: nothing checks whether a result
    answers the most recent request. */
module Explore {
  import opened Common
  import opened Filter
  import Feed

  /** Stand-in for the district enum; only its raw value is used. */
  datatype Location = Location(rawValue: string)

  datatype ExploreState = ExploreState(
    navigationTitle: string,
    isPresentedLocation: bool,
    tempLocation: Option<Location>,
    isSelectLocationButtonDisabled: bool,
    selectedLocation: Location,
    isPresentedFilter: bool,
    selectedFilter: FilterType,
    categoryList: seq<CategoryChip>,
    selectedCategory: Option<CategoryChip>,
    exploreList: seq<Feed.FeedEntity>,
    spoonCount: int)

  datatype ExploreIntent =
    | OnAppear
    | NavigationLocationTapped
    | LocationTapped(location: Location)
    | SelectLocationTapped
    | CloseLocationTapped
    | FilterButtonTapped
    | FilterTapped(filter: FilterType)
    | CloseFilterTapped
    | CategoryTapped(category: CategoryChip)
    | CellTapped(feed: Feed.FeedEntity)
    | IsPresentedLocationChanged(presentedLocation: bool)
    | IsPresentedFilterChanged(presentedFilter: bool)
    | IsSelectLocationDisabledChanged(disabled: bool)

  /** The service calls the store issues. */
  datatype ExploreRequest =
    | FeedFetch(userId: int, categoryId: int, location: string, sort: FilterType)
    | SpoonCountFetch(userId: int)
    | CategoryListFetch

  const SeoulPrefix: string := "서울특별시 "

  /** The category sent when none is selected. */
  const DefaultCategoryId: int := 1

  /** The navigation title: the Seoul prefix followed by the district's raw value, so
      the district can be read back from the title. */
  function NavigationTitle(l: Location): (t: string)
    ensures |t| == |SeoulPrefix| + |l.rawValue|
    ensures t[..|SeoulPrefix|] == SeoulPrefix && t[|SeoulPrefix|..] == l.rawValue
  {
    SeoulPrefix + l.rawValue
  }

  /** The feed fetch built from a state: the selected category's id (1 when none is
      selected), the selected location's raw value and the selected sort order. */
  function FeedRequest(userId: int, s: ExploreState): (r: ExploreRequest)
    ensures r.FeedFetch? && r.userId == userId
    ensures s.selectedCategory.None? ==> r.categoryId == DefaultCategoryId
    ensures s.selectedCategory.Some? ==> r.categoryId == s.selectedCategory.value.id
    ensures r.location == s.selectedLocation.rawValue && r.sort == s.selectedFilter
  {
    FeedFetch(userId,
              if s.selectedCategory.Some? then s.selectedCategory.value.id else DefaultCategoryId,
              s.selectedLocation.rawValue,
              s.selectedFilter)
  }

  /** `categoryList.first`. */
  function First(cs: seq<CategoryChip>): (c: Option<CategoryChip>)
    ensures c.None? <==> cs == []
    ensures c.Some? ==> c.value == cs[0]
  {
    if cs == [] then None else Some(cs[0])
  }

  /** The most recent feed fetch in a request log. */
  function LastFeedFetch(rs: seq<ExploreRequest>): (r: Option<ExploreRequest>)
    ensures r.Some? ==> r.value.FeedFetch? && r.value in rs
    ensures r.None? <==> forall k :: 0 <= k < |rs| ==> !rs[k].FeedFetch?
  {
    if rs == [] then None
    else if rs[|rs| - 1].FeedFetch? then Some(rs[|rs| - 1])
    else LastFeedFetch(rs[..|rs| - 1])
  }

  lemma LastFeedFetchAppend(rs: seq<ExploreRequest>, q: ExploreRequest)
    ensures LastFeedFetch(rs + [q]) == if q.FeedFetch? then Some(q) else LastFeedFetch(rs)
  {
    assert (rs + [q])[..|rs|] == rs;
  }

  class ExploreStore {
    /** The configured user id every request carries. */
    const userId: int
    var state: ExploreState
    /** Requests issued so far, in order. */
    var requests: seq<ExploreRequest>

    /** The most recently issued feed fetch, if any, asks for exactly the category,
        location and sort order the state now shows. */
    ghost predicate Valid()
      reads this
    {
      LastFeedFetch(requests).Some? ==> LastFeedFetch(requests).value == FeedRequest(userId, state)
    }

    /** The navigation title names the selected location. */
    ghost predicate TitleMatchesLocation()
      reads this
    {
      state.navigationTitle == NavigationTitle(state.selectedLocation)
    }

    constructor (userId: int, initial: ExploreState)
      ensures this.userId == userId && state == initial && requests == []
      ensures Valid()
    {
      this.userId := userId;
      state := initial;
      requests := [];
    }

    method Dispatch(intent: ExploreIntent)
      requires Valid()
      modifies this
      ensures Valid()
      ensures old(TitleMatchesLocation()) ==> TitleMatchesLocation()
      ensures intent.OnAppear? ==>
        state == old(state) && requests == old(requests) + [SpoonCountFetch(userId), CategoryListFetch]
      ensures intent.NavigationLocationTapped? ==>
        state == old(state).(isPresentedLocation := true) && requests == old(requests)
      ensures intent.LocationTapped? ==>
        state == old(state).(tempLocation := Some(intent.location), isSelectLocationButtonDisabled := false) &&
        requests == old(requests)
      ensures intent.SelectLocationTapped? && old(state.tempLocation).None? ==>
        state == old(state) && requests == old(requests)
      ensures intent.SelectLocationTapped? && old(state.tempLocation).Some? ==>
        var l := old(state.tempLocation).value;
        state == old(state).(selectedLocation := l, navigationTitle := NavigationTitle(l), tempLocation := None,
                             isPresentedLocation := false, isSelectLocationButtonDisabled := true) &&
        requests == old(requests) + [FeedRequest(userId, state)] &&
        TitleMatchesLocation()
      ensures intent.CloseLocationTapped? ==>
        state == old(state).(isPresentedLocation := false) && requests == old(requests)
      ensures intent.FilterButtonTapped? ==>
        state == old(state).(isPresentedFilter := true) && requests == old(requests)
      ensures intent.FilterTapped? ==>
        state == old(state).(selectedFilter := intent.filter, isPresentedFilter := false) &&
        requests == old(requests) + [FeedRequest(userId, state)]
      ensures intent.CloseFilterTapped? ==>
        state == old(state).(isPresentedFilter := false) && requests == old(requests)
      ensures intent.CategoryTapped? ==>
        state == old(state).(selectedCategory := Some(intent.category)) &&
        requests == old(requests) + [FeedRequest(userId, state)]
      ensures intent.CellTapped? ==> state == old(state) && requests == old(requests)
      ensures intent.IsPresentedLocationChanged? ==>
        state == old(state).(isPresentedLocation := intent.presentedLocation) && requests == old(requests)
      ensures intent.IsPresentedFilterChanged? ==>
        state == old(state).(isPresentedFilter := intent.presentedFilter) && requests == old(requests)
      ensures intent.IsSelectLocationDisabledChanged? ==>
        state == old(state).(isSelectLocationButtonDisabled := intent.disabled) && requests == old(requests)
    {
      match intent
      case OnAppear =>
        Issue(SpoonCountFetch(userId));
        Issue(CategoryListFetch);
      case NavigationLocationTapped =>
        state := state.(isPresentedLocation := true);
      case LocationTapped(location) =>
        state := state.(tempLocation := Some(location));
        state := state.(isSelectLocationButtonDisabled := false);
      case SelectLocationTapped =>
        ChangeLocation();
      case CloseLocationTapped =>
        state := state.(isPresentedLocation := false);
      case FilterButtonTapped =>
        state := state.(isPresentedFilter := true);
      case FilterTapped(filter) =>
        ChangeFilter(filter);
      case CloseFilterTapped =>
        state := state.(isPresentedFilter := false);
      case CategoryTapped(category) =>
        ChangeCategory(category);
      case CellTapped(_) =>
      case IsPresentedLocationChanged(newValue) =>
        state := state.(isPresentedLocation := newValue);
      case IsPresentedFilterChanged(newValue) =>
        state := state.(isPresentedFilter := newValue);
      case IsSelectLocationDisabledChanged(newValue) =>
        state := state.(isSelectLocationButtonDisabled := newValue);
    }

    /** Issues a request other than a feed fetch. */
    method Issue(q: ExploreRequest)
      requires Valid() && !q.FeedFetch?
      modifies this
      ensures Valid()
      ensures state == old(state) && requests == old(requests) + [q]
    {
      LastFeedFetchAppend(requests, q);
      requests := requests + [q];
    }

    /** `getFeedList`: issues a feed fetch built from the current state. */
    method GetFeedList()
      modifies this
      ensures Valid()
      ensures state == old(state) && requests == old(requests) + [FeedRequest(userId, state)]
    {
      LastFeedFetchAppend(requests, FeedRequest(userId, state));
      requests := requests + [FeedRequest(userId, state)];
    }

    method ChangeLocation()
      requires Valid()
      modifies this
      ensures Valid()
      ensures old(state.tempLocation).None? ==> state == old(state) && requests == old(requests)
      ensures old(state.tempLocation).Some? ==>
        var l := old(state.tempLocation).value;
        state == old(state).(selectedLocation := l, navigationTitle := NavigationTitle(l), tempLocation := None,
                             isPresentedLocation := false, isSelectLocationButtonDisabled := true) &&
        requests == old(requests) + [FeedRequest(userId, state)]
    {
      if state.tempLocation.None? {
        return;
      }
      var location := state.tempLocation.value;
      state := state.(selectedLocation := location);
      state := state.(navigationTitle := NavigationTitle(location));
      GetFeedList();
      state := state.(tempLocation := None);
      state := state.(isPresentedLocation := false);
      state := state.(isSelectLocationButtonDisabled := true);
    }

    method ChangeFilter(filter: FilterType)
      modifies this
      ensures Valid()
      ensures state == old(state).(selectedFilter := filter, isPresentedFilter := false)
      ensures requests == old(requests) + [FeedRequest(userId, state)]
    {
      state := state.(selectedFilter := filter);
      GetFeedList();
      state := state.(isPresentedFilter := false);
    }

    method ChangeCategory(category: CategoryChip)
      modifies this
      ensures Valid()
      ensures state == old(state).(selectedCategory := Some(category))
      ensures requests == old(requests) + [FeedRequest(userId, state)]
    {
      state := state.(selectedCategory := Some(category));
      GetFeedList();
    }

    /** A feed fetch completes: a list replaces `exploreList` and nothing else; a thrown
        error changes nothing. `ids` are the identifiers drawn while mapping. */
    method ApplyFeedResult(result: Result<Feed.FeedListResponse, APIError>, ids: seq<Uuid>)
      requires Valid()
      requires result.Success? ==> |ids| == |result.value.feedResponseList|
      modifies this
      ensures Valid() && requests == old(requests)
      ensures result.Success? ==> state == old(state).(exploreList := Feed.ToEntity(result.value, ids))
      ensures result.Failure? ==> state == old(state)
    {
      if result.Success? {
        state := state.(exploreList := Feed.ToEntity(result.value, ids));
      }
    }

    /** The category-list task resumes. On success: the list is stored, its first
        element (or none) becomes the selected category, the title is recomputed from
        the selected location, and then a feed fetch is issued. A thrown error ends the
        task with no change. */
    method ApplyCategoryListResult(result: Result<seq<CategoryChip>, APIError>)
      requires Valid()
      modifies this
      ensures Valid()
      ensures result.Success? ==>
        state == old(state).(categoryList := result.value, selectedCategory := First(result.value),
                             navigationTitle := NavigationTitle(old(state.selectedLocation))) &&
        requests == old(requests) + [FeedRequest(userId, state)] &&
        TitleMatchesLocation()
      ensures result.Failure? ==> state == old(state) && requests == old(requests)
    {
      if result.Failure? {
        return;
      }
      state := state.(categoryList := result.value);
      state := state.(selectedCategory := First(state.categoryList));
      state := state.(navigationTitle := NavigationTitle(state.selectedLocation));
      GetFeedList();
    }

    /** The spoon-count task resumes: a count replaces `spoonCount`; an error is only
        logged. */
    method ApplySpoonCountResult(result: Result<int, APIError>)
      requires Valid()
      modifies this
      ensures Valid() && requests == old(requests)
      ensures result.Success? ==> state == old(state).(spoonCount := result.value)
      ensures result.Failure? ==> state == old(state)
    {
      if result.Success? {
        state := state.(spoonCount := result.value);
      }
    }
  }

  /** Picking a district and confirming it: the district becomes the selected location
      and the title, the picker closes, and the one feed fetch asks for that district. */
  method PickAndConfirmLocation(store: ExploreStore, l: Location)
    requires store.Valid()
    modifies store
    ensures store.Valid()
    ensures store.state.selectedLocation == l && store.state.navigationTitle == SeoulPrefix + l.rawValue
    ensures store.state.tempLocation == None && !store.state.isPresentedLocation
    ensures store.state.isSelectLocationButtonDisabled
    ensures |store.requests| == |old(store.requests)| + 1
    ensures store.requests[|store.requests| - 1].FeedFetch?
    ensures store.requests[|store.requests| - 1].location == l.rawValue
  {
    store.Dispatch(LocationTapped(l));
    store.Dispatch(SelectLocationTapped);
  }

  /** Results are applied in the order they arrive: a feed result that answers an
      older request still replaces the list, although the latest request issued asks
      for the newly selected category. */
  method LateResultOverwrites(store: ExploreStore, older: Feed.FeedListResponse, ids: seq<Uuid>, c: CategoryChip)
    requires store.Valid() && |ids| == |older.feedResponseList|
    modifies store
    ensures store.state.selectedCategory == Some(c)
    ensures store.state.exploreList == Feed.ToEntity(older, ids)
    ensures LastFeedFetch(store.requests) == Some(FeedRequest(store.userId, store.state))
  {
    store.Dispatch(CategoryTapped(c));
    store.ApplyFeedResult(Success(older), ids);
  }
}
