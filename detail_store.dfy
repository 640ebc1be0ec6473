/** The place-detail screen's store.

    Scrap and unscrap are optimistic: the counter, the flag and a toast change at
    once, and the service call has no result for the store to look at. Scoop changes
    the state only when the service answers `true`. Opening the initial data first
    stores the user's spoon count, then loads the review. Service calls are kept in
    `requests`, in order; each completion is a separate step. */
module Detail {
  import opened Common
  import Feed
  import Toasts

  /** Stand-in for the fetched review. Coordinates are kept as exact reals: they are
      only copied. */
  datatype ReviewDetail = ReviewDetail(
    postId: int,
    userId: int,
    photoUrlList: seq<string>,
    title: string,
    date: string,
    menuList: seq<string>,
    description: string,
    placeName: string,
    placeAddress: string,
    latitude: real,
    longitude: real,
    zzimCount: int,
    isZzim: bool,
    isScoop: bool,
    categoryColorResponse: Feed.CategoryColorResponse,
    isMine: bool)

  /** Stand-in for the screen state. */
  datatype DetailState = DetailState(
    postId: int,
    userId: int,
    photoUrlList: seq<string>,
    title: string,
    date: string,
    menuList: seq<string>,
    description: string,
    placeName: string,
    placeAddress: string,
    latitude: real,
    longitude: real,
    zzimCount: int,
    isZzim: bool,
    isScoop: bool,
    categoryName: string,
    iconUrl: string,
    categoryColorResponse: Feed.CategoryColorResponse,
    isMine: bool,
    spoonCount: int,
    isLoading: bool,
    toast: Option<Toasts.Toast>)

  datatype DetailIntent =
    | GetInitialValue(userId: int, postId: int)
    | ScrapButtonDidTap(isScrap: bool)
    | ScoopButtonDidTap
    | AddButtonDidTap
    | PathInfoInNaverMaps

  /** The service calls the store makes. */
  datatype DetailRequest =
    | SpoonCountFetch(userId: int)
    | ReviewDetailFetch(userId: int, postId: int)
    | ScrapReview(userId: int, postId: int)
    | UnScrapReview(userId: int, postId: int)
    | ScoopReview(userId: int, postId: int)

  /** Characters of the fetched date that are kept. */
  const DateLength: nat := 10
  /** The detail toasts' vertical offset, before screen scaling. */
  const ToastYOffset: int := 539
  const RemovedFromMapMessage: string := "내 지도에서 삭제되었어요."
  const AddedToMapMessage: string := "내 지도에 추가되었어요."
  const LoadFailedMessage: string := "데이터를 불러오는데 실패했습니다."

  /** The grey toast the store posts, at the detail screen's offset. */
  function DetailToast(message: string): (t: Toasts.Toast)
    ensures t.message == message && t.style == Toasts.Grey
    ensures t.duration == Toasts.DefaultDuration && t.yOffset == ToastYOffset
  {
    Toasts.NewToast(Toasts.Grey, message).(yOffset := ToastYOffset)
  }

  /** `String(s.prefix(n))`: the first `n` characters, or all of `s` when it is shorter. */
  function Prefix(s: string, n: nat): (p: string)
    ensures |p| == Min(|s|, n)
    ensures p == s[..|p|]
  {
    if |s| <= n then s else s[..n]
  }

  /** `updateState`: the state built from a fetched review. The date is cut to its
      first ten characters, the category name and icon come from the category colour
      record, the spoon count is the stored user count, and the loading flag and the
      toast take their defaults. */
  function StateFrom(data: ReviewDetail, userSpoonCount: int): (s: DetailState)
    ensures |s.date| == Min(|data.date|, DateLength) && s.date == data.date[..|s.date|]
    ensures s.spoonCount == userSpoonCount
    ensures s.categoryName == data.categoryColorResponse.categoryName
    ensures s.iconUrl == data.categoryColorResponse.iconUrl
    ensures s.categoryColorResponse == data.categoryColorResponse
    ensures s.postId == data.postId && s.userId == data.userId && s.title == data.title
    ensures s.photoUrlList == data.photoUrlList && s.menuList == data.menuList
    ensures s.description == data.description && s.isMine == data.isMine
    ensures s.placeName == data.placeName && s.placeAddress == data.placeAddress
    ensures s.latitude == data.latitude && s.longitude == data.longitude
    ensures s.zzimCount == data.zzimCount && s.isZzim == data.isZzim && s.isScoop == data.isScoop
    ensures !s.isLoading && s.toast == None
  {
    DetailState(
      postId := data.postId,
      userId := data.userId,
      photoUrlList := data.photoUrlList,
      title := data.title,
      date := Prefix(data.date, DateLength),
      menuList := data.menuList,
      description := data.description,
      placeName := data.placeName,
      placeAddress := data.placeAddress,
      latitude := data.latitude,
      longitude := data.longitude,
      zzimCount := data.zzimCount,
      isZzim := data.isZzim,
      isScoop := data.isScoop,
      categoryName := data.categoryColorResponse.categoryName,
      iconUrl := data.categoryColorResponse.iconUrl,
      categoryColorResponse := data.categoryColorResponse,
      isMine := data.isMine,
      spoonCount := userSpoonCount,
      isLoading := false,
      toast := None)
  }

  /** A date of ten characters or fewer is kept whole; a longer one keeps exactly its
      first ten characters. */
  lemma DateCut(data: ReviewDetail, userSpoonCount: int)
    ensures |data.date| <= DateLength ==> StateFrom(data, userSpoonCount).date == data.date
    ensures |data.date| > DateLength ==>
      StateFrom(data, userSpoonCount).date == data.date[..DateLength] &&
      |StateFrom(data, userSpoonCount).date| == DateLength
  {
    var d := StateFrom(data, userSpoonCount).date;
    if |data.date| <= DateLength {
      assert |d| == |data.date|;
      assert d == data.date[..|data.date|] == data.date;
    }
  }

  class DetailViewStore {
    /** The configured user id used for the spoon count, the review and the scoop. */
    const configUserId: int
    var state: DetailState
    var userSpoonCount: int
    /** Service calls made so far, in order. */
    var requests: seq<DetailRequest>
    /** Started `getInitialValue` tasks still waiting for the spoon count: the post
        each one captured from its intent. */
    var pendingInitial: seq<int>

    constructor (configUserId: int, initial: DetailState)
      ensures this.configUserId == configUserId && state == initial
      ensures userSpoonCount == 0 && requests == [] && pendingInitial == []
    {
      this.configUserId := configUserId;
      state := initial;
      userSpoonCount := 0;
      requests := [];
      pendingInitial := [];
    }

    method Send(intent: DetailIntent)
      modifies this
      ensures userSpoonCount == old(userSpoonCount)
      ensures intent.GetInitialValue? ==>
        state == old(state) && requests == old(requests) + [SpoonCountFetch(configUserId)] &&
        pendingInitial == old(pendingInitial) + [intent.postId]
      ensures !intent.GetInitialValue? ==> pendingInitial == old(pendingInitial)
      ensures intent.ScrapButtonDidTap? && intent.isScrap ==>
        state == old(state).(zzimCount := old(state.zzimCount) - 1, isZzim := false,
                             toast := Some(DetailToast(RemovedFromMapMessage))) &&
        requests == old(requests) + [UnScrapReview(old(state.userId), old(state.postId))]
      ensures intent.ScrapButtonDidTap? && !intent.isScrap ==>
        state == old(state).(zzimCount := old(state.zzimCount) + 1, isZzim := true,
                             toast := Some(DetailToast(AddedToMapMessage))) &&
        requests == old(requests) + [ScrapReview(old(state.userId), old(state.postId))]
      ensures intent.ScoopButtonDidTap? ==>
        state == old(state) && requests == old(requests) + [ScoopReview(configUserId, old(state.postId))]
      ensures intent.AddButtonDidTap? || intent.PathInfoInNaverMaps? ==>
        state == old(state) && requests == old(requests)
    {
      match intent
      case GetInitialValue(_, postId) =>
        // the task fetches with the configured user id, not the intent's
        requests := requests + [SpoonCountFetch(configUserId)];
        pendingInitial := pendingInitial + [postId];
      case ScrapButtonDidTap(isScrap) =>
        HandleScrapButton(isScrap);
      case ScoopButtonDidTap =>
        requests := requests + [ScoopReview(configUserId, state.postId)];
      case AddButtonDidTap =>
      case PathInfoInNaverMaps =>
    }

    /** The optimistic scrap toggle. Nothing waits for the service: the change stands
        whatever the server later does. */
    method HandleScrapButton(isScrap: bool)
      modifies this
      ensures userSpoonCount == old(userSpoonCount) && pendingInitial == old(pendingInitial)
      ensures isScrap ==>
        state == old(state).(zzimCount := old(state.zzimCount) - 1, isZzim := false,
                             toast := Some(DetailToast(RemovedFromMapMessage))) &&
        requests == old(requests) + [UnScrapReview(old(state.userId), old(state.postId))]
      ensures !isScrap ==>
        state == old(state).(zzimCount := old(state.zzimCount) + 1, isZzim := true,
                             toast := Some(DetailToast(AddedToMapMessage))) &&
        requests == old(requests) + [ScrapReview(old(state.userId), old(state.postId))]
    {
      if isScrap {
        requests := requests + [UnScrapReview(state.userId, state.postId)];
        state := state.(zzimCount := state.zzimCount - 1);
        state := state.(isZzim := false);
        state := state.(toast := Some(DetailToast(RemovedFromMapMessage)));
      } else {
        requests := requests + [ScrapReview(state.userId, state.postId)];
        state := state.(zzimCount := state.zzimCount + 1);
        state := state.(isZzim := true);
        state := state.(toast := Some(DetailToast(AddedToMapMessage)));
      }
    }

    /** The scoop task resumes. Only an answer of `true` flips `isScoop` and spends one
        spoon; `false` or a thrown error leaves everything as it was. */
    method HandleScoopResult(result: Result<bool, APIError>)
      modifies this
      ensures requests == old(requests) && userSpoonCount == old(userSpoonCount)
      ensures pendingInitial == old(pendingInitial)
      ensures result == Success(true) ==>
        state == old(state).(isScoop := !old(state.isScoop), spoonCount := old(state.spoonCount) - 1)
      ensures result != Success(true) ==> state == old(state)
    {
      if result.Success? && result.value {
        state := state.(isScoop := !state.isScoop);
        state := state.(spoonCount := state.spoonCount - 1);
      }
    }

    /** Started `getInitialValue` task `i` resumes with the spoon count. A count is
        stored and `fetchInitialData` starts for the post the task captured: loading is
        switched on and that review is requested. A thrown error ends the task with no
        other change. Either way the task is done. An index with no task does nothing. */
    method ResumeInitialValue(i: nat, result: Result<int, APIError>)
      modifies this
      ensures i < |old(pendingInitial)| ==> pendingInitial == RemoveAt(old(pendingInitial), i)
      ensures i < |old(pendingInitial)| && result.Success? ==>
        userSpoonCount == result.value &&
        state == old(state).(isLoading := true) &&
        requests == old(requests) + [ReviewDetailFetch(configUserId, old(pendingInitial)[i])]
      ensures i >= |old(pendingInitial)| || result.Failure? ==>
        userSpoonCount == old(userSpoonCount) && state == old(state) && requests == old(requests)
      ensures i >= |old(pendingInitial)| ==> pendingInitial == old(pendingInitial)
    {
      if i >= |pendingInitial| {
        return;
      }
      var postId := pendingInitial[i];
      pendingInitial := RemoveAt(pendingInitial, i);
      if result.Failure? {
        return;
      }
      userSpoonCount := result.value;
      state := state.(isLoading := true);
      requests := requests + [ReviewDetailFetch(configUserId, postId)];
    }

    /** `fetchInitialData` resumes with the review. A review replaces the whole state
        (carrying the stored spoon count); an error posts the failure toast and changes
        nothing else. Either way loading ends switched off. */
    method ApplyReviewDetail(result: Result<ReviewDetail, APIError>)
      modifies this
      ensures requests == old(requests) && userSpoonCount == old(userSpoonCount)
      ensures pendingInitial == old(pendingInitial)
      ensures !state.isLoading
      ensures result.Success? ==> state == StateFrom(result.value, userSpoonCount)
      ensures result.Failure? ==>
        state == old(state).(toast := Some(DetailToast(LoadFailedMessage)), isLoading := false)
    {
      if result.Success? {
        state := StateFrom(result.value, userSpoonCount);
      } else {
        state := state.(toast := Some(DetailToast(LoadFailedMessage)));
      }
      state := state.(isLoading := false);
    }
  }

  /** Adding to the map and then removing it again restores the scrap count, whatever
      the server did with the two calls. */
  method ScrapThenUnscrap(store: DetailViewStore)
    modifies store
    ensures store.state.zzimCount == old(store.state.zzimCount)
    ensures !store.state.isZzim
    ensures store.state.toast == Some(DetailToast(RemovedFromMapMessage))
    ensures store.requests == old(store.requests) +
      [ScrapReview(old(store.state.userId), old(store.state.postId)),
       UnScrapReview(old(store.state.userId), old(store.state.postId))]
  {
    store.Send(ScrapButtonDidTap(false));
    store.Send(ScrapButtonDidTap(true));
  }

  /** Opening a detail: the review requested is the one for the post of the intent,
      what arrives is shown with the spoon count fetched just before it, and loading is
      off. */
  method OpenDetail(store: DetailViewStore, postId: int, count: int, data: ReviewDetail)
    modifies store
    ensures store.pendingInitial == old(store.pendingInitial)
    ensures store.state == StateFrom(data, count)
    ensures store.state.spoonCount == count && !store.state.isLoading
    ensures store.requests == old(store.requests) +
      [SpoonCountFetch(store.configUserId), ReviewDetailFetch(store.configUserId, postId)]
  {
    store.Send(GetInitialValue(0, postId));
    store.ResumeInitialValue(|store.pendingInitial| - 1, Success(count));
    assert store.pendingInitial == old(store.pendingInitial);
    store.ApplyReviewDetail(Success(data));
  }
}
