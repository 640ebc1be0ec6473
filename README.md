# Spoony-iOS state layer in Dafny

This project models the intent-driven state layer of the Spoony iOS app and the
small pure mappings around it. It covers the following parts:

- **Explore store.** Location picker, filter sheet and category chips. Feed requests are built from the state, and the results of three asynchronous fetches are applied back to it.
- **Place-detail store.** Optimistic scrap and unscrap, scoop, and loading the initial data.
- **Report store.** Field setters and the submit task.
- **Toast auto-dismiss machine.** The machine behind the toast view modifier.
- **Map home screen.** The choice of bottom sheet, the two change handlers that keep the selected place in step, and the start-up task.
- **Explore API endpoint description.** Path, HTTP method, parameters, headers and validation.
- **Feed mapping.** Transfer object to entity.
- **Spoon-count outcome.** How `fetchSpoonCount` classifies its result.
- **Tabs and defaults.** Tab titles and icon names, and the default register state.

Each store is a `class` whose `state` record is reassigned field by field, in the
same order as the Swift code. Every asynchronous fetch is split into two steps:

1. **Issue.** The request is appended, as a value, to the store's `requests` log (`calls` in the report store).
2. **Apply the result.** A separate method that takes the result as an argument.

Results are applied in the order they arrive. No token marks a result as stale and
nothing is rolled back, because the Swift code has neither. `LateResultOverwrites`
and `ScrapThenUnscrap` make this visible.

The Explore store keeps an invariant, `Valid()`: the most recently issued feed
fetch asks for exactly the category, location and sort order that the state now
shows. Every operation keeps it. `Dispatch` also keeps `TitleMatchesLocation()`
(the navigation title names the selected location) whenever it held before.

The toast machine keeps three things:

- a generation counter;
- the `workItem` slot, holding the generation of the pending work item;
- the set of scheduled items that have been neither cancelled nor run.

Its invariant `Valid()` says only the item in the slot can still run, so at most
one dismiss timer is ever live (`AtMostOneLive`). A cancelled timer has no effect
when its deadline passes (`Fire`).

Feed results are applied in the order they arrive, even after a newer fetch was
issued (`LateResultOverwrites`). An optimistic scrap is never rolled back, because
the store never sees the server's answer (`ScrapThenUnscrap`).

## Model

| member | source | states |
|---|---|---|
| Toasts.NewToast | Spoony-iOS/Spoony-iOS/Resource/Helper/ToastModifier.swift:11-17 | A toast built from a style and a message has duration 3, infinite width and offset 638. |
| Toasts.ToastChannel.constructor | Spoony-iOS/Spoony-iOS/Resource/Helper/ToastModifier.swift:53-54 | The modifier starts with no toast, an empty slot and no live timer. |
| Toasts.ToastChannel.AtMostOneLive | Spoony-iOS/Spoony-iOS/Resource/Helper/ToastModifier.swift:91-99 | Under the invariant at most one dismiss timer is live, and it is the one in the slot. |
| Toasts.ToastChannel.SetToast | Spoony-iOS/Spoony-iOS/Resource/Helper/ToastModifier.swift:64-66 | Writing the binding runs `showToast` only when the value differs. Writing an equal value leaves the timers alone. |
| Toasts.ToastChannel.ShowToast | Spoony-iOS/Spoony-iOS/Resource/Helper/ToastModifier.swift:85-101 | With no toast, nothing changes. With a positive duration, the pending item is cancelled and exactly one fresh item is armed. With a non-positive duration, the pending item is left as it is. |
| Toasts.ToastChannel.DismissToast | Spoony-iOS/Spoony-iOS/Resource/Helper/ToastModifier.swift:103-110 | Dismissing ends with no toast, an empty slot and no live timer. |
| Toasts.ToastChannel.Fire | Spoony-iOS/Spoony-iOS/Resource/Helper/ToastModifier.swift:92-99 | A deadline passing for a cancelled or already-run item changes nothing. For the live item, it dismisses the toast. |
| Toasts.ReplacedToastSurvivesOldTimer | Spoony-iOS/Spoony-iOS/Resource/Helper/ToastModifier.swift:91-99 | A toast that replaces another is not dismissed by the replaced toast's timer, and its own timer stays live. |
| Toasts.OldTimerDismissesPersistentToast | Spoony-iOS/Spoony-iOS/Resource/Helper/ToastModifier.swift:91 | A toast with a non-positive duration does not cancel the previous timer, so that timer dismisses it. |
| Feed.EntityOf | Spoony-iOS/Spoony-iOS/Network/Model/FeedResponse.swift:35-43 | One entity takes the drawn identifier and copies post id, user name, region, title, category colours and scrap count from its response. |
| Feed.MapFeeds | Spoony-iOS/Spoony-iOS/Network/Model/FeedResponse.swift:34-44 | The `map` keeps length and order. Entity i copies post id, user name, region, title, category colours and scrap count from response i, and takes identifier i. |
| Feed.ToEntity | Spoony-iOS/Spoony-iOS/Network/Model/FeedResponse.swift:33-45 | `toEntity` returns one entity per response, in order, each built from its response and a fresh identifier. |
| Feed.ToEntityIgnoresUserAndDate | Spoony-iOS/Spoony-iOS/Network/Model/FeedResponse.swift:14-22 | Responses that differ only in `userId` and `createdAt` map to the same entities, so those two fields are dropped. |
| Feed.ChipColorOf | Spoony-iOS/Spoony-iOS/Network/Model/FeedResponse.swift:64-72 | Category name becomes name, icon URL stays, text and background colours are renamed, and the renaming loses nothing. |
| Feed.ChipColorRoundTrip | Spoony-iOS/Spoony-iOS/Network/Model/FeedResponse.swift:64-72 | Renaming an entity back and forth gives the same entity. |
| Tab.AllCases | Spoony-iOS/Spoony-iOS/Resource/Tab/Model/TabType.swift:10-13 | There are exactly three tabs, each exactly once, in declaration order. |
| Tab.Title | Spoony-iOS/Spoony-iOS/Resource/Tab/Model/TabType.swift:15-24 | Every tab has a non-empty title. |
| Tab.TitlesDistinct | Spoony-iOS/Spoony-iOS/Resource/Tab/Model/TabType.swift:15-24 | Distinct tabs carry distinct titles. |
| Tab.ImageName | Spoony-iOS/Spoony-iOS/Resource/Tab/Model/TabType.swift:26-35 | An icon name is eleven characters longer than the tab's raw value, and the character after `ic_`, the raw value and `_` is `m` for the selected icon and `g` for the unselected one. |
| Tab.ImageNameFormat | Spoony-iOS/Spoony-iOS/Resource/Tab/Model/TabType.swift:26-35 | An icon name is `ic_` + raw value + `_main400` when selected, or `_gray400` otherwise. |
| Tab.SelectedIconDiffers | Spoony-iOS/Spoony-iOS/Resource/Tab/Model/TabType.swift:26-35 | A tab's selected and unselected icons always differ. |
| Filter.SortKey | Spoony-iOS/Spoony-iOS/Network/TargetType/ExploreTargetType.swift:52 | The sort key is a non-empty case name whose first letter tells the two orders apart. |
| Filter.SortKeyInjective | Spoony-iOS/Spoony-iOS/Network/TargetType/ExploreTargetType.swift:52 | Distinct sort orders are sent as distinct `sortBy` keys. |
| HomeService.SpoonCountOutcome | Spoony-iOS/Spoony-iOS/Network/Service/HomeService/HomeService.swift:42-62 | The call yields the spoon amount exactly when the body decodes with `success` and data. Otherwise it yields exactly one error: `responseError` for a decoded failure or missing data, `decodingError` for a decode failure, `invalidResponse` for a transport failure. |
| Register.InitialRegisterState | Spoony-iOS/Spoony-iOS/Source/Feature/Register/State/RegisterState.swift:11-49 | Every field starts at its declared default, including the single recommendation row, the five selectable images and the initial upload error state. |
| ExploreTarget.NatString | Spoony-iOS/Spoony-iOS/Network/TargetType/ExploreTargetType.swift:29 | Interpolating a natural number gives a non-empty string of decimal digits, one digit exactly for numbers below ten. |
| ExploreTarget.NatStringInjective | Spoony-iOS/Spoony-iOS/Network/TargetType/ExploreTargetType.swift:29 | Distinct natural numbers interpolate to distinct strings. |
| ExploreTarget.IntString | Spoony-iOS/Spoony-iOS/Network/TargetType/ExploreTargetType.swift:29 | An interpolated integer is non-empty and starts with `-` exactly when it is negative. After the sign come the decimal digits of its magnitude. |
| ExploreTarget.IntStringInjective | Spoony-iOS/Spoony-iOS/Network/TargetType/ExploreTargetType.swift:29 | Distinct integers interpolate to distinct strings. |
| ExploreTarget.Path | Spoony-iOS/Spoony-iOS/Network/TargetType/ExploreTargetType.swift:26-35 | The feed path is `/feed/` followed by the user id, the report path is `/report`, and the categories path is `/post/categories`. |
| ExploreTarget.PathMarker | Spoony-iOS/Spoony-iOS/Network/TargetType/ExploreTargetType.swift:26-35 | The second character of each path names its endpoint. |
| ExploreTarget.PathIdentifiesEndpoint | Spoony-iOS/Spoony-iOS/Network/TargetType/ExploreTargetType.swift:26-35 | Equal paths mean the same endpoint, and for feeds the same user. |
| ExploreTarget.Method | Spoony-iOS/Spoony-iOS/Network/TargetType/ExploreTargetType.swift:37-45 | Only the report endpoint uses POST; feeds and categories use GET. |
| ExploreTarget.Task | Spoony-iOS/Spoony-iOS/Network/TargetType/ExploreTargetType.swift:47-60 | Only the feed request has parameters: exactly `query` = location and `sortBy` = sort key, JSON-encoded. The report and categories requests are plain. |
| ExploreTarget.FeedParametersOmitUser | Spoony-iOS/Spoony-iOS/Network/TargetType/ExploreTargetType.swift:49-54 | The feed parameters do not depend on the user, and `userId` is not among them. |
| ExploreTarget.Headers | Spoony-iOS/Spoony-iOS/Network/TargetType/ExploreTargetType.swift:62-64 | Every endpoint sends the configured default headers, whatever the case. |
| ExploreTarget.Validation | Spoony-iOS/Spoony-iOS/Network/TargetType/ExploreTargetType.swift:66-68 | Every endpoint validates with the success codes. |
| Report.ReportStore.constructor | Spoony-iOS/Spoony-iOS/Source/Feature/Report/Store/ReportStore.swift:13 | The store starts from its initial state with no task started and no call made. |
| Report.ReportStore.Dispatch | Spoony-iOS/Spoony-iOS/Source/Feature/Report/Store/ReportStore.swift:15-27 | Picking a reason, editing the description and changing the error flag each set one field. Background taps change nothing. Submit changes no state and starts a task holding the post and the description current at the tap. |
| Report.ReportStore.ChangeReportType | Spoony-iOS/Spoony-iOS/Source/Feature/Report/Store/ReportStore.swift:31-33 | Only the selected reason changes. |
| Report.ReportStore.SendReport | Spoony-iOS/Spoony-iOS/Source/Feature/Report/Store/ReportStore.swift:35-39 | Starting the task sends nothing yet and changes no state. |
| Report.ReportStore.RunReportTask | Spoony-iOS/Spoony-iOS/Source/Feature/Report/Store/ReportStore.swift:42-51 | The task sends its captured post and description with the reason selected when it runs, and is then done. |
| Report.SubmitAndRun | Spoony-iOS/Spoony-iOS/Source/Feature/Report/Store/ReportStore.swift:19-20 | Submitting and letting the task run before any other intent sends the post, reason and description current at the tap, and changes no state. |
| Report.ReasonPickedBeforeTaskRuns | Spoony-iOS/Spoony-iOS/Source/Feature/Report/Store/ReportStore.swift:42-51 | A reason picked between the tap and the task's run is the one sent; the description is still the one read at the tap. |
| Explore.NavigationTitle | Spoony-iOS/Spoony-iOS/Source/Feature/Explore/Store/ExploreStore.swift:63 | The title is the Seoul prefix followed by the district's raw value, so the district can be read back from it. |
| Explore.FeedRequest | Spoony-iOS/Spoony-iOS/Source/Feature/Explore/Store/ExploreStore.swift:106-112 | The feed fetch carries the configured user, the selected category's id (1 when none is selected), the selected location's raw value and the selected sort order. |
| Explore.First | Spoony-iOS/Spoony-iOS/Source/Feature/Explore/Store/ExploreStore.swift:97 | `first` is none exactly for an empty list, and otherwise its first element. |
| Explore.ExploreStore.constructor | Spoony-iOS/Spoony-iOS/Source/Feature/Explore/Store/ExploreStore.swift:16 | The store starts from its initial state, has issued nothing, and satisfies the feed-request invariant. |
| Explore.ExploreStore.Dispatch | Spoony-iOS/Spoony-iOS/Source/Feature/Explore/Store/ExploreStore.swift:22-54 | Per intent, the exact new state and the requests issued (see the list below). Every intent keeps the invariant and a title that matches the location. |
| Explore.ExploreStore.Issue | Spoony-iOS/Spoony-iOS/Source/Feature/Explore/Store/ExploreStore.swift:87-91 | Issuing a spoon-count or category-list request changes no state and keeps the invariant. |
| Explore.ExploreStore.GetFeedList | Spoony-iOS/Spoony-iOS/Source/Feature/Explore/Store/ExploreStore.swift:81-85 | A feed fetch built from the current state is issued, which re-establishes the invariant. |
| Explore.ExploreStore.ChangeLocation | Spoony-iOS/Spoony-iOS/Source/Feature/Explore/Store/ExploreStore.swift:59-68 | With no pending district, nothing changes. Otherwise the district is selected and titled, the pick is cleared, the sheet closes, the button is disabled, and exactly one fetch for the district is issued. |
| Explore.ExploreStore.ChangeFilter | Spoony-iOS/Spoony-iOS/Source/Feature/Explore/Store/ExploreStore.swift:70-74 | The sort order is set, the filter sheet closes, and one fetch with that order is issued. |
| Explore.ExploreStore.ChangeCategory | Spoony-iOS/Spoony-iOS/Source/Feature/Explore/Store/ExploreStore.swift:76-79 | The category is selected and one fetch for it is issued; nothing else changes. |
| Explore.ExploreStore.ApplyFeedResult | Spoony-iOS/Spoony-iOS/Source/Feature/Explore/Store/ExploreStore.swift:106-114 | A list replaces `exploreList` with its mapped entities and nothing else. An error changes nothing. |
| Explore.ExploreStore.ApplyCategoryListResult | Spoony-iOS/Spoony-iOS/Source/Feature/Explore/Store/ExploreStore.swift:93-101 | On success the list is stored, its first element (or none) is selected, the title is recomputed from the location, and then one fetch is issued. On error nothing changes. |
| Explore.ExploreStore.ApplySpoonCountResult | Spoony-iOS/Spoony-iOS/Source/Feature/Explore/Store/ExploreStore.swift:122-131 | A count replaces `spoonCount` and nothing else; an error changes nothing. |
| Explore.PickAndConfirmLocation | Spoony-iOS/Spoony-iOS/Source/Feature/Explore/Store/ExploreStore.swift:59-68 | Picking and confirming a district selects it, titles it, closes the picker, and issues exactly one request: a feed fetch for that district. |
| Explore.LateResultOverwrites | Spoony-iOS/Spoony-iOS/Source/Feature/Explore/Store/ExploreStore.swift:106-113 | A feed result that answers an older request still replaces the list, although the latest request issued is the one for the state now shown. |
| Detail.DetailToast | Spoony-iOS/Spoony-iOS/Source/Feature/Detail/DetailView/DetailViewStore.swift:86-90 | The store's toasts are grey, carry the message, use the default duration and sit at offset 539. |
| Detail.Prefix | Spoony-iOS/Spoony-iOS/Source/Feature/Detail/DetailView/DetailViewStore.swift:62 | `prefix(n)` is the first min(length, n) characters of the string. |
| Detail.StateFrom | Spoony-iOS/Spoony-iOS/Source/Feature/Detail/DetailView/DetailViewStore.swift:56-77 | The new state copies the review. Its date is cut to ten characters, the category name and icon come from the colour record, the spoon count is the stored user count, and loading and toast take their defaults. |
| Detail.DateCut | Spoony-iOS/Spoony-iOS/Source/Feature/Detail/DetailView/DetailViewStore.swift:62 | A date of at most ten characters is kept whole; a longer one keeps exactly its first ten. |
| Detail.DetailViewStore.constructor | Spoony-iOS/Spoony-iOS/Source/Feature/Detail/DetailView/DetailViewStore.swift:12-15 | The store starts from its initial state with a stored spoon count of 0, no calls made and no initial-value task waiting. |
| Detail.DetailViewStore.Send | Spoony-iOS/Spoony-iOS/Source/Feature/Detail/DetailView/DetailViewStore.swift:18-38 | Per intent, the exact new state and calls. Initial value asks for the spoon count with the configured user, and starts a task holding the intent's post. Scrap and unscrap flip at once. Scoop only sends the call. Add and the map link change nothing. |
| Detail.DetailViewStore.HandleScrapButton | Spoony-iOS/Spoony-iOS/Source/Feature/Detail/DetailView/DetailViewStore.swift:81-101 | Unscrap decrements the count, clears the flag and posts the removal toast. Scrap increments the count, sets the flag and posts the added toast. Each sends one call whose answer is never consulted. |
| Detail.DetailViewStore.HandleScoopResult | Spoony-iOS/Spoony-iOS/Source/Feature/Detail/DetailView/DetailViewStore.swift:105-118 | Only an answer of `true` flips `isScoop` and spends one spoon. `false` or an error leaves the state as it was. |
| Detail.DetailViewStore.ResumeInitialValue | Spoony-iOS/Spoony-iOS/Source/Feature/Detail/DetailView/DetailViewStore.swift:21-25 | A started task resumes with the spoon count. The count is stored, then loading starts and the review for the post the task captured is requested. A failed count fetch requests no review and changes nothing else. Either way the task is done. |
| Detail.DetailViewStore.ApplyReviewDetail | Spoony-iOS/Spoony-iOS/Source/Feature/Detail/DetailView/DetailViewStore.swift:44-53 | Loading always ends off. A review replaces the state with the stored spoon count; a failure only posts the failure toast. |
| Detail.ScrapThenUnscrap | Spoony-iOS/Spoony-iOS/Source/Feature/Detail/DetailView/DetailViewStore.swift:81-101 | Scrapping then unscrapping restores the count, whatever the server did with the two calls. |
| Detail.OpenDetail | Spoony-iOS/Spoony-iOS/Source/Feature/Detail/DetailView/DetailViewStore.swift:20-26 | Opening a detail requests the review for the intent's post. The review is shown with the spoon count fetched just before it, with loading off. |
| Home.SheetModeFor | Spoony-iOS/Spoony-iOS/Source/Feature/Home/Home.swift:69-87 | Exactly one sheet is chosen, with focused places first, then search results for a chosen location, then the pick list, then the fixed sheet. Each mode is stated as an if-and-only-if. |
| Home.FocusedPlacesWin | Spoony-iOS/Spoony-iOS/Source/Feature/Home/Home.swift:70-74 | Non-empty focused places give the place card, whatever the other lists hold. |
| Home.SearchNeedsLocation | Spoony-iOS/Spoony-iOS/Source/Feature/Home/Home.swift:75-80 | Without a current location, search results never decide the sheet. |
| Home.HomeScreen.constructor | Spoony-iOS/Spoony-iOS/Source/Feature/Home/Home.swift:13-17 | The sheet is presented, nothing is selected, the spoon count is 0 and nothing is requested. |
| Home.HomeScreen.FocusedPlacesChanged | Spoony-iOS/Spoony-iOS/Source/Feature/Home/Home.swift:31-35 | A change to non-empty places selects the first one; empty places, or no change, keep the selection. Non-empty places put the place card on screen. |
| Home.HomeScreen.PickListChanged | Spoony-iOS/Spoony-iOS/Source/Feature/Home/Home.swift:36-41 | Any actual change to the pick list clears the selection; nothing else changes. |
| Home.HomeScreen.SearchPickListChanged | Spoony-iOS/Spoony-iOS/Source/Feature/Home/Home.swift:75 | New search results change only that list; no handler touches the selection. |
| Home.HomeScreen.LocationBackTapped | Spoony-iOS/Spoony-iOS/Source/Feature/Home/Home.swift:49-52 | Back refetches the pick list and clears the current location. |
| Home.HomeScreen.StartTask | Spoony-iOS/Spoony-iOS/Source/Feature/Home/Home.swift:90-93 | Start-up presents the sheet and requests the spoon count first. |
| Home.HomeScreen.ResumeStartTask | Spoony-iOS/Spoony-iOS/Source/Feature/Home/Home.swift:92-99 | The pick list is requested only after a successful count, and only with no current location. An error skips both. |
| Home.FocusThenNewPickList | Spoony-iOS/Spoony-iOS/Source/Feature/Home/Home.swift:31-37 | Focusing places and then replacing the pick list leaves nothing selected, while the place card stays on screen. |

`Explore.ExploreStore.Dispatch` gives the following for each intent:

- `onAppear` issues the spoon-count and category-list requests.
- `locationTapped` stores the pick and enables the confirm button.
- Confirming behaves as `ChangeLocation`.
- The open, close and three `…Changed` intents each write one flag.
- `filterTapped` behaves as `ChangeFilter` and `categoryTapped` as `ChangeCategory`.
- `cellTapped` changes nothing.

## Left out

- Floating point is not modelled. The toast duration is an integer, only its sign matters, and offsets are unscaled integers: `.adjustedH` screen scaling is not applied. `RegisterState.keyboardHeight` is omitted. Coordinates are exact reals that are only copied.
- Side effects are left out: haptic feedback in `showToast`, `print` logging, the toast animation, and opening Naver Maps or the App Store through `UIApplication` (the map-link intent is modelled as changing nothing).
- Swift concurrency and the network stack are not modelled: `Task`, `@MainActor`, continuations and Moya providers. Each call is a request value in the store's log, and each completion is a separate apply step called with the result.
- `Explore.ExploreStore.ApplyCategoryListResult` applies the category-list step as one step. In the code, the list is stored and then a `MainActor.run` hop follows before the first category is selected.
- `Explore.ExploreStore.GetFeedList` builds the feed request from the state when the fetch is issued. `fetchFeedList` reads the selected category, location and sort order only when its task runs. An intent handled in between is not reflected in the request.
- `Detail.DetailViewStore.Send` reads `state.postId` for the scoop request at dispatch. `handleScoopButton` reads it inside its task.
- `Detail.DetailViewStore.HandleScrapButton` and `Detail.DetailViewStore.HandleScoopResult` count with unbounded integers. Swift's `zzimCount += 1`, `zzimCount -= 1` and `spoonCount -= 1` trap at the bounds of `Int`, and the model does not show that trap.
- `Report.ReportStore.RunReportTask` is a separate step, called when the submit task's body runs. The caller chooses that moment, and the scheduler that picks it is not modelled.
- Configuration constants (`Config.userId`, `Config.defaultHeader`) are parameters or constructor arguments. `ExploreTargetType.baseURL` is not modelled, including its `fatalError` when `Config.baseURL` is not a valid URL.
- Fresh `UUID()` values are parameters.
- Several types do not appear in the source files modelled here and are declared as minimal stand-ins:
  - `ExploreState`, `DetailState` (assumed to start with `isLoading` false and no toast), `ReportState`, `ReportType`, the district enum, `CategoryChip` and `ReviewDetailModel`;
  - `RegisterStep` (only the start case matters), `TextList` (a new row holds empty text), `PlaceInfo`, `PhotosPickerItem`, `UploadImage` and `UploadImageErrorState`;
  - `CardPlace` and the pick-list entries.
- The Home view model's initial lists are taken to be empty. `HomeViewModel.fetchPickList` itself, and the map view's writes to the selected place, are not part of this model.
- `Filter.SortKeyInjective` relies on `FilterType` having the case name as its raw value. `FilterType` (Spoony-iOS/Spoony-iOS/Source/Feature/Explore/FilterBottomSheet.swift:10) declares no raw type, yet Spoony-iOS/Spoony-iOS/Network/TargetType/ExploreTargetType.swift:52 uses `rawValue`.
- `Detail.Prefix` counts Unicode code points; Swift's `prefix` counts grapheme clusters. The two agree on the ASCII dates the server sends.
- The SwiftUI views are not modelled: the filter sheet body, cards, navigation bar, tab view, map view and bottom sheets. Their timers and sleeps are not modelled either.
- The detail view's own scrap button duplicates the store logic, and only the store's version is modelled.
