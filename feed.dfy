/** Feed transfer objects and their mapping to the entities the Explore screen shows. */
module Feed {
  import opened Common

  datatype CategoryColorResponse = CategoryColorResponse(
    categoryName: string,
    iconUrl: string,
    iconTextColor: string,
    iconBackgroundColor: string)

  datatype FeedResponse = FeedResponse(
    userId: int,
    userName: string,
    createdAt: string,
    userRegion: string,
    postId: int,
    title: string,
    categoryColorResponse: CategoryColorResponse,
    zzimCount: int)

  datatype FeedListResponse = FeedListResponse(feedResponseList: seq<FeedResponse>)

  /** A feed cell. `id` is the `UUID()` drawn when the entity is built. */
  datatype FeedEntity = FeedEntity(
    id: Uuid,
    postId: int,
    userName: string,
    userRegion: string,
    title: string,
    categorColorResponse: CategoryColorResponse,
    zzimCount: int)

  datatype ChipColorEntity = ChipColorEntity(
    name: string,
    iconUrl: string,
    textColor: string,
    backgroundColor: string)

  /** One response becomes one entity with the freshly drawn identifier `id`; every
      field but `userId` and `createdAt` is carried over unchanged. */
  function EntityOf(feed: FeedResponse, id: Uuid): (e: FeedEntity)
    ensures e.id == id && e.postId == feed.postId
    ensures e.userName == feed.userName && e.userRegion == feed.userRegion
    ensures e.title == feed.title && e.categorColorResponse == feed.categoryColorResponse
    ensures e.zzimCount == feed.zzimCount
  {
    FeedEntity(id, feed.postId, feed.userName, feed.userRegion, feed.title,
               feed.categoryColorResponse, feed.zzimCount)
  }

  /** `map` over the responses; `ids` are the identifiers drawn, one per response. */
  function MapFeeds(feeds: seq<FeedResponse>, ids: seq<Uuid>): (r: seq<FeedEntity>)
    requires |ids| == |feeds|
    ensures |r| == |feeds|
    ensures forall i :: 0 <= i < |feeds| ==>
      r[i].id == ids[i] &&
      r[i].postId == feeds[i].postId &&
      r[i].userName == feeds[i].userName &&
      r[i].userRegion == feeds[i].userRegion &&
      r[i].title == feeds[i].title &&
      r[i].categorColorResponse == feeds[i].categoryColorResponse &&
      r[i].zzimCount == feeds[i].zzimCount
  {
    if feeds == [] then []
    else [EntityOf(feeds[0], ids[0])] + MapFeeds(feeds[1..], ids[1..])
  }

  /** `FeedListResponse.toEntity`: same length, same order, the copied fields unchanged;
      `userId` and `createdAt` are not carried over. */
  function ToEntity(response: FeedListResponse, ids: seq<Uuid>): (r: seq<FeedEntity>)
    requires |ids| == |response.feedResponseList|
    ensures |r| == |response.feedResponseList|
    ensures forall i :: 0 <= i < |r| ==> r[i] == EntityOf(response.feedResponseList[i], ids[i])
  {
    MapFeeds(response.feedResponseList, ids)
  }

  /** Two responses that differ only in `userId` and `createdAt` give the same entities. */
  lemma {:induction false} ToEntityIgnoresUserAndDate(a: FeedListResponse, b: FeedListResponse, ids: seq<Uuid>)
    requires |a.feedResponseList| == |b.feedResponseList| == |ids|
    requires forall i :: 0 <= i < |ids| ==>
      a.feedResponseList[i].(userId := 0, createdAt := "") == b.feedResponseList[i].(userId := 0, createdAt := "")
    ensures ToEntity(a, ids) == ToEntity(b, ids)
  {
    var ra, rb := ToEntity(a, ids), ToEntity(b, ids);
    forall i | 0 <= i < |ids|
      ensures ra[i] == rb[i]
    {
      var fa, fb := a.feedResponseList[i], b.feedResponseList[i];
      assert fa.(userId := 0, createdAt := "") == fb.(userId := 0, createdAt := "");
      assert fa.postId == fb.postId && fa.userName == fb.userName && fa.userRegion == fb.userRegion;
      assert fa.title == fb.title && fa.categoryColorResponse == fb.categoryColorResponse;
      assert fa.zzimCount == fb.zzimCount;
    }
  }

  /** `CategoryColorResponse.toEntity`: a field-for-field renaming. */
  function ChipColorOf(c: CategoryColorResponse): (e: ChipColorEntity)
    ensures e.name == c.categoryName && e.iconUrl == c.iconUrl
    ensures e.textColor == c.iconTextColor && e.backgroundColor == c.iconBackgroundColor
    ensures ResponseOf(e) == c
  {
    ChipColorEntity(c.categoryName, c.iconUrl, c.iconTextColor, c.iconBackgroundColor)
  }

  /** The inverse renaming, used to state that `ChipColorOf` loses nothing. */
  function ResponseOf(e: ChipColorEntity): CategoryColorResponse
  {
    CategoryColorResponse(e.name, e.iconUrl, e.textColor, e.backgroundColor)
  }

  lemma ChipColorRoundTrip(e: ChipColorEntity)
    ensures ChipColorOf(ResponseOf(e)) == e
  {
  }
}
