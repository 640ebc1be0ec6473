/** The Explore API endpoints: path, HTTP method, request task, headers and validation. */
module ExploreTarget {
  import opened Filter
  import Report

  datatype ExploreTargetType =
    | GetUserFeeds(userId: int, location: string, sort: FilterType)
    | ReportPost(postId: int, userId: int, reportType: Report.ReportType, reportDetail: string)
    | GetCategories

  datatype HttpMethod = Get | Post

  datatype ParameterEncoding = JsonEncodingDefault

  datatype RequestTask =
    | RequestPlain
    | RequestParameters(parameters: map<string, string>, encoding: ParameterEncoding)

  datatype ValidationType = NoValidation | SuccessCodes | SuccessAndRedirectCodes

  function DigitChar(d: nat): (c: char)
    requires d < 10
    ensures '0' <= c <= '9' && c as int - '0' as int == d
  {
    ('0' as int + d) as char
  }

  /** Decimal digits of `n`, as string interpolation writes it. */
  function NatString(n: nat): (s: string)
    ensures |s| >= 1
    ensures forall i :: 0 <= i < |s| ==> '0' <= s[i] <= '9'
    ensures n < 10 <==> |s| == 1
  {
    if n < 10 then [DigitChar(n)] else NatString(n / 10) + [DigitChar(n % 10)]
  }

  lemma {:induction false} NatStringInjective(a: nat, b: nat)
    requires NatString(a) == NatString(b)
    ensures a == b
  {
    if a >= 10 && b >= 10 {
      var sa, sb := NatString(a / 10), NatString(b / 10);
      assert NatString(a) == sa + [DigitChar(a % 10)];
      assert NatString(b) == sb + [DigitChar(b % 10)];
      assert |sa| == |sb|;
      assert sa == NatString(a)[..|sa|] && sb == NatString(b)[..|sb|];
      NatStringInjective(a / 10, b / 10);
      assert DigitChar(a % 10) == NatString(a)[|sa|] == DigitChar(b % 10);
    } else if a < 10 && b < 10 {
      assert DigitChar(a) == NatString(a)[0] == DigitChar(b);
    }
  }

  /** `"\(n)"` for any integer: a negative number starts with the sign, any other with
      a digit, and the sign is followed by the digits of the magnitude. */
  function IntString(n: int): (s: string)
    ensures |s| >= 1
    ensures (s[0] == '-') <==> n < 0
    ensures n < 0 ==> s[1..] == NatString(-n)
    ensures forall i :: (if n < 0 then 1 else 0) <= i < |s| ==> '0' <= s[i] <= '9'
  {
    if n < 0 then "-" + NatString(-n) else NatString(n)
  }

  lemma IntStringInjective(a: int, b: int)
    requires IntString(a) == IntString(b)
    ensures a == b
  {
    if a < 0 && b < 0 {
      assert NatString(-a) == IntString(a)[1..] == IntString(b)[1..] == NatString(-b);
      NatStringInjective(-a, -b);
    } else if a >= 0 && b >= 0 {
      NatStringInjective(a, b);
    }
  }

  const FeedPathPrefix: string := "/feed/"
  const ReportPath: string := "/report"
  const CategoriesPath: string := "/post/categories"

  function Path(t: ExploreTargetType): (p: string)
    ensures t.GetUserFeeds? ==> p == FeedPathPrefix + IntString(t.userId)
    ensures t.ReportPost? ==> p == ReportPath
    ensures t.GetCategories? ==> p == CategoriesPath
  {
    match t
    case GetUserFeeds(userId, _, _) => FeedPathPrefix + IntString(userId)
    case ReportPost(_, _, _, _) => ReportPath
    case GetCategories => CategoriesPath
  }

  /** The second character of each path names its endpoint. */
  lemma PathMarker(t: ExploreTargetType)
    ensures |Path(t)| >= 2
    ensures Path(t)[1] == (match t case GetUserFeeds(_, _, _) => 'f' case ReportPost(_, _, _, _) => 'r' case GetCategories => 'p')
  {
  }

  /** The path tells the three endpoints apart, and the feed path tells users apart;
      the location and the sort order never reach the path. */
  lemma PathIdentifiesEndpoint(a: ExploreTargetType, b: ExploreTargetType)
    requires Path(a) == Path(b)
    ensures a.GetUserFeeds? <==> b.GetUserFeeds?
    ensures a.ReportPost? <==> b.ReportPost?
    ensures a.GetUserFeeds? ==> a.userId == b.userId
  {
    PathMarker(a);
    PathMarker(b);
    if a.GetUserFeeds? && b.GetUserFeeds? {
      assert IntString(a.userId) == Path(a)[|FeedPathPrefix|..] == Path(b)[|FeedPathPrefix|..] == IntString(b.userId);
      IntStringInjective(a.userId, b.userId);
    }
  }

  /** Only the report endpoint posts. */
  function Method(t: ExploreTargetType): (m: HttpMethod)
    ensures m == Post <==> t.ReportPost?
    ensures m == Get <==> (t.GetUserFeeds? || t.GetCategories?)
  {
    match t
    case GetUserFeeds(_, _, _) => Get
    case GetCategories => Get
    case ReportPost(_, _, _, _) => Post
  }

  /** Only the feed request carries parameters: exactly the location as `query` and the
      sort key as `sortBy`, JSON-encoded. The report carries no body. */
  function Task(t: ExploreTargetType): (task: RequestTask)
    ensures task.RequestParameters? <==> t.GetUserFeeds?
    ensures task.RequestParameters? ==>
      task.parameters.Keys == {"query", "sortBy"} &&
      task.parameters["query"] == t.location &&
      task.parameters["sortBy"] == SortKey(t.sort) &&
      task.encoding == JsonEncodingDefault
    ensures task.RequestPlain? <==> (t.ReportPost? || t.GetCategories?)
  {
    match t
    case GetUserFeeds(_, location, filter) =>
      RequestParameters(map["query" := location, "sortBy" := SortKey(filter)], JsonEncodingDefault)
    case GetCategories => RequestPlain
    case ReportPost(_, _, _, _) => RequestPlain
  }

  /** The feed request's parameters do not depend on the user: the user id travels
      only in the path. */
  lemma FeedParametersOmitUser(u1: int, u2: int, location: string, sort: FilterType)
    ensures Task(GetUserFeeds(u1, location, sort)) == Task(GetUserFeeds(u2, location, sort))
    ensures "userId" !in Task(GetUserFeeds(u1, location, sort)).parameters
  {
  }

  /** Every endpoint uses the configured default headers. */
  function Headers(t: ExploreTargetType, defaultHeader: map<string, string>): (h: map<string, string>)
    ensures h == defaultHeader
  {
    defaultHeader
  }

  /** Every endpoint validates with the success status codes. */
  function Validation(t: ExploreTargetType): (v: ValidationType)
    ensures v == SuccessCodes
  {
    SuccessCodes
  }
}
