/** The paginated tweet stream of `src/api.rs`: the page shape the server
    returns, the `ApiResults` stream state, one `poll_next` as a pure step
    over that state, and the query built by `get_user_tweets`.

    The HTTP request behind a page is not modelled: the step takes the
    outcome of polling the in-flight request as an argument. */
module Api {
  import opened Wrappers
  import opened Query
  import Decimal

  /* ---------------------------------------------------------------- */
  /* Records                                                          */
  /* ---------------------------------------------------------------- */

  datatype TweetField = CreatedAt

  /** The snake_case `Display` of a field. */
  function FieldName(f: TweetField): string {
    match f
    case CreatedAt => "created_at"
  }

  /** A tweet; `createdAt` is whole seconds since the epoch. */
  datatype Tweet = Tweet(id: string, text: string, createdAt: Option<int>)

  datatype GetTweetOpts = GetTweetOpts(
    tweetFields: set<TweetField>,
    maxResults: Option<nat>,
    endTime: Option<int>)

  datatype ApiMeta = ApiMeta(
    resultCount: nat,
    oldestId: Option<string>,
    newestId: Option<string>,
    nextToken: Option<string>,
    previousToken: Option<string>)

  /** One decoded response body: `{ data?: [T], meta?: ApiMeta }`. */
  datatype ApiData<T> = ApiData(data: Option<seq<T>>, meta: Option<ApiMeta>)

  /** What reqwest reports: the transport failed, the status was not a
      success (checked before decoding), or the body did not decode. */
  datatype RequestFailure = Transport | Status(code: nat) | Decode

  datatype ApiError = Reqwest(failure: RequestFailure) | UrlParse

  /** `data.unwrap_or_default()`: the page's items, or none when the
      response has no `data`. */
  function PageItems<T>(page: ApiData<T>): (items: seq<T>)
    ensures page.data.None? ==> items == []
    ensures page.data.Some? ==> items == page.data.value
  {
    UnwrapOr(page.data, [])
  }

  /** `meta.and_then(|meta| meta.next_token)`: a token only when the
      response has `meta` and that `meta` names a next page. */
  function PageToken<T>(page: ApiData<T>): (token: Option<string>)
    ensures token.Some? <==> page.meta.Some? && page.meta.value.nextToken.Some?
    ensures token.Some? ==> token == page.meta.value.nextToken
  {
    match page.meta
    case Some(meta) => meta.nextToken
    case None => None
  }

  /* ---------------------------------------------------------------- */
  /* The stream                                                       */
  /* ---------------------------------------------------------------- */

  const PAGINATION_TOKEN: string := "pagination_token"

  /** The fused request slot: a request for `url` that has not yet produced
      its result, or a request that has (the `Fuse` is terminated). */
  datatype Fetch = InFlight(url: Url) | Terminated

  /** The state of `ApiResults<T>`. */
  datatype ApiResults<T> = ApiResults(
    url: Url,
    result: Fetch,
    items: seq<T>,
    paginationToken: Option<string>)

  /** What polling the in-flight request yields on this pull. A fetch only
      fails through reqwest, so a failure is a `RequestFailure`; the stream
      reports it as `ApiError::Reqwest`. */
  datatype Outcome<T> = NotReady | Fetched(page: ApiData<T>) | Failed(failure: RequestFailure)

  /** `Poll<Option<Result<T>>>`: not ready, an item, an error, or the end. */
  datatype Poll<T> = Pending | Item(item: T) | Error(error: ApiError) | End

  /** The state after one pull, what the pull returned, and the URL of the
      request the pull issued, if it issued one. */
  datatype Step<T> = Step(next: ApiResults<T>, poll: Poll<T>, started: Option<Url>)

  /** Everything in the buffer was yielded, the last request is over, and
      the server gave no token: the stream is exhausted. */
  predicate Exhausted<T>(s: ApiResults<T>) {
    s.items == [] && s.result.Terminated? && s.paginationToken.None?
  }

  /** The pull polls a request (an in-flight one, or one it issues now). */
  predicate Polls<T>(s: ApiResults<T>) {
    s.items == [] && (s.result.InFlight? || s.paginationToken.Some?)
  }

  /** The request for the page after the one that carried `token`: the
      base URL with one more `pagination_token` pair. */
  function NextPageUrl(url: Url, token: string): (next: Url)
    ensures next.location == url.location
    ensures next.query == url.query + [Pair(PAGINATION_TOKEN, token)]
  {
    AppendPair(url, PAGINATION_TOKEN, token)
  }

  /** The URL the stream fetches while it holds `token`: the base URL
      before any token, the next-page URL after. */
  function RequestUrl<T>(s: ApiResults<T>): Url {
    match s.paginationToken
    case None => s.url
    case Some(token) => NextPageUrl(s.url, token)
  }

  /** The state invariant: items are only buffered once a request is over,
      and the request in flight is the one the held token names. */
  predicate Valid<T>(s: ApiResults<T>) {
    s.result.InFlight? ==> s.items == [] && s.result.url == RequestUrl(s)
  }

  /** `ApiResults::get`: the first request targets the base URL itself, the
      buffer is empty and there is no token yet. */
  function Open<T>(url: Url): (s: ApiResults<T>)
    ensures s.result == InFlight(url) && s.url == url
    ensures s.items == [] && s.paginationToken.None?
    ensures Valid(s) && Polls(s)
  {
    ApiResults(url, InFlight(url), [], None)
  }

  /** One `poll_next`. */
  function PollNext<T>(s: ApiResults<T>, outcome: Outcome<T>): (r: Step<T>)
    ensures r.next.url == s.url
    // a buffered item is served first, and nothing else happens
    ensures s.items != [] ==> r == Step(s.(items := s.items[1..]), Item(s.items[0]), None)
    // an exhausted stream stays exhausted and issues no request
    ensures Exhausted(s) ==> r == Step(s, End, None)
    // a request is issued exactly when the buffer is empty, the previous
    // request is over, and there is a token; it is the base URL with the
    // token appended
    ensures r.started.Some? <==> s.items == [] && s.result.Terminated? && s.paginationToken.Some?
    ensures r.started.Some? ==> r.started.value == NextPageUrl(s.url, s.paginationToken.value)
    // a request that is not ready stays in flight, nothing else changes
    ensures r.poll.Pending? <==> Polls(s) && outcome.NotReady?
    ensures r.poll.Pending? && s.result.InFlight? ==> r.next == s
    ensures r.poll.Pending? && s.result.Terminated? ==>
              r.next == s.(result := InFlight(r.started.value))
    // a page replaces both token and buffer, and its first item is returned
    ensures Polls(s) && outcome.Fetched? ==>
              && r.next.result.Terminated?
              && r.next.paginationToken == PageToken(outcome.page)
              && (PageItems(outcome.page) == [] ==> r.poll.End? && r.next.items == [])
              && (PageItems(outcome.page) != [] ==>
                    r.poll == Item(PageItems(outcome.page)[0])
                    && r.next.items == PageItems(outcome.page)[1..])
    // a failure is surfaced; token and buffer stay as they were
    ensures Polls(s) && outcome.Failed? ==>
              r.poll == Error(Reqwest(outcome.failure)) && r.next == s.(result := Terminated)
  {
    if s.items != [] then
      Step(s.(items := s.items[1..]), Item(s.items[0]), None)
    else if s.result.Terminated? && s.paginationToken.None? then
      Step(s, End, None)
    else
      var url := if s.result.InFlight? then s.result.url else RequestUrl(s);
      var started := if s.result.InFlight? then None else Some(url);
      match outcome
      case NotReady =>
        Step(s.(result := InFlight(url)), Pending, started)
      case Fetched(page) =>
        var items := PageItems(page);
        var token := PageToken(page);
        if items == [] then
          Step(s.(result := Terminated, items := [], paginationToken := token), End, started)
        else
          Step(s.(result := Terminated, items := items[1..], paginationToken := token), Item(items[0]), started)
      case Failed(f) =>
        Step(s.(result := Terminated), Error(Reqwest(f)), started)
  }

  /* ---------------------------------------------------------------- */
  /* Properties of single pulls                                       */
  /* ---------------------------------------------------------------- */

  /** Every pull keeps the state invariant, and a pull on a stream whose
      request is still in flight never issues a second request. */
  lemma PollNextSingleFlight<T>(s: ApiResults<T>, outcome: Outcome<T>)
    requires Valid(s)
    ensures Valid(PollNext(s, outcome).next)
    ensures s.result.InFlight? ==> PollNext(s, outcome).started.None?
    ensures PollNext(s, outcome).next.result.InFlight? ==> PollNext(s, outcome).poll.Pending?
  {
  }

  /** An empty page ends the stream for this pull even when it carries a
      token; the token is kept, so a further pull requests the next page. */
  lemma EmptyPageWithTokenEnds<T>(s: ApiResults<T>, page: ApiData<T>, token: string, later: Outcome<T>)
    requires Polls(s)
    requires PageItems(page) == [] && PageToken(page) == Some(token)
    ensures PollNext(s, Fetched(page)).poll.End?
    ensures !Exhausted(PollNext(s, Fetched(page)).next)
    ensures PollNext(PollNext(s, Fetched(page)).next, later).started == Some(NextPageUrl(s.url, token))
  {
  }

  /** A failed first request is followed by the end of the stream: no token
      was ever received, so nothing is re-requested. */
  lemma FirstFailureEnds<T>(url: Url, e: RequestFailure, later: Outcome<T>)
    ensures PollNext(Open<T>(url), Failed(e)).poll == Error(Reqwest(e))
    ensures Exhausted(PollNext(Open<T>(url), Failed(e)).next)
    ensures PollNext(PollNext(Open<T>(url), Failed(e)).next, later) ==
            Step(PollNext(Open<T>(url), Failed(e)).next, End, None)
  {
  }

  /** A failed follow-up request, whether issued by this pull or by an
      earlier one that got `Pending`, is retried by the next pull: with the
      same token, against the same URL, and with the buffer still empty. */
  lemma FailureRetriesSameToken<T>(s: ApiResults<T>, token: string, e: RequestFailure, later: Outcome<T>)
    requires Valid(s) && Polls(s) && s.paginationToken == Some(token)
    ensures s.result.InFlight? ==> s.result.url == NextPageUrl(s.url, token)
    ensures PollNext(s, Failed(e)).poll == Error(Reqwest(e))
    ensures PollNext(s, Failed(e)).next.paginationToken == Some(token)
    ensures PollNext(s, Failed(e)).next.items == []
    ensures PollNext(PollNext(s, Failed(e)).next, later).started == Some(NextPageUrl(s.url, token))
  {
  }

  /** A `Pending` answer is a stutter: polling once more gets the same
      result and state as if the request had been ready at once. The
      request is issued by the first pull, and the second issues none. */
  lemma PendingStutters<T>(s: ApiResults<T>, outcome: Outcome<T>)
    requires Polls(s)
    ensures PollNext(s, NotReady).poll.Pending?
    ensures PollNext(PollNext(s, NotReady).next, outcome).poll == PollNext(s, outcome).poll
    ensures PollNext(PollNext(s, NotReady).next, outcome).next == PollNext(s, outcome).next
    ensures PollNext(s, NotReady).started == PollNext(s, outcome).started
    ensures PollNext(PollNext(s, NotReady).next, outcome).started.None?
  {
  }

  /** The follow-up request carries every pair of the base query, unchanged
      and in order, then exactly one more `pagination_token` pair: the token. */
  lemma NextPageUrlKeepsQuery(url: Url, token: string, key: string)
    ensures NextPageUrl(url, token).location == url.location
    ensures NextPageUrl(url, token).query == url.query + [Pair(PAGINATION_TOKEN, token)]
    ensures Values(NextPageUrl(url, token).query, PAGINATION_TOKEN) == Values(url.query, PAGINATION_TOKEN) + [token]
    ensures key != PAGINATION_TOKEN ==> Values(NextPageUrl(url, token).query, key) == Values(url.query, key)
  {
    AppendPairValues(url, PAGINATION_TOKEN, token, key);
    assert NextPageUrl(url, token).query == NextPageUrl(url, token).query[..|url.query|] + [Pair(PAGINATION_TOKEN, token)];
  }

  /* ---------------------------------------------------------------- */
  /* get_user_tweets                                                  */
  /* ---------------------------------------------------------------- */

  const API_BASE: string := "https://api.twitter.com"
  const TWEET_FIELDS: string := "tweet.fields"
  const MAX_RESULTS: string := "max_results"
  const END_TIME: string := "end_time"

  /** The comma-joined field names. `TweetField` has a single variant, so a
      non-empty set is `{CreatedAt}` and the set's iteration order does not
      matter. */
  function FieldsValue(fields: set<TweetField>): (v: string)
    requires fields != {}
    ensures v == "created_at"
  {
    FieldName(CreatedAt)
  }

  /** `TweetField` has one variant, so every non-empty field set is the
      same set, and the joined value does not depend on iteration order. */
  lemma NonEmptyFieldsAreCreatedAt(fields: set<TweetField>)
    requires fields != {}
    ensures fields == {CreatedAt}
  {
    var f :| f in fields;
    assert f == CreatedAt;
    assert forall g :: g in fields ==> g == CreatedAt;
  }

  /** Where each parameter stands in the query `get_user_tweets` builds. */
  function ParamRank(key: string): int {
    if key == TWEET_FIELDS then 0
    else if key == MAX_RESULTS then 1
    else if key == END_TIME then 2
    else 3
  }

  /** The three parameter names are distinct, so each has its own rank. */
  lemma ParamKeys()
    ensures TWEET_FIELDS != MAX_RESULTS && TWEET_FIELDS != END_TIME && MAX_RESULTS != END_TIME
    ensures ParamRank(TWEET_FIELDS) == 0 && ParamRank(MAX_RESULTS) == 1 && ParamRank(END_TIME) == 2
  {
  }

  /** The value of a parameter that may be absent, as a list of values. */
  function AsList(value: Option<string>): seq<string> {
    if value.Some? then [value.value] else []
  }

  /** The pair `append_pair` adds when the parameter is given, else nothing. */
  function OptionalPair(key: string, value: Option<string>): (q: seq<Pair>)
    ensures |q| <= 1
    ensures forall i :: 0 <= i < |q| ==> q[i].key == key
  {
    if value.Some? then [Pair(key, value.value)] else []
  }

  lemma OptionalPairValues(key: string, value: Option<string>, k: string)
    ensures Values(OptionalPair(key, value), k) == if k == key then AsList(value) else []
  {
  }

  /** The values under `key` of the three optional parameters, one after the other. */
  lemma ValuesOfParams(fields: Option<string>, max: Option<string>, end: Option<string>, key: string)
    ensures Values(OptionalPair(TWEET_FIELDS, fields) + OptionalPair(MAX_RESULTS, max) + OptionalPair(END_TIME, end), key) ==
            (if key == TWEET_FIELDS then AsList(fields) else [])
            + (if key == MAX_RESULTS then AsList(max) else [])
            + (if key == END_TIME then AsList(end) else [])
  {
    var a, b, c := OptionalPair(TWEET_FIELDS, fields), OptionalPair(MAX_RESULTS, max), OptionalPair(END_TIME, end);
    ValuesConcat(a, b, key);
    ValuesConcat(a + b, c, key);
    OptionalPairValues(TWEET_FIELDS, fields, key);
    OptionalPairValues(MAX_RESULTS, max, key);
    OptionalPairValues(END_TIME, end, key);
  }

  /** Three optional parameters of increasing rank stay in rank order. */
  lemma RankOfThree(v1: Option<string>, v2: Option<string>, v3: Option<string>)
    ensures var q := OptionalPair(TWEET_FIELDS, v1) + OptionalPair(MAX_RESULTS, v2) + OptionalPair(END_TIME, v3);
            && (forall i :: 0 <= i < |q| ==> ParamRank(q[i].key) < 3)
            && (forall i, j :: 0 <= i < j < |q| ==> ParamRank(q[i].key) < ParamRank(q[j].key))
  {
  }

  /** The three optional parameters of `get_user_tweets`, each appended
      only when it is given, in this order. */
  function ParamsQuery(fields: Option<string>, max: Option<string>, end: Option<string>): (q: seq<Pair>)
    ensures Values(q, TWEET_FIELDS) == AsList(fields)
    ensures Values(q, MAX_RESULTS) == AsList(max)
    ensures Values(q, END_TIME) == AsList(end)
    ensures forall i :: 0 <= i < |q| ==> ParamRank(q[i].key) < 3
    ensures forall i, j :: 0 <= i < j < |q| ==> ParamRank(q[i].key) < ParamRank(q[j].key)
  {
    ParamKeys();
    RankOfThree(fields, max, end);
    ValuesOfParams(fields, max, end, TWEET_FIELDS);
    ValuesOfParams(fields, max, end, MAX_RESULTS);
    ValuesOfParams(fields, max, end, END_TIME);
    OptionalPair(TWEET_FIELDS, fields) + OptionalPair(MAX_RESULTS, max) + OptionalPair(END_TIME, end)
  }

  /** The query pairs of `get_user_tweets`; `formatTime` stands for the
      RFC 3339 rendering of `end_time`. */
  function TweetsQuery(opts: Option<GetTweetOpts>, formatTime: int -> string): (q: seq<Pair>)
    ensures opts.None? ==> q == []
    ensures Values(q, TWEET_FIELDS) ==
              if opts.Some? && opts.value.tweetFields != {} then [FieldsValue(opts.value.tweetFields)] else []
    ensures Values(q, MAX_RESULTS) ==
              if opts.Some? && opts.value.maxResults.Some? then [Decimal.Format(opts.value.maxResults.value)] else []
    ensures Values(q, END_TIME) ==
              if opts.Some? && opts.value.endTime.Some? then [formatTime(opts.value.endTime.value)] else []
    ensures forall i :: 0 <= i < |q| ==> ParamRank(q[i].key) < 3
    ensures forall i, j :: 0 <= i < j < |q| ==> ParamRank(q[i].key) < ParamRank(q[j].key)
  {
    match opts
    case None => []
    case Some(o) =>
      ParamsQuery(
        if o.tweetFields != {} then Some(FieldsValue(o.tweetFields)) else None,
        if o.maxResults.Some? then Some(Decimal.Format(o.maxResults.value)) else None,
        if o.endTime.Some? then Some(formatTime(o.endTime.value)) else None)
  }

  /** `get_user_tweets`: a stream over the user's tweet timeline whose first
      request carries exactly the optional parameters that were given. */
  function GetUserTweets(userId: string, opts: Option<GetTweetOpts>, formatTime: int -> string): (s: ApiResults<Tweet>)
    ensures s == Open(s.url)
    ensures s.url.location == API_BASE + "/2/users/" + userId + "/tweets"
    ensures s.url.query == TweetsQuery(opts, formatTime)
  {
    Open(Url(API_BASE + "/2/users/" + userId + "/tweets", TweetsQuery(opts, formatTime)))
  }

  /** The `max_results` value the server receives reads back as the number
      the caller asked for. */
  lemma MaxResultsRoundTrip(opts: GetTweetOpts, formatTime: int -> string)
    requires opts.maxResults.Some?
    ensures |Values(TweetsQuery(Some(opts), formatTime), MAX_RESULTS)| == 1
    ensures Decimal.AllDigits(Values(TweetsQuery(Some(opts), formatTime), MAX_RESULTS)[0])
    ensures Decimal.Parse(Values(TweetsQuery(Some(opts), formatTime), MAX_RESULTS)[0]) == opts.maxResults.value
  {
    Decimal.ParseFormat(opts.maxResults.value);
  }
}
