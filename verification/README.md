# Paginated tweet stream and poop-period tally, in Dafny

This project models the two pieces of logic in the "does Elon Musk pee sitting
down" tool.

- **The pagination stream** (`src/api.rs`). `ApiResults<T>` is a `Stream` over
  the Twitter v2 API. It serves the items of the current page. When that page is
  used up, it requests the next one by appending the page's `next_token` to the
  base URL as `pagination_token`. Here it is a pure step function,
  `Api.PollNext`, over an immutable state: base URL, buffer, optional token, and
  a fused request slot. The slot holds either a request in flight or nothing
  (terminated). The HTTP request is not modelled. Each step instead takes the
  outcome of polling the in-flight request as an argument: not ready, a decoded
  page, or an error. `Pagination.Drain` runs the stream against a server that
  answers each request with the next page of a fixed list. `Api.TweetsQuery`
  builds the query of `get_user_tweets`.
- **The grouping tally** (`src/main.rs`). Tweets arrive newest first.
  - A tweet less than 15 minutes older than the current session's earliest tweet
    joins that session.
  - A closed session joins the current "poop period" if it starts less than
    8 hours (86400 / 3 s) before the period's end. Otherwise the period is
    flushed first.
  - When a period is flushed, its busiest session counts as poop tweets and the
    rest as non-poop tweets.

  `Grouping` holds the records. `Analysis` holds the main loop as a fold
  (`Observe`, `Fold`, and the method `Analyze`).

Times are whole seconds since the epoch. Counters are unbounded naturals.
Queries are sequences of decoded key/value pairs.

Where the behaviour is surprising, the model follows the code:

- An empty page ends the stream for that pull, even if it carries a token
  (`Api.EmptyPageWithTokenEnds`, `Pagination.EmptyFirstPageEndsDrain`). The
  `while let Some(..)` consumer therefore stops there. The token is kept, though,
  so a further pull would request the next page.
- A failed first request is followed by end-of-stream, because no token was ever
  received (`Api.FirstFailureEnds`).
- A token is always appended as a new `pagination_token` pair. This happens even
  if the base query already has one.
- `max_by_key` keeps the last of several equally busy sessions.
- A flushed period is replaced by one anchored at the tweet that opens the next
  session. The period then starts later than it ends
  (`Analysis.FlushedPeriodAnchoredAtNextTweet`).

## Model

| member | source | states |
|---|---|---|
| Api.PageItems | src/api.rs:195 | a page's items are its `data`, or none when the response has no `data` |
| Api.PageToken | src/api.rs:194 | a page carries a token exactly when the response has `meta` naming a next page, and then it is that token |
| Api.NextPageUrl | src/api.rs:180-185 | the follow-up URL keeps the base location and the whole base query, and appends one `pagination_token` pair holding the token |
| Api.Open | src/api.rs:151-160 | a new stream has an empty buffer and no token, and its one request targets the base URL itself; it satisfies the stream invariant |
| Api.PollNext | src/api.rs:168-202 | a buffered item is served first and nothing else changes; an exhausted stream returns the end and issues nothing; a request is issued exactly when the buffer is empty, the last request is over and a token is held, and it is the base URL plus that token; a not-ready request stays in flight with buffer and token unchanged; a page replaces token and buffer and returns its first item, or the end when it is empty whatever its token; a failure is returned with token and buffer unchanged |
| Api.PollNextSingleFlight | src/api.rs:179-200 | every pull keeps the stream invariant: items are only buffered once the request is over, and the request in flight is the one the held token names; a pull on a stream with a request in flight never issues another; a request is left in flight only by a pull that returns Pending |
| Api.EmptyPageWithTokenEnds | src/api.rs:193-196 | an empty page with a token makes the pull return the end, keeps the token, and a further pull requests the page that token names |
| Api.FirstFailureEnds | src/api.rs:179-198 | if the first request fails, the pull returns the error and the next pull returns the end with no request |
| Api.FailureRetriesSameToken | src/api.rs:179-198 | if a follow-up request fails, whether issued by this pull or still in flight from an earlier `Pending` pull, the pull returns the error, keeps the token and the empty buffer, and the next pull requests the same URL, the one that failed |
| Api.PendingStutters | src/api.rs:185-200 | a `Pending` pull is a stutter: the pull after it returns, and leaves, exactly what a single pull answered at once would; the request is issued by the first pull only |
| Api.NextPageUrlKeepsQuery | src/api.rs:180-185 | the next-page URL keeps the base location and every base pair in order, plus one trailing `pagination_token` pair; that key gains exactly the token and every other key's values are unchanged |
| Api.FieldsValue | src/api.rs:231-240 | the joined `tweet.fields` value of a non-empty field set is `created_at` |
| Api.NonEmptyFieldsAreCreatedAt | src/api.rs:231-240 | every non-empty field set is `{CreatedAt}`, so the join does not depend on iteration order |
| Api.TweetsQuery | src/api.rs:229-251 | no options give no pairs; `tweet.fields` is present iff the field set is non-empty, `max_results` iff given (in decimal), `end_time` iff given; each at most once, in that order |
| Api.ParamsQuery | src/api.rs:231-250 | each of `tweet.fields`, `max_results` and `end_time` carries exactly its given value, or none when absent; the pairs appear in that order |
| Api.GetUserTweets | src/api.rs:221-253 | the stream is a fresh stream on the user's tweet timeline whose query is the options' query |
| Api.MaxResultsRoundTrip | src/api.rs:242-244 | the single `max_results` value is all digits and reads back as the requested number |
| Query.AppendPairValues | src/api.rs:181-184 | appending a pair adds its value last under its key and leaves other keys' values unchanged |
| Decimal.Format | src/api.rs:243 | `usize::to_string` output is non-empty, all digits, with no leading zero, and is "0" exactly for zero |
| Decimal.ParseFormat | src/api.rs:243 | parsing the decimal rendering of n gives n back |
| Decimal.FormatInjective | src/api.rs:243 | distinct numbers get distinct renderings |
| Pagination.DrainBuffer | src/api.rs:175-177 | buffered items come out first, in order, before any request |
| Pagination.FirstPageDrained | src/api.rs:175-196 | when the pull that polls a request gets a page with items, the consumer sees all of that page's items before the stream does anything with the new token |
| Pagination.DrainFromRequest | src/api.rs:179-197 | from a stream about to poll a request, a well-behaved chain of pages (items and a token on every page but the last; the last, possibly empty, has no token) yields all their items in order and ends, issuing one follow-up request per page token, and leaves the stream exhausted |
| Pagination.DrainOpen | src/api.rs:151-202 | against such a chain, including a last or only page that is empty, a fresh stream yields the concatenation of the pages' items and ends for good; the requests after the first are the base URL plus each non-last page's token, so there are one fewer than the pages |
| Pagination.ChainRequestsLength | src/api.rs:180-185 | one follow-up request per page but the last |
| Pagination.SinglePageNoToken | src/api.rs:179-196 | one page without a token, empty or not, is drained completely, then every later pull, whatever polling answers, returns the end and issues no request: exactly one fetch in all |
| Pagination.EmptyFirstPageEndsDrain | src/api.rs:193-196 | if the first page is empty, the consumer sees no item and the stream ends without a follow-up request, even when that page carried a token; the stream keeps that token, so it is not exhausted |
| Pagination.ExhaustedEndsForever | src/api.rs:179-188 | an exhausted stream returns the end on every later pull, issues no request, and stays exhausted |
| Grouping.NewSession | src/main.rs:30-36 | a new session starts and ends at the tweet's time and holds one tweet; the tweet must carry a time |
| Grouping.SessionShouldInclude | src/main.rs:38-40 | a tweet belongs to the session exactly when it is later than 900 s before the session's earliest tweet |
| Grouping.SessionWindow | src/main.rs:38-40 | once a tweet is included, every younger tweet is included too |
| Grouping.SessionAdd | src/main.rs:42-45 | adding a tweet moves the start to the tweet's time, keeps the end, and adds exactly one tweet |
| Grouping.NewPeriod | src/main.rs:56-62 | a new period starts and ends at the given time and has no sessions, so no tweets, no poop tweets and no non-poop tweets |
| Grouping.PeriodShouldInclude | src/main.rs:64-67 | a session belongs to the period exactly when it starts later than 28800 s before the period's end |
| Grouping.PeriodWindow | src/main.rs:64-67 | once a session is included, every later-starting session is included too |
| Grouping.PeriodAdd | src/main.rs:69-72 | adding a session appends it, moves the start to its start, keeps the end, and adds its tweets to the total |
| Grouping.PoopSessionIndex | src/main.rs:74-78 | there is no busiest session only for an empty period; otherwise it is one with the most tweets, and no later session has as many |
| Grouping.PoopSession | src/main.rs:74-78 | the busiest session is absent only when there are no sessions; otherwise it has at least as many tweets as every session, and it is one of the sessions with no later session as busy |
| Grouping.NumTweets | src/main.rs:80-82 | a period's total is 0 without sessions and at least every session's count |
| Grouping.SumTweetsConcat | src/main.rs:80-82 | the total of two runs of sessions is the sum of their totals |
| Grouping.NumPoopTweets | src/main.rs:84-88 | the poop tweets are the maximum session size: at least each session's count and equal to one of them, or 0 when there are no sessions |
| Grouping.SessionAtMostSum | src/main.rs:80-82 | every session's tweet count is at most the period's total |
| Grouping.PoopTweetsAtMostTotal | src/main.rs:80-91 | the poop tweets never exceed the period's total |
| Grouping.NumNonPoopTweets | src/main.rs:90-92 | the subtraction cannot underflow, and poop plus non-poop tweets equal the period's total |
| Grouping.PeriodAddPoopTweets | src/main.rs:69-88 | after a session is added, the poop tweets are the larger of the old maximum and the new session's count |
| Analysis.Start | src/main.rs:106-111 | the loop starts with no tweets, no open period or session, and zero totals |
| Analysis.Observe | src/main.rs:127-155 | one tweet adds one to the count and sets the end time to its time; with no open session it opens one; a tweet the session should include joins it; otherwise the session is closed into the period and the tweet opens a new one, and when the period should not include the closed session the period is first flushed (its poop and non-poop tweets added to the totals) and replaced by a new period at the tweet's time holding just that session; the totals change only on a flush |
| Analysis.ObserveAccounted | src/main.rs:130-155 | one tweet keeps every tweet accounted for as flushed or held in the open period or session |
| Analysis.Fold | src/main.rs:127-155 | the loop counts every tweet, and the end time it leaves is the oldest tweet's time |
| Analysis.FoldAccounted | src/main.rs:106-155 | after any run of tweets, every tweet is accounted for, the flushed totals never exceed the count, and a period and session are open |
| Analysis.FoldAppend | src/main.rs:127-155 | folding one more tweet is one more step of the loop body |
| Analysis.FoldConcat | src/main.rs:113-156 | folding two runs of tweets one after the other is folding their concatenation, so each outer refetch continues the same fold |
| Analysis.Analyze | src/main.rs:106-156 | the loop counts every tweet, and its poop and non-poop totals match the fold and together never exceed the count |
| Analysis.FlushedPeriodAnchoredAtNextTweet | src/main.rs:144-150 | take tweets at times a > b > c, with a and b a poop period apart and b and c a session timeout apart; after them the open period ends at c but starts at b, and the first session was flushed as one poop tweet |

## Left out

- HTTP transport, bearer authentication, `error_for_status` and JSON decoding (src/api.rs:105-127) are library calls. A fetch is an argument of the step: not ready, a decoded page, or an error.
- The `Pin`/`Future`/`Fuse`/`Context` machinery is replaced by an explicit in-flight / terminated slot. Waker registration is not modelled.
- `Url::join` is not modelled. The timeline URL is formed by concatenation and never fails (`ApiError::Url` is never produced), and user ids that change the path are not considered.
- Query percent-encoding is not modelled. Pairs are kept decoded.
- `end_time`'s RFC 3339 formatting by chrono is a function argument of `TweetsQuery`.
- Api.FieldsValue: the comma-join of the field set relies on `TweetField` having the single variant `CreatedAt`. Hash-set iteration order with several fields is not modelled.
- Decimal.Format: `usize` is unbounded here, so a value above 2^64-1 is also rendered.
- The `f64` computation of the poop period is the exact integer 28800, which is what rounding yields.
- Grouping.NumTweets: `usize` sums are unbounded, so overflow of a count is not modelled.
- Timestamps are whole seconds. `chrono` durations carry nanoseconds, which Twitter's `created_at` does not use.
- A tweet without `created_at` panics in the source. Here it is a precondition (`Grouping.Dated`).
- `main`'s outer refetch loop (`MIN_TWEETS_TO_ANALYZE`) is not a loop of the model. The fold consumes a given sequence of tweets, and `Analysis.FoldConcat` shows that batches fetched one after another continue a single fold. The tokio runtime, environment variables and `println!` output are left out.
- `Pagination.Drain` answers every request at once. `Api.PendingStutters` shows that a `Pending` pull followed by a ready one ends where a single ready pull would.
- `get_user_by_username` (an unwrap over a network result), `ApiResult::data` and the `BearerToken` formatting are left out.
- The `Tweet`'s `id` and `text`, and the `ApiMeta` ids and counts, are carried but never inspected, as in the source.
