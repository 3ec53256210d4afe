/** The tweet sessions and "poop periods" of `src/main.rs`. Times are whole
    seconds since the epoch; tweets arrive newest first, so a session or a
    period grows backwards in time: `end` is fixed and `start` moves. */
module Grouping {
  import opened Wrappers
  import opened Api

  /** `TWEET_SESSION_TIMEOUT_SECS`: 15 minutes. */
  const TWEET_SESSION_TIMEOUT_SECS: int := 15 * 60

  /** `(24 * 60 * 60 / POOPS_PER_DAY).round()` with `POOPS_PER_DAY = 3`:
      the quotient is exact, so rounding changes nothing. */
  const POOP_PERIOD_SECS: int := 24 * 60 * 60 / 3

  /** A run of tweets with gaps shorter than the session timeout. */
  datatype TweetSession = TweetSession(end: int, start: int, numTweets: nat)

  /** A run of sessions within one poop period of the period's end. */
  datatype PoopPeriod = PoopPeriod(end: int, start: int, sessions: seq<TweetSession>)

  /** The `created_at.unwrap()` the source performs on every tweet it groups. */
  predicate Dated(tweet: Tweet) {
    tweet.createdAt.Some?
  }

  /* ---------------------------------------------------------------- */
  /* TweetSession                                                     */
  /* ---------------------------------------------------------------- */

  /** `TweetSession::new`: a session of one tweet. */
  function NewSession(tweet: Tweet): (s: TweetSession)
    requires Dated(tweet)
    ensures s.start == s.end == tweet.createdAt.value
    ensures s.numTweets == 1
  {
    TweetSession(tweet.createdAt.value, tweet.createdAt.value, 1)
  }

  /** `TweetSession::should_include`: the tweet is less than the timeout
      older than the session's earliest tweet, i.e. it falls after the
      cut-off 15 minutes before that tweet. */
  function SessionShouldInclude(s: TweetSession, tweet: Tweet): (b: bool)
    requires Dated(tweet)
    ensures b <==> tweet.createdAt.value > s.start - 900
  {
    s.start - tweet.createdAt.value < TWEET_SESSION_TIMEOUT_SECS
  }

  /** `TweetSession::add`: the tweet becomes the session's earliest. */
  function SessionAdd(s: TweetSession, tweet: Tweet): (r: TweetSession)
    requires Dated(tweet)
    ensures r.start == tweet.createdAt.value
    ensures r.end == s.end
    ensures r.numTweets == s.numTweets + 1
  {
    s.(start := tweet.createdAt.value, numTweets := s.numTweets + 1)
  }

  /** The session window is a cut-off in time: every tweet younger than an
      included one is included too. */
  lemma SessionWindow(s: TweetSession, tweet: Tweet, younger: Tweet)
    requires Dated(tweet) && Dated(younger)
    ensures SessionShouldInclude(s, tweet) && younger.createdAt.value >= tweet.createdAt.value ==>
              SessionShouldInclude(s, younger)
  {
  }

  /* ---------------------------------------------------------------- */
  /* PoopPeriod                                                       */
  /* ---------------------------------------------------------------- */

  /** Total tweets of the sessions. */
  function SumTweets(sessions: seq<TweetSession>): nat {
    if sessions == [] then 0 else SumTweets(sessions[..|sessions| - 1]) + sessions[|sessions| - 1].numTweets
  }

  /** The total of two runs of sessions is the sum of their totals, so the
      order in which sessions are summed does not matter. */
  lemma {:induction false} SumTweetsConcat(a: seq<TweetSession>, b: seq<TweetSession>)
    ensures SumTweets(a + b) == SumTweets(a) + SumTweets(b)
    decreases |b|
  {
    if b != [] {
      var last := |b| - 1;
      assert (a + b)[..|a + b| - 1] == a + b[..last];
      SumTweetsConcat(a, b[..last]);
    } else {
      assert a + b == a;
    }
  }

  /** `PoopPeriod::num_tweets`: the sum of its sessions' tweets, which is
      0 without sessions and at least any one session's count. */
  function NumTweets(p: PoopPeriod): (n: nat)
    ensures p.sessions == [] ==> n == 0
    ensures forall j :: 0 <= j < |p.sessions| ==> p.sessions[j].numTweets <= n
  {
    EachSessionAtMostSum(p.sessions);
    SumTweets(p.sessions)
  }

  /** `PoopPeriod::new`. */
  function NewPeriod(end: int): (p: PoopPeriod)
    ensures p.start == p.end == end
    ensures p.sessions == []
    ensures NumTweets(p) == 0 && NumPoopTweets(p) == 0 && NumNonPoopTweets(p) == 0
  {
    PoopPeriod(end, end, [])
  }

  /** `PoopPeriod::should_include`: the session starts less than one poop
      period before the period's end, i.e. after the cut-off 8 hours before
      that end. */
  function PeriodShouldInclude(p: PoopPeriod, s: TweetSession): (b: bool)
    ensures b <==> s.start > p.end - 28800
  {
    p.end - s.start < POOP_PERIOD_SECS
  }

  /** The period window is a cut-off in time: a session starting later
      than one that is taken is taken too. */
  lemma PeriodWindow(p: PoopPeriod, s: TweetSession, later: TweetSession)
    ensures PeriodShouldInclude(p, s) && later.start >= s.start ==> PeriodShouldInclude(p, later)
  {
  }

  /** `PoopPeriod::add`: the session becomes the period's earliest. */
  function PeriodAdd(p: PoopPeriod, s: TweetSession): (r: PoopPeriod)
    ensures r.sessions == p.sessions + [s]
    ensures r.start == s.start && r.end == p.end
    ensures NumTweets(r) == NumTweets(p) + s.numTweets
  {
    var r := PoopPeriod(p.end, s.start, p.sessions + [s]);
    assert r.sessions[..|r.sessions| - 1] == p.sessions;
    r
  }

  /** Index of the session `max_by_key(num_tweets)` picks: one with the most
      tweets, the last such one on a tie; none for an empty list. */
  function PoopSessionIndex(sessions: seq<TweetSession>): (k: Option<nat>)
    ensures k.None? <==> sessions == []
    ensures k.Some? ==> k.value < |sessions|
    ensures k.Some? ==> forall j :: 0 <= j < |sessions| ==> sessions[j].numTweets <= sessions[k.value].numTweets
    ensures k.Some? ==> forall j :: k.value < j < |sessions| ==> sessions[j].numTweets < sessions[k.value].numTweets
  {
    if sessions == [] then None
    else
      var last := |sessions| - 1;
      var best := PoopSessionIndex(sessions[..last]);
      if best.None? || sessions[last].numTweets >= sessions[best.value].numTweets then Some(last)
      else best
  }

  /** `PoopPeriod::poop_session`: a session with the most tweets, and of
      several equally busy ones the last (the earliest in time). */
  function PoopSession(p: PoopPeriod): (s: Option<TweetSession>)
    ensures s.None? <==> p.sessions == []
    ensures s.Some? ==> forall j :: 0 <= j < |p.sessions| ==> p.sessions[j].numTweets <= s.value.numTweets
    ensures s.Some? ==>
              exists k :: && 0 <= k < |p.sessions| && p.sessions[k] == s.value
                          && forall j :: k < j < |p.sessions| ==> p.sessions[j].numTweets < s.value.numTweets
  {
    match PoopSessionIndex(p.sessions)
    case None => None
    case Some(k) => Some(p.sessions[k])
  }

  /** `PoopPeriod::num_poop_tweets`: the tweets of the busiest session. */
  function NumPoopTweets(p: PoopPeriod): (n: nat)
    ensures p.sessions == [] ==> n == 0
    ensures forall j :: 0 <= j < |p.sessions| ==> p.sessions[j].numTweets <= n
    ensures p.sessions != [] ==> exists j :: 0 <= j < |p.sessions| && p.sessions[j].numTweets == n
  {
    match PoopSession(p)
    case Some(s) => s.numTweets
    case None => 0
  }

  /** Each session's tweets are part of the total. */
  lemma {:induction false} SessionAtMostSum(sessions: seq<TweetSession>, j: nat)
    requires j < |sessions|
    ensures sessions[j].numTweets <= SumTweets(sessions)
    decreases |sessions|
  {
    var last := |sessions| - 1;
    if j < last {
      SessionAtMostSum(sessions[..last], j);
    }
  }

  /** Every session's tweets are part of the total. */
  lemma EachSessionAtMostSum(sessions: seq<TweetSession>)
    ensures forall j :: 0 <= j < |sessions| ==> sessions[j].numTweets <= SumTweets(sessions)
  {
    forall j | 0 <= j < |sessions|
      ensures sessions[j].numTweets <= SumTweets(sessions)
    {
      SessionAtMostSum(sessions, j);
    }
  }

  /** The busiest session's tweets never exceed the period's total. */
  lemma PoopTweetsAtMostTotal(p: PoopPeriod)
    ensures NumPoopTweets(p) <= NumTweets(p)
  {
    if p.sessions != [] {
      var j :| 0 <= j < |p.sessions| && p.sessions[j].numTweets == NumPoopTweets(p);
      SessionAtMostSum(p.sessions, j);
    }
  }

  /** `PoopPeriod::num_non_poop_tweets`: the subtraction never underflows,
      and poop and non-poop tweets together are all of the period's tweets. */
  function NumNonPoopTweets(p: PoopPeriod): (n: nat)
    ensures n + NumPoopTweets(p) == NumTweets(p)
  {
    PoopTweetsAtMostTotal(p);
    NumTweets(p) - NumPoopTweets(p)
  }

  /** Adding a session makes it the busiest when it has at least as many
      tweets as the busiest so far, and leaves the busiest alone otherwise. */
  lemma PeriodAddPoopTweets(p: PoopPeriod, s: TweetSession)
    ensures NumPoopTweets(PeriodAdd(p, s)) ==
            if s.numTweets >= NumPoopTweets(p) then s.numTweets else NumPoopTweets(p)
  {
    var r := PeriodAdd(p, s);
    assert r.sessions[..|r.sessions| - 1] == p.sessions;
  }
}
