/** The grouping loop of `main` (src/main.rs:106-155) without its printing
    and without the requests that feed it: each tweet the stream yields is
    counted, then either extends the current session or closes it into the
    current period, and a period that cannot take the closed session is
    flushed into the poop / non-poop totals first. */
module Analysis {
  import opened Wrappers
  import opened Api
  import opened Grouping

  /** The loop's variables. `endTime` starts at the clock reading `now`. */
  datatype Tally = Tally(
    tweetNum: nat,
    endTime: int,
    period: Option<PoopPeriod>,
    session: Option<TweetSession>,
    poopTweets: nat,
    nonPoopTweets: nat)

  function Start(now: int): (t: Tally)
    ensures t.tweetNum == 0 && t.poopTweets == 0 && t.nonPoopTweets == 0
    ensures t.period.None? && t.session.None?
  {
    Tally(0, now, None, None, 0, 0)
  }

  predicate AllDated(tweets: seq<Tweet>) {
    forall i :: 0 <= i < |tweets| ==> Dated(tweets[i])
  }

  /** Tweets still held in the open period and the open session. */
  function Unflushed(t: Tally): nat {
    (match t.period case Some(p) => NumTweets(p) case None => 0)
    + (match t.session case Some(s) => s.numTweets case None => 0)
  }

  /** The counting invariant: every tweet seen is flushed as a poop or
      non-poop tweet, or is still in the open period or session. */
  predicate Accounted(t: Tally) {
    t.poopTweets + t.nonPoopTweets + Unflushed(t) == t.tweetNum
  }

  /** The period the loop body works on: the open one, or a new one ending
      at the tweet's time when none is open yet. */
  function CurrentPeriod(t: Tally, time: int): (p: PoopPeriod)
    ensures t.period.Some? ==> p == t.period.value
    ensures t.period.None? ==> p == NewPeriod(time)
  {
    if t.period.None? then NewPeriod(time) else t.period.value
  }

  /** One pass of the loop body for one tweet. The tweet is counted and its
      time becomes the end time of the next request. Then:
      - with no open session, the tweet opens one;
      - a tweet the open session should include joins it;
      - otherwise the session is closed into the current period and the
        tweet opens a new session; if the period should not include the
        closed session, the period is flushed into the totals first and a
        new period, anchored at this tweet, takes the session.
      Only a flush changes the totals. */
  function Observe(t: Tally, tweet: Tweet): (r: Tally)
    requires Dated(tweet)
    ensures r.tweetNum == t.tweetNum + 1
    ensures r.endTime == tweet.createdAt.value
    ensures r.period.Some? && r.session.Some?
    ensures t.session.None? ==>
              && r.session == Some(NewSession(tweet))
              && r.period == Some(CurrentPeriod(t, tweet.createdAt.value))
              && r.poopTweets == t.poopTweets && r.nonPoopTweets == t.nonPoopTweets
    ensures t.session.Some? && SessionShouldInclude(t.session.value, tweet) ==>
              && r.session == Some(SessionAdd(t.session.value, tweet))
              && r.period == Some(CurrentPeriod(t, tweet.createdAt.value))
              && r.poopTweets == t.poopTweets && r.nonPoopTweets == t.nonPoopTweets
    ensures t.session.Some? && !SessionShouldInclude(t.session.value, tweet) ==>
              r.session == Some(NewSession(tweet))
    ensures && t.session.Some? && !SessionShouldInclude(t.session.value, tweet)
            && PeriodShouldInclude(CurrentPeriod(t, tweet.createdAt.value), t.session.value) ==>
              && r.period == Some(PeriodAdd(CurrentPeriod(t, tweet.createdAt.value), t.session.value))
              && r.poopTweets == t.poopTweets && r.nonPoopTweets == t.nonPoopTweets
    ensures && t.session.Some? && !SessionShouldInclude(t.session.value, tweet)
            && !PeriodShouldInclude(CurrentPeriod(t, tweet.createdAt.value), t.session.value) ==>
              && r.period == Some(PeriodAdd(NewPeriod(tweet.createdAt.value), t.session.value))
              && r.poopTweets == t.poopTweets + NumPoopTweets(CurrentPeriod(t, tweet.createdAt.value))
              && r.nonPoopTweets == t.nonPoopTweets + NumNonPoopTweets(CurrentPeriod(t, tweet.createdAt.value))
  {
    var time := tweet.createdAt.value;
    var period := CurrentPeriod(t, time);
    var t := t.(tweetNum := t.tweetNum + 1, endTime := time);
    match t.session
    case None =>
      t.(period := Some(period), session := Some(NewSession(tweet)))
    case Some(session) =>
      if SessionShouldInclude(session, tweet) then
        t.(period := Some(period), session := Some(SessionAdd(session, tweet)))
      else if !PeriodShouldInclude(period, session) then
        t.(period := Some(PeriodAdd(NewPeriod(time), session)),
           session := Some(NewSession(tweet)),
           poopTweets := t.poopTweets + NumPoopTweets(period),
           nonPoopTweets := t.nonPoopTweets + NumNonPoopTweets(period))
      else
        t.(period := Some(PeriodAdd(period, session)), session := Some(NewSession(tweet)))
  }

  /** One step keeps the counting invariant: the tweet lands in the open
      session, and a closed session and a flushed period move their tweets
      without losing or duplicating any. */
  lemma ObserveAccounted(t: Tally, tweet: Tweet)
    requires Dated(tweet) && Accounted(t)
    requires t.session.Some? ==> t.period.Some?
    ensures Accounted(Observe(t, tweet))
  {
  }

  /** The loop over the tweets the stream yields: every tweet is counted,
      and the end time is the last (oldest) tweet's time, where the next
      request would resume. */
  function Fold(t: Tally, tweets: seq<Tweet>): (r: Tally)
    requires AllDated(tweets)
    ensures r.tweetNum == t.tweetNum + |tweets|
    ensures tweets != [] ==> r.endTime == tweets[|tweets| - 1].createdAt.value
    ensures tweets == [] ==> r == t
    decreases |tweets|
  {
    if tweets == [] then t else Fold(Observe(t, tweets[0]), tweets[1..])
  }

  /** After any number of tweets, all of them are accounted for: the
      flushed totals never exceed the tweets seen. */
  lemma {:induction false} FoldAccounted(t: Tally, tweets: seq<Tweet>)
    requires AllDated(tweets) && Accounted(t)
    requires t.session.Some? ==> t.period.Some?
    ensures Accounted(Fold(t, tweets))
    ensures Fold(t, tweets).poopTweets + Fold(t, tweets).nonPoopTweets <= Fold(t, tweets).tweetNum
    ensures tweets != [] ==> Fold(t, tweets).period.Some? && Fold(t, tweets).session.Some?
    decreases |tweets|
  {
    if tweets != [] {
      ObserveAccounted(t, tweets[0]);
      FoldAccounted(Observe(t, tweets[0]), tweets[1..]);
    }
  }

  lemma {:induction false} FoldAppend(t: Tally, tweets: seq<Tweet>, tweet: Tweet)
    requires AllDated(tweets) && Dated(tweet)
    ensures AllDated(tweets + [tweet])
    ensures Fold(t, tweets + [tweet]) == Observe(Fold(t, tweets), tweet)
    decreases |tweets|
  {
    if tweets == [] {
      assert [tweet][1..] == [];
    } else {
      assert (tweets + [tweet])[1..] == tweets[1..] + [tweet];
      FoldAppend(Observe(t, tweets[0]), tweets[1..], tweet);
    }
  }

  /** The loop itself: the number of tweets seen and the poop / non-poop
      totals flushed so far. */
  method Analyze(now: int, tweets: seq<Tweet>) returns (tweetNum: nat, poopTweets: nat, nonPoopTweets: nat)
    requires AllDated(tweets)
    ensures tweetNum == |tweets|
    ensures poopTweets + nonPoopTweets <= tweetNum
    ensures poopTweets == Fold(Start(now), tweets).poopTweets
    ensures nonPoopTweets == Fold(Start(now), tweets).nonPoopTweets
  {
    var t := Start(now);
    var i := 0;
    while i < |tweets|
      invariant 0 <= i <= |tweets|
      invariant t == Fold(Start(now), tweets[..i])
      invariant t.tweetNum == i && Accounted(t)
      invariant t.session.Some? ==> t.period.Some?
    {
      ObserveAccounted(t, tweets[i]);
      FoldAppend(Start(now), tweets[..i], tweets[i]);
      assert tweets[..i + 1] == tweets[..i] + [tweets[i]];
      t := Observe(t, tweets[i]);
      i := i + 1;
    }
    assert tweets[..i] == tweets;
    tweetNum, poopTweets, nonPoopTweets := t.tweetNum, t.poopTweets, t.nonPoopTweets;
  }

  function At(time: int): Tweet {
    Tweet("", "", Some(time))
  }

  /** When a period is flushed, the new period is anchored at the tweet
      that opens the next session, not at the session it receives: for
      tweets at times a > b > c, each at least a session timeout apart and
      with a and b at least a poop period apart, the open period afterwards
      ends at c but starts at b, later than its end. */
  lemma FlushedPeriodAnchoredAtNextTweet(now: int, a: int, b: int, c: int)
    requires a - b >= POOP_PERIOD_SECS && b - c >= TWEET_SESSION_TIMEOUT_SECS
    ensures AllDated([At(a), At(b), At(c)])
    ensures Fold(Start(now), [At(a), At(b), At(c)]).period == Some(PoopPeriod(c, b, [TweetSession(b, b, 1)]))
    ensures Fold(Start(now), [At(a), At(b), At(c)]).poopTweets == 1
  {
    var t1 := Observe(Start(now), At(a));
    var t2 := Observe(t1, At(b));
    assert t2.period == Some(PoopPeriod(a, a, [TweetSession(a, a, 1)]));
    assert t2.session == Some(TweetSession(b, b, 1));
    var flushed := t2.period.value;
    assert NumPoopTweets(flushed) == 1 by {
      assert PoopSessionIndex(flushed.sessions) == Some(0);
    }
    var t3 := Observe(t2, At(c));
    assert t3.period == Some(PeriodAdd(NewPeriod(c), TweetSession(b, b, 1)));
    FoldPrefix(t2, At(c), []);
    FoldPrefix(t1, At(b), [At(c)]);
    FoldPrefix(Start(now), At(a), [At(b), At(c)]);
    assert [At(a), At(b), At(c)] == [At(a)] + ([At(b)] + [At(c)]);
  }

  /** Folding in two runs is folding the whole: the outer refetch loop,
      which resumes from the last tweet's time with the tally it has,
      continues the same fold over the concatenated timeline. */
  lemma {:induction false} FoldConcat(t: Tally, xs: seq<Tweet>, ys: seq<Tweet>)
    requires AllDated(xs) && AllDated(ys)
    ensures AllDated(xs + ys)
    ensures Fold(t, xs + ys) == Fold(Fold(t, xs), ys)
    decreases |xs|
  {
    if xs == [] {
      assert xs + ys == ys;
    } else {
      assert (xs + ys)[1..] == xs[1..] + ys;
      FoldConcat(Observe(t, xs[0]), xs[1..], ys);
    }
  }

  /** One tweet in front: the loop observes it, then the rest. */
  lemma FoldPrefix(t: Tally, tweet: Tweet, rest: seq<Tweet>)
    requires Dated(tweet) && AllDated(rest)
    ensures AllDated([tweet] + rest)
    ensures Fold(t, [tweet] + rest) == Fold(Observe(t, tweet), rest)
  {
  }
}
