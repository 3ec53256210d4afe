/** Runs of `poll_next` against a server that answers each request with the
    next page of a fixed list: what the consumer's
    `while let Some(item) = stream.next().await` loop sees, and which requests
    are issued on the way. */
module Pagination {
  import opened Wrappers
  import opened Query
  import opened Api

  /** Items yielded until the run stopped, whether it stopped at the end of
      the stream, the requests pulls issued (the request `Open` issues is
      not among them), and the state the stream was left in. */
  datatype Drained<T> = Drained(items: seq<T>, ended: bool, requests: seq<Url>, last: ApiResults<T>)

  function Prepend<T>(items: seq<T>, d: Drained<T>): Drained<T> {
    d.(items := items + d.items)
  }

  function Requested(started: Option<Url>): seq<Url> {
    match started
    case Some(u) => [u]
    case None => []
  }

  /** The request a pull on `s` issues, if it issues one. */
  function Issued<T>(s: ApiResults<T>): seq<Url> {
    if s.items == [] && s.result.Terminated? && s.paginationToken.Some? then
      [NextPageUrl(s.url, s.paginationToken.value)]
    else []
  }

  /** Pull until the stream ends. A pull that polls a request gets the next
      page; the run stops without `ended` if it needs a page and none is
      left, or if a pull returns anything but an item or the end. */
  function Drain<T>(s: ApiResults<T>, pages: seq<ApiData<T>>): (d: Drained<T>)
    requires Valid(s)
    decreases |pages|, |s.items|
  {
    if Polls(s) && pages == [] then
      Drained([], false, [], s)
    else
      var outcome := if Polls(s) then Fetched(pages[0]) else NotReady;
      var rest := if Polls(s) then pages[1..] else pages;
      var step := PollNext(s, outcome);
      PollNextSingleFlight(s, outcome);
      match step.poll
      case Item(x) =>
        var d := Drain(step.next, rest);
        Drained([x] + d.items, d.ended, Requested(step.started) + d.requests, d.last)
      case End =>
        Drained([], true, Requested(step.started), step.next)
      case _ =>
        Drained([], false, Requested(step.started), step.next)
  }

  /** A well-behaved server's answer to one listing: at least one page,
      items and a token on each page but the last, and no token on the
      last, which may be empty (a listing with no tweets at all, or a
      final response carrying only its count). */
  predicate Chain<T>(pages: seq<ApiData<T>>) {
    && |pages| > 0
    && (forall i :: 0 <= i < |pages| - 1 ==> PageItems(pages[i]) != [])
    && (forall i :: 0 <= i < |pages| - 1 ==> PageToken(pages[i]).Some?)
    && PageToken(pages[|pages| - 1]).None?
  }

  /** The items of all pages, page after page. */
  function ChainItems<T>(pages: seq<ApiData<T>>): seq<T> {
    if pages == [] then [] else PageItems(pages[0]) + ChainItems(pages[1..])
  }

  /** One follow-up request per page but the last, each carrying that page's token. */
  function ChainRequests<T>(url: Url, pages: seq<ApiData<T>>): seq<Url>
    requires forall i :: 0 <= i < |pages| - 1 ==> PageToken(pages[i]).Some?
  {
    if |pages| <= 1 then [] else [NextPageUrl(url, PageToken(pages[0]).value)] + ChainRequests(url, pages[1..])
  }

  /** Buffered items come out first, in order, without any request. */
  lemma {:induction false} DrainBuffer<T>(s: ApiResults<T>, pages: seq<ApiData<T>>)
    requires s.result.Terminated?
    ensures Drain(s, pages) == Prepend(s.items, Drain(s.(items := []), pages))
    decreases |s.items|
  {
    if s.items != [] {
      var step := PollNext(s, NotReady);
      assert step.next == s.(items := s.items[1..]);
      DrainBuffer(step.next, pages);
      assert step.next.(items := []) == s.(items := []);
    }
  }

  /** The first pull of a run that polls a request answered with a page
      that has items: its first item, then the run from the rest of the page. */
  lemma FirstPullOfPage<T>(s: ApiResults<T>, pages: seq<ApiData<T>>)
    requires Valid(s) && Polls(s) && pages != [] && PageItems(pages[0]) != []
    ensures var next := ApiResults(s.url, Terminated, PageItems(pages[0])[1..], PageToken(pages[0]));
            var d := Drain(next, pages[1..]);
            Drain(s, pages) ==
            Drained([PageItems(pages[0])[0]] + d.items, d.ended,
                    Issued(s) + d.requests, d.last)
  {
  }

  /** The pull that polls a request gets a page with items: the run yields
      that page's items, then whatever the run from the emptied buffer yields. */
  lemma FirstPageDrained<T>(s: ApiResults<T>, pages: seq<ApiData<T>>)
    requires Valid(s) && Polls(s) && pages != [] && PageItems(pages[0]) != []
    ensures var after := ApiResults(s.url, Terminated, [], PageToken(pages[0]));
            var d := Drain(after, pages[1..]);
            Drain(s, pages) ==
            Drained(PageItems(pages[0]) + d.items, d.ended,
                    Issued(s) + d.requests, d.last)
  {
    var items := PageItems(pages[0]);
    var next := ApiResults(s.url, Terminated, items[1..], PageToken(pages[0]));
    var after := ApiResults(s.url, Terminated, [], PageToken(pages[0]));
    FirstPullOfPage(s, pages);
    DrainBuffer(next, pages[1..]);
    assert next.(items := []) == after;
    ConsAppend(items, Drain(after, pages[1..]).items);
  }

  /** Splitting off the head and putting it back. */
  lemma ConsAppend<T>(items: seq<T>, tail: seq<T>)
    requires items != []
    ensures [items[0]] + (items[1..] + tail) == items + tail
  {
  }

  /** The state a drained stream is left in: nothing buffered, no request,
      no token. */
  function Spent<T>(url: Url): (s: ApiResults<T>)
    ensures Exhausted(s) && s.url == url
  {
    ApiResults(url, Terminated, [], None)
  }

  /** From a stream whose next pull polls a request, the run yields exactly
      the chain's items, issues one request per token, and leaves the
      stream exhausted. */
  lemma {:induction false} DrainFromRequest<T>(s: ApiResults<T>, pages: seq<ApiData<T>>)
    requires Valid(s) && Polls(s) && Chain(pages)
    ensures Drain(s, pages) ==
            Drained(ChainItems(pages), true,
                    Issued(s) + ChainRequests(s.url, pages), Spent(s.url))
    decreases |pages|
  {
    assert ChainItems(pages) == PageItems(pages[0]) + ChainItems(pages[1..]);
    if PageItems(pages[0]) == [] {
      // only the last page may be empty, and it ends the run at once
      assert |pages| == 1;
      assert Issued(s) + ChainRequests(s.url, pages) == Issued(s);
    } else {
      FirstPageDrained(s, pages);
      var after: ApiResults<T> := ApiResults(s.url, Terminated, [], PageToken(pages[0]));
      if |pages| == 1 {
        assert Drain(after, pages[1..]) == Drained([], true, [], Spent(s.url));
      } else {
        assert Chain(pages[1..]);
        DrainFromRequest(after, pages[1..]);
      }
    }
  }

  /** Order preservation: draining a fresh stream yields the concatenation
      of the pages' items, page by page, and ends for good; the first
      request is the one `Open` issued for the base URL, and each later
      request is the base URL with the previous page's token appended. */
  lemma DrainOpen<T>(url: Url, pages: seq<ApiData<T>>)
    requires Chain(pages)
    ensures Drain(Open<T>(url), pages) == Drained(ChainItems(pages), true, ChainRequests(url, pages), Spent(url))
    ensures Exhausted(Drain(Open<T>(url), pages).last)
    ensures |Drain(Open<T>(url), pages).requests| == |pages| - 1
  {
    DrainFromRequest(Open<T>(url), pages);
    ChainRequestsLength(url, pages);
  }

  lemma {:induction false} ChainRequestsLength<T>(url: Url, pages: seq<ApiData<T>>)
    requires forall i :: 0 <= i < |pages| - 1 ==> PageToken(pages[i]).Some?
    ensures |ChainRequests(url, pages)| == if pages == [] then 0 else |pages| - 1
    decreases |pages|
  {
    if |pages| > 1 {
      ChainRequestsLength(url, pages[1..]);
    }
  }

  /** A single page without a token, empty or not, is drained, then the
      stream ends with exactly one fetch in all: every later pull, whatever
      it is told, returns the end and issues nothing. */
  lemma SinglePageNoToken<T>(url: Url, page: ApiData<T>, later: seq<Outcome<T>>)
    requires PageToken(page).None?
    ensures Drain(Open<T>(url), [page]) == Drained(PageItems(page), true, [], Spent(url))
    ensures Run(Drain(Open<T>(url), [page]).last, later).requests == []
    ensures forall i :: 0 <= i < |later| ==> Run(Drain(Open<T>(url), [page]).last, later).polls[i] == End
  {
    DrainOpen(url, [page]);
    assert ChainItems([page]) == PageItems(page) + ChainItems<T>([]);
    ExhaustedEndsForever(Spent<T>(url), later);
  }

  /** An empty first page ends the run even though it carries a token: the
      consumer sees no item and the page the token points to is never
      requested. The stream is not exhausted, though: it keeps the token. */
  lemma EmptyFirstPageEndsDrain<T>(url: Url, token: string, pages: seq<ApiData<T>>)
    requires pages != [] && PageItems(pages[0]) == [] && PageToken(pages[0]) == Some(token)
    ensures Drain(Open<T>(url), pages) == Drained([], true, [], ApiResults(url, Terminated, [], Some(token)))
    ensures !Exhausted(Drain(Open<T>(url), pages).last)
  {
  }

  /** What a sequence of pulls returned, the requests they issued, and the
      state they left, given what polling answered on each pull. */
  datatype Trace<T> = Trace(polls: seq<Poll<T>>, requests: seq<Url>, last: ApiResults<T>)

  /** Pull once per outcome, whatever each pull returns. */
  function Run<T>(s: ApiResults<T>, outcomes: seq<Outcome<T>>): (t: Trace<T>)
    ensures |t.polls| == |outcomes|
    decreases |outcomes|
  {
    if outcomes == [] then Trace([], [], s)
    else
      var step := PollNext(s, outcomes[0]);
      var t := Run(step.next, outcomes[1..]);
      Trace([step.poll] + t.polls, Requested(step.started) + t.requests, t.last)
  }

  /** Once exhausted, a stream returns the end on every pull, issues no
      request, and stays exhausted. */
  lemma {:induction false} ExhaustedEndsForever<T>(s: ApiResults<T>, outcomes: seq<Outcome<T>>)
    requires Exhausted(s)
    ensures Run(s, outcomes).requests == [] && Run(s, outcomes).last == s
    ensures forall i :: 0 <= i < |outcomes| ==> Run(s, outcomes).polls[i] == End
    decreases |outcomes|
  {
    if outcomes != [] {
      ExhaustedEndsForever(s, outcomes[1..]);
    }
  }
}
