/** A URL as the pagination logic sees it: everything before the query, and
    the query as an ordered list of decoded key/value pairs (what `url::Url`'s
    `query_pairs` yields). Percent-encoding is not modelled. */
module Query {

  datatype Pair = Pair(key: string, value: string)

  datatype Url = Url(location: string, query: seq<Pair>)

  /** `url.clone()` followed by `query_pairs_mut().append_pair(key, value)`:
      a new URL, the original is a value and stays as it was. */
  function AppendPair(url: Url, key: string, value: string): (r: Url)
    ensures r.location == url.location
    ensures |r.query| == |url.query| + 1
    ensures r.query[..|url.query|] == url.query
    ensures r.query[|url.query|] == Pair(key, value)
  {
    Url(url.location, url.query + [Pair(key, value)])
  }

  /** Every value the query carries under `key`, in query order. */
  function Values(query: seq<Pair>, key: string): (vs: seq<string>)
    ensures |vs| <= |query|
  {
    if query == [] then []
    else (if query[0].key == key then [query[0].value] else []) + Values(query[1..], key)
  }

  lemma {:induction false} ValuesConcat(q1: seq<Pair>, q2: seq<Pair>, key: string)
    ensures Values(q1 + q2, key) == Values(q1, key) + Values(q2, key)
    decreases |q1|
  {
    if q1 == [] {
      assert q1 + q2 == q2;
    } else {
      assert (q1 + q2)[0] == q1[0];
      assert (q1 + q2)[1..] == q1[1..] + q2;
      ValuesConcat(q1[1..], q2, key);
    }
  }

  /** Appending a pair adds its value to the values of its own key, at the
      end, and leaves the values of every other key as they were. */
  lemma AppendPairValues(url: Url, key: string, value: string, other: string)
    ensures Values(AppendPair(url, key, value).query, key) == Values(url.query, key) + [value]
    ensures other != key ==> Values(AppendPair(url, key, value).query, other) == Values(url.query, other)
  {
    ValuesConcat(url.query, [Pair(key, value)], key);
    ValuesConcat(url.query, [Pair(key, value)], other);
    assert [Pair(key, value)][1..] == [];
  }
}
