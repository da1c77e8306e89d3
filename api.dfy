/** The values both scraping scripts exchange with the newspapers.com search
    API, and the ways a fetch can end.  Real HTTP and JSON parsing are not
    modelled: a reply is an abstract status code plus a parsed body. */
module Api {

  datatype Option<+T> = None | Some(value: T)

  /** One facet bucket of the response, `{"value": ..., "count": ...}`. */
  datatype Bucket = Bucket(value: string, count: int)

  /** The parsed JSON body of a search response.  `recordCount` is None when
      the key is absent; `facets` is None when the key is absent and
      otherwise maps a facet dimension ("county", "city", "region", ...) to
      the bucket list the server returned for it, in the server's order. */
  datatype Body = Body(recordCount: Option<int>, facets: Option<map<string, seq<Bucket>>>)

  /** What one `session.get` yields: the status code and the parsed body,
      together with the value `random.uniform(0, 1)` draws in that attempt
      (the scripts only read it after a 429). */
  datatype Reply = Reply(status: int, body: Body, jitter: real)

  /** The exceptions that end a run of either script. */
  datatype Failure =
    | MaxRetriesExceeded       // `raise Exception("Max retries exceeded")`
    | SessionRaised            // `session.get` itself raised (no reply came back)
    | KeyMissing(key: string)  // a KeyError from subscripting a dict
    | UnpackNone               // a TypeError from unpacking `None` into a tuple
    | ReadOfUndefined(property: string)  // a JavaScript TypeError from reading `property` of undefined

  datatype Result<+T> = Ok(value: T) | Fail(failure: Failure)

  const OK_STATUS := 200
  const TOO_MANY_REQUESTS := 429

  /** `data['facets'][dimension]`: raises KeyError on whichever key is absent. */
  function Facet(b: Body, dimension: string): (r: Result<seq<Bucket>>)
    ensures r.Ok? <==> b.facets.Some? && dimension in b.facets.value
    ensures r.Ok? ==> r.value == b.facets.value[dimension]
    ensures b.facets.None? ==> r == Fail(KeyMissing("facets"))
    ensures b.facets.Some? && dimension !in b.facets.value ==> r == Fail(KeyMissing(dimension))
  {
    if b.facets.None? then Fail(KeyMissing("facets"))
    else if dimension !in b.facets.value then Fail(KeyMissing(dimension))
    else Ok(b.facets.value[dimension])
  }

  /** `data.get('facets', {}).get(dimension, [])`: the lenient lookup agrees
      with the strict one wherever that succeeds, and is empty wherever it
      would raise. */
  function FacetOrEmpty(b: Body, dimension: string): (r: seq<Bucket>)
    ensures Facet(b, dimension).Ok? ==> r == Facet(b, dimension).value
    ensures Facet(b, dimension).Fail? ==> r == []
  {
    if b.facets.Some? && dimension in b.facets.value then b.facets.value[dimension] else []
  }

  /** `data.get('recordCount', 0)`. */
  function RecordCountOrZero(b: Body): (n: int)
    ensures b.recordCount.Some? ==> n == b.recordCount.value
    ensures b.recordCount.None? ==> n == 0
  {
    match b.recordCount
    case Some(n) => n
    case None => 0
  }

  /** `[item['value'] for item in buckets]`. */
  function Values(bs: seq<Bucket>): (vs: seq<string>)
    ensures |vs| == |bs|
    ensures forall i :: 0 <= i < |bs| ==> vs[i] == bs[i].value
  {
    seq(|bs|, i requires 0 <= i < |bs| => bs[i].value)
  }

  /** The value of a single bucket. */
  lemma SingleValue(b: Bucket)
    ensures Values([b]) == [b.value]
  {
  }

  /** None of the first n replies is a 200. */
  predicate AllFailed(rs: seq<Reply>, n: nat)
  {
    n <= |rs| && forall i :: 0 <= i < n ==> rs[i].status != OK_STATUS
  }

  lemma AllFailedCons(rs: seq<Reply>, n: nat)
    requires rs != [] && rs[0].status != OK_STATUS && AllFailed(rs[1..], n)
    ensures AllFailed(rs, n + 1)
  {
    assert forall i :: 1 <= i < n + 1 ==> rs[i] == rs[1..][i - 1];
  }

  /** Replies that agree on which attempts got a 200, and on those bodies. */
  predicate SameSuccesses(rs1: seq<Reply>, rs2: seq<Reply>)
  {
    |rs1| == |rs2| &&
    forall i :: 0 <= i < |rs1| ==>
      (rs1[i].status == OK_STATUS <==> rs2[i].status == OK_STATUS) &&
      (rs1[i].status == OK_STATUS ==> rs1[i].body == rs2[i].body)
  }

  lemma SameSuccessesTail(rs1: seq<Reply>, rs2: seq<Reply>)
    requires SameSuccesses(rs1, rs2) && rs1 != []
    ensures SameSuccesses(rs1[1..], rs2[1..])
  {
    assert forall i :: 0 <= i < |rs1| - 1 ==> rs1[1..][i] == rs1[i + 1] && rs2[1..][i] == rs2[i + 1];
  }

  /** Moving the head of a non-empty sequence onto the end of a prefix. */
  lemma SnocThenRest<T>(a: seq<T>, xs: seq<T>)
    requires xs != []
    ensures (a + [xs[0]]) + xs[1..] == a + xs
  {
  }

  lemma ConcatEmpty<T>(a: seq<T>)
    ensures [] + a == a
  {
  }

  lemma ConcatAssoc<T>(a: seq<T>, b: seq<T>, c: seq<T>)
    ensures (a + b) + c == a + (b + c)
  {
  }

  /** `[x] * n`: the same request repeated n times. */
  function Repeat<T>(x: T, n: nat): (r: seq<T>)
    ensures |r| == n
    ensures forall i :: 0 <= i < n ==> r[i] == x
  {
    seq(n, _ => x)
  }

  /** One more copy of `x` after `a` extends the repetition by one. */
  lemma AppendRepeat<T>(a: seq<T>, x: T, n: nat)
    ensures a + [x] + Repeat(x, n) == a + Repeat(x, n + 1)
  {
    assert Repeat(x, n + 1) == [x] + Repeat(x, n);
  }
}
