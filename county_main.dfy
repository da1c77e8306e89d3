/** county_main.py: the retrying fetch `get_data_with_backoff` with its
    exponential backoff and the global `success_counts`, the query parameters
    of `get_counties` and `get_city`, and the state/county crawl of `main`.

    The network is a sequence of replies that successive `session.get` calls
    consume; a call finding it empty stands for `session.get` raising.
    `time.sleep` appends its duration to a ghost log of waits, and every
    request appends its parameters to a ghost log of requests sent. */
module CountyMain {
  import opened Api
  import opened Catalogue
  import opened Rows

  const MAX_RETRIES: nat := 10
  const TIMEOUT_PERIOD: real := 180.0
  /** The pause after every successful request. */
  const SUCCESS_PAUSE: real := 0.5
  /** The cap `exponential_backoff` puts on a wait. */
  const BACKOFF_CAP: real := 60.0

  function Pow2(n: nat): (p: nat)
    ensures p >= 1
  {
    if n == 0 then 1 else 2 * Pow2(n - 1)
  }

  lemma {:induction false} Pow2Monotone(a: nat, b: nat)
    requires a <= b
    ensures Pow2(a) <= Pow2(b)
    decreases b
  {
    if a < b {
      Pow2Monotone(a, b - 1);
    }
  }

  function Min(a: real, b: real): (m: real)
    ensures m <= a && m <= b && (m == a || m == b)
  {
    if a <= b then a else b
  }

  /** `exponential_backoff(retries)`, with `jitter` the value
      `random.uniform(0, 1)` drew: never more than the cap, and between
      `min(60, 2^retries)` and `min(60, 2^retries + 1)` when the jitter is in
      range. */
  function ExponentialBackoff(retries: nat, jitter: real): (w: real)
    ensures w <= BACKOFF_CAP
    ensures 0.0 <= jitter <= 1.0 ==>
      Min(BACKOFF_CAP, Pow2(retries) as real) <= w <= Min(BACKOFF_CAP, Pow2(retries) as real + 1.0)
  {
    Min(BACKOFF_CAP, Pow2(retries) as real + jitter)
  }

  /** The backoff after attempt `retries + 1` is at least the backoff after
      attempt `retries`, whatever the two jitters drawn. */
  lemma BackoffNonDecreasing(retries: nat, jitter1: real, jitter2: real)
    requires 0.0 <= jitter1 <= 1.0 && 0.0 <= jitter2 <= 1.0
    ensures ExponentialBackoff(retries, jitter1) <= ExponentialBackoff(retries + 1, jitter2)
  {
    assert Pow2(retries + 1) == 2 * Pow2(retries);
  }

  /** From the seventh attempt on, `2 ** retries` is past the cap and every
      backoff is exactly 60 seconds. */
  lemma BackoffSaturates(retries: nat, jitter: real)
    requires retries >= 6 && jitter >= 0.0
    ensures ExponentialBackoff(retries, jitter) == BACKOFF_CAP
  {
    Pow2Monotone(6, retries);
    assert Pow2(6) == 64;
  }

  // ---------------------------------------------------------------------
  // Query parameters

  /** A value of the `params` dict: an integer or a string. */
  datatype Param = Num(n: int) | Text(s: string)

  type Query = map<string, Param>

  /** The `params` dict `get_counties` builds for one state: the state, the
      keyword and the dates come from the caller. */
  function StateParams(startDate: int, endDate: int, keyword: string, state: string): (q: Query)
    ensures "region" in q && q["region"] == Text("us-" + state)
    ensures "keyword" in q && q["keyword"] == Text(keyword)
    ensures "date-start" in q && q["date-start"] == Num(startDate)
    ensures "date-end" in q && q["date-end"] == Num(endDate)
  {
    map[
      "product" := Num(1),
      "entity-types" := Text("page,"),
      "start" := Text("*"),
      "count" := Num(100),
      "facet-year" := Num(1000),
      "facet-country" := Num(200),
      "facet-region" := Num(300),
      "facet-county" := Num(260),
      "facet-city" := Num(150),
      "facet-entity" := Num(5),
      "facet-publication" := Num(5),
      "include-publication-metadata" := Text("true"),
      "region" := Text("us-" + state),
      "keyword" := Text(keyword),
      "date-start" := Num(startDate),
      "date-end" := Num(endDate)]
  }

  /** The state query has exactly sixteen keys. */
  lemma StateParamsKeys(startDate: int, endDate: int, keyword: string, state: string)
    ensures StateParams(startDate, endDate, keyword, state).Keys
         == {"product", "entity-types", "start", "count", "region", "keyword", "date-start", "date-end",
             "facet-year", "facet-country", "facet-region", "facet-county", "facet-city",
             "facet-entity", "facet-publication", "include-publication-metadata"}
  {
  }

  /** The fixed entries of the state query that select the product and
      the page: product 1, pages only, from the first result, 100 results
      per page, with publication metadata. */
  lemma StateParamsPaging(startDate: int, endDate: int, keyword: string, state: string)
    ensures var q := StateParams(startDate, endDate, keyword, state);
      && q["product"] == Num(1) && q["entity-types"] == Text("page,") && q["start"] == Text("*")
      && q["count"] == Num(100) && q["include-publication-metadata"] == Text("true")
  {
  }

  /** The state query has no county filter. */
  lemma StateParamsNoCounty(startDate: int, endDate: int, keyword: string, state: string)
    ensures "county" !in StateParams(startDate, endDate, keyword, state)
  {
    StateParamsKeys(startDate, endDate, keyword, state);
  }

  /** The facet depths of the state query. */
  lemma StateParamsFacets(startDate: int, endDate: int, keyword: string, state: string)
    ensures var q := StateParams(startDate, endDate, keyword, state);
      && q["facet-year"] == Num(1000) && q["facet-country"] == Num(200) && q["facet-region"] == Num(300)
      && q["facet-county"] == Num(260) && q["facet-city"] == Num(150)
      && q["facet-entity"] == Num(5) && q["facet-publication"] == Num(5)
  {
  }

  /** `{**params, 'county': county}`: a new dict that has every entry of the
      base except `county`, which it sets. */
  function CountyParams(base: Query, county: string): (q: Query)
    ensures q.Keys == base.Keys + {"county"}
    ensures q["county"] == Text(county)
    ensures forall k :: k in base && k != "county" ==> q[k] == base[k]
  {
    base["county" := Text(county)]
  }

  /** Dropping `county` from a drill-down query gives back the base query
      unchanged, whenever the base had no county filter. */
  lemma CountyParamsRestore(base: Query, county: string)
    requires "county" !in base
    ensures CountyParams(base, county) - {"county"} == base
  {
    var q := CountyParams(base, county) - {"county"};
    assert q.Keys == base.Keys;
    assert forall k :: k in q ==> q[k] == base[k];
  }

  /** Two different states are queried with different parameters, so a
      drill-down never mixes up the state it belongs to. */
  lemma StateParamsInjective(startDate: int, endDate: int, keyword: string, s1: string, s2: string)
    requires s1 != s2
    ensures StateParams(startDate, endDate, keyword, s1) != StateParams(startDate, endDate, keyword, s2)
  {
    var p1, p2 := "us-" + s1, "us-" + s2;
    assert p1[3..] == s1 && p2[3..] == s2;
    assert StateParams(startDate, endDate, keyword, s1)["region"] == Text(p1);
    assert StateParams(startDate, endDate, keyword, s2)["region"] == Text(p2);
  }

  // ---------------------------------------------------------------------
  // The retrying fetch, as a function of the script's state

  /** Everything `get_data_with_backoff` reads or changes: the replies the
      session will still receive, the global `success_counts`, and the logs
      of waits and of the parameters of each request sent. */
  datatype World = World(pending: seq<Reply>, successCounts: int, waits: seq<real>, sent: seq<Query>)

  /** The outcome of an operation and the state it leaves behind. */
  datatype Fetched<+T> = Fetched(result: Result<T>, world: World)

  /** The loop of `get_data_with_backoff` from the point where `retries`
      failures have been counted.  It returns a body or raises one of the two
      exceptions, and never hands a reply back. */
  function FetchFrom(w: World, q: Query, maxRetries: nat, retries: nat): (f: Fetched<Body>)
    ensures f.result.Ok? || f.result == Fail(MaxRetriesExceeded) || f.result == Fail(SessionRaised)
    ensures |f.world.pending| <= |w.pending|
    decreases maxRetries - retries
  {
    if retries >= maxRetries then Fetched(Fail(MaxRetriesExceeded), w)
    else if w.pending == [] then Fetched(Fail(SessionRaised), w)
    else
      var reply := w.pending[0];
      if reply.status == OK_STATUS then
        Fetched(Ok(reply.body), w.(pending := w.pending[1..], sent := w.sent + [q],
                                   successCounts := w.successCounts + 1, waits := w.waits + [SUCCESS_PAUSE]))
      else
        FetchFrom(Retry(w, q, AttemptWait(reply, retries)), q, maxRetries, retries + 1)
  }

  /** The state after a failed attempt: the reply is consumed, the request
      is recorded, `success_counts` drops to 0 and the wait is recorded. */
  function Retry(w: World, q: Query, wait: real): (w': World)
    requires w.pending != []
    ensures w'.pending == w.pending[1..] && w'.sent == w.sent + [q]
    ensures w'.successCounts == 0 && w'.waits == w.waits + [wait]
  {
    w.(pending := w.pending[1..], sent := w.sent + [q], successCounts := 0, waits := w.waits + [wait])
  }

  /** `get_data_with_backoff(url, params, max_retries)`: at most
      `max_retries` requests, all with the same parameters. */
  function Fetch(w: World, q: Query, maxRetries: nat): (f: Fetched<Body>)
    ensures var n := |w.pending| - |f.world.pending|;
      0 <= n <= maxRetries && f.world.pending == w.pending[n..] && f.world.sent == w.sent + Repeat(q, n)
  {
    FetchFromConsumes(w, q, maxRetries, 0);
    FetchFrom(w, q, maxRetries, 0)
  }

  /** The wait recorded after an attempt that got `reply` when `retries`
      failures had been counted before it: never more than `TIMEOUT_PERIOD`,
      and positive for a jitter `random.uniform(0, 1)` can draw. */
  function AttemptWait(reply: Reply, retries: nat): (w: real)
    ensures w <= TIMEOUT_PERIOD
    ensures 0.0 <= reply.jitter <= 1.0 ==> w > 0.0
  {
    if reply.status == OK_STATUS then SUCCESS_PAUSE
    else if reply.status == TOO_MANY_REQUESTS then ExponentialBackoff(retries, reply.jitter)
    else TIMEOUT_PERIOD
  }

  /** The fetch consumes a prefix of the replies, no longer than the retry
      budget left, and sends the same parameters for every attempt. */
  lemma {:induction false} FetchFromConsumes(w: World, q: Query, maxRetries: nat, retries: nat)
    requires retries <= maxRetries
    ensures var f := FetchFrom(w, q, maxRetries, retries);
      var n := |w.pending| - |f.world.pending|;
      && 0 <= n <= maxRetries - retries
      && f.world.pending == w.pending[n..]
      && f.world.sent == w.sent + Repeat(q, n)
    decreases maxRetries - retries
  {
    var f := FetchFrom(w, q, maxRetries, retries);
    if retries < maxRetries && w.pending != [] {
      var reply := w.pending[0];
      if reply.status != OK_STATUS {
        var w1 := Retry(w, q, AttemptWait(reply, retries));
        var f1 := FetchFrom(w1, q, maxRetries, retries + 1);
        assert f == f1;
        FetchFromConsumes(w1, q, maxRetries, retries + 1);
        var n1 := |w1.pending| - |f1.world.pending|;
        assert f.world.pending == w.pending[n1 + 1..] by {
          assert w.pending[1..][n1..] == w.pending[n1 + 1..];
        }
        AppendRepeat(w.sent, q, n1);
      } else {
        assert f.world.pending == w.pending[1..];
        AppendRepeat(w.sent, q, 0);
      }
    }
  }

  /** The waits recorded by attempts that got `rs`, the first of them made
      when `retries` failures had been counted. */
  function AttemptWaits(rs: seq<Reply>, retries: nat): (ws: seq<real>)
    ensures |ws| == |rs|
  {
    if rs == [] then [] else [AttemptWait(rs[0], retries)] + AttemptWaits(rs[1..], retries + 1)
  }

  /** Wait `i` is the one attempt `retries + i` records for reply `i`. */
  lemma {:induction false} AttemptWaitsAt(rs: seq<Reply>, retries: nat, i: nat)
    requires i < |rs|
    ensures AttemptWaits(rs, retries)[i] == AttemptWait(rs[i], retries + i)
  {
    if i > 0 {
      AttemptWaitsAt(rs[1..], retries + 1, i - 1);
    }
  }

  /** The fetch records one wait per attempt, as `AttemptWait` says, after
      the waits recorded before it. */
  lemma {:induction false} FetchFromWaits(w: World, q: Query, maxRetries: nat, retries: nat)
    requires retries <= maxRetries
    ensures var f := FetchFrom(w, q, maxRetries, retries);
      var n := |w.pending| - |f.world.pending|;
      && 0 <= n <= |w.pending|
      && f.world.waits == w.waits + AttemptWaits(w.pending[..n], retries)
    decreases maxRetries - retries
  {
    var f := FetchFrom(w, q, maxRetries, retries);
    FetchFromConsumes(w, q, maxRetries, retries);
    if retries < maxRetries && w.pending != [] {
      var reply := w.pending[0];
      if reply.status != OK_STATUS {
        var w1 := Retry(w, q, AttemptWait(reply, retries));
        var f1 := FetchFrom(w1, q, maxRetries, retries + 1);
        assert f == f1;
        FetchFromWaits(w1, q, maxRetries, retries + 1);
        var n1 := |w1.pending| - |f1.world.pending|;
        assert w.pending[..n1 + 1] == [reply] + w1.pending[..n1];
        assert AttemptWaits([reply] + w1.pending[..n1], retries)
            == [AttemptWait(reply, retries)] + AttemptWaits(w1.pending[..n1], retries + 1) by {
          assert ([reply] + w1.pending[..n1])[1..] == w1.pending[..n1];
        }
      } else {
        assert f.world.waits == w.waits + [SUCCESS_PAUSE];
        assert w.pending[..1] == [reply];
      }
    }
  }

  /** The fetch consumes a prefix of the replies, no longer than the retry
      budget left; it sends the same parameters for every attempt; and it
      records one wait per attempt, as `AttemptWait` says. */
  lemma FetchFromShape(w: World, q: Query, maxRetries: nat, retries: nat)
    requires retries <= maxRetries
    ensures var f := FetchFrom(w, q, maxRetries, retries);
      var n := |w.pending| - |f.world.pending|;
      && 0 <= n <= maxRetries - retries
      && f.world.pending == w.pending[n..]
      && f.world.sent == w.sent + Repeat(q, n)
      && f.world.waits == w.waits + AttemptWaits(w.pending[..n], retries)
  {
    FetchFromConsumes(w, q, maxRetries, retries);
    FetchFromWaits(w, q, maxRetries, retries);
  }

  /** A fetch that returns a body returned that of the first 200 within the
      budget, after replies that were all failures. */
  lemma {:induction false} FetchFromSucceeded(w: World, q: Query, maxRetries: nat, retries: nat)
    requires retries <= maxRetries
    ensures var f := FetchFrom(w, q, maxRetries, retries);
      var rs := w.pending;
      var n := |rs| - |f.world.pending|;
      f.result.Ok? ==>
        1 <= n && AllFailed(rs, n - 1) && rs[n - 1].status == OK_STATUS && f.result.value == rs[n - 1].body
    decreases maxRetries - retries
  {
    var f := FetchFrom(w, q, maxRetries, retries);
    if retries < maxRetries && w.pending != [] {
      var reply := w.pending[0];
      if reply.status != OK_STATUS {
        var w1 := Retry(w, q, AttemptWait(reply, retries));
        assert f == FetchFrom(w1, q, maxRetries, retries + 1);
        FetchFromSucceeded(w1, q, maxRetries, retries + 1);
        FetchFromConsumes(w1, q, maxRetries, retries + 1);
        var n1 := |w1.pending| - |f.world.pending|;
        if f.result.Ok? {
          AllFailedCons(w.pending, n1 - 1);
        }
      }
    }
  }

  /** A fetch that fails either exhausted its budget on failures or ran out
      of replies before the budget, all of them failures. */
  lemma {:induction false} FetchFromFailed(w: World, q: Query, maxRetries: nat, retries: nat)
    requires retries <= maxRetries
    ensures var f := FetchFrom(w, q, maxRetries, retries);
      var rs := w.pending;
      var n := |rs| - |f.world.pending|;
      && (f.result.Ok? || f.result == Fail(MaxRetriesExceeded) || f.result == Fail(SessionRaised))
      && (f.result == Fail(MaxRetriesExceeded) ==> n == maxRetries - retries && AllFailed(rs, n))
      && (f.result == Fail(SessionRaised) ==> n == |rs| < maxRetries - retries && AllFailed(rs, n))
    decreases maxRetries - retries
  {
    var f := FetchFrom(w, q, maxRetries, retries);
    if retries < maxRetries && w.pending != [] {
      var reply := w.pending[0];
      if reply.status != OK_STATUS {
        var w1 := Retry(w, q, AttemptWait(reply, retries));
        assert f == FetchFrom(w1, q, maxRetries, retries + 1);
        FetchFromFailed(w1, q, maxRetries, retries + 1);
        FetchFromConsumes(w1, q, maxRetries, retries + 1);
        var n1 := |w1.pending| - |f.world.pending|;
        if f.result.Fail? {
          AllFailedCons(w.pending, n1);
        }
      }
    }
  }

  /** How a fetch ends, in terms of the replies it met: on the first 200
      within the budget it returns that reply's body; after `maxRetries -
      retries` failures it raises "Max retries exceeded"; if the replies run
      out first, the session's exception propagates. */
  lemma FetchFromOutcome(w: World, q: Query, maxRetries: nat, retries: nat)
    requires retries <= maxRetries
    ensures var f := FetchFrom(w, q, maxRetries, retries);
      var rs := w.pending;
      var n := |rs| - |f.world.pending|;
      && (f.result.Ok? || f.result == Fail(MaxRetriesExceeded) || f.result == Fail(SessionRaised))
      && (f.result.Ok? ==>
            1 <= n && AllFailed(rs, n - 1) && rs[n - 1].status == OK_STATUS && f.result.value == rs[n - 1].body)
      && (f.result == Fail(MaxRetriesExceeded) ==> n == maxRetries - retries && AllFailed(rs, n))
      && (f.result == Fail(SessionRaised) ==> n == |rs| < maxRetries - retries && AllFailed(rs, n))
  {
    FetchFromSucceeded(w, q, maxRetries, retries);
    FetchFromFailed(w, q, maxRetries, retries);
  }

  /** `success_counts` after a fetch: one more than before when the first
      request succeeds, 1 when a success follows failures, 0 after any
      failed fetch that made a request, and unchanged when none was made. */
  lemma {:induction false} FetchFromSuccessCounts(w: World, q: Query, maxRetries: nat, retries: nat)
    requires retries <= maxRetries
    ensures var f := FetchFrom(w, q, maxRetries, retries);
      var n := |w.pending| - |f.world.pending|;
      && (f.result.Ok? ==> f.world.successCounts == if n == 1 then w.successCounts + 1 else 1)
      && (f.result.Fail? ==> f.world.successCounts == if n == 0 then w.successCounts else 0)
    decreases maxRetries - retries
  {
    FetchFromConsumes(w, q, maxRetries, retries);
    var f := FetchFrom(w, q, maxRetries, retries);
    if retries < maxRetries && w.pending != [] {
      var reply := w.pending[0];
      if reply.status != OK_STATUS {
        var w1 := Retry(w, q, AttemptWait(reply, retries));
        assert f == FetchFrom(w1, q, maxRetries, retries + 1);
        FetchFromSuccessCounts(w1, q, maxRetries, retries + 1);
        FetchFromConsumes(w1, q, maxRetries, retries + 1);
        FetchFromOutcome(w1, q, maxRetries, retries + 1);
      } else {
        assert f.world.successCounts == w.successCounts + 1;
        assert |f.world.pending| == |w.pending| - 1;
      }
    }
  }

  /** `get_data_with_backoff` from a fresh call (`retries = 0`): at most
      `maxRetries` requests, all with the same parameters; the body of the
      first 200 if one comes within the budget; "Max retries exceeded" after
      exactly `maxRetries` non-200 replies, whether 429s or other statuses;
      and one wait per attempt: 0.5 s for the 200, the backoff for attempt r
      after a 429, `TIMEOUT_PERIOD` after any other status. */
  lemma FetchContract(w: World, q: Query, maxRetries: nat)
    ensures var f := Fetch(w, q, maxRetries);
      var rs := w.pending;
      var n := |rs| - |f.world.pending|;
      && 0 <= n <= maxRetries
      && f.world.pending == rs[n..]
      && f.world.sent == w.sent + Repeat(q, n)
      && f.world.waits == w.waits + AttemptWaits(rs[..n], 0)
      && (f.result.Ok? || f.result == Fail(MaxRetriesExceeded) || f.result == Fail(SessionRaised))
      && (f.result.Ok? ==>
            1 <= n && AllFailed(rs, n - 1) && rs[n - 1].status == OK_STATUS && f.result.value == rs[n - 1].body
            && f.world.successCounts == if n == 1 then w.successCounts + 1 else 1)
      && (f.result == Fail(MaxRetriesExceeded) ==> n == maxRetries && AllFailed(rs, n))
      && (f.result == Fail(SessionRaised) ==> n == |rs| < maxRetries && AllFailed(rs, n))
      && (f.result.Fail? ==> f.world.successCounts == if n == 0 then w.successCounts else 0)
  {
    assert Fetch(w, q, maxRetries) == FetchFrom(w, q, maxRetries, 0);
    FetchFromShape(w, q, maxRetries, 0);
    FetchFromOutcome(w, q, maxRetries, 0);
    FetchFromSuccessCounts(w, q, maxRetries, 0);
  }

  /** The result of a fresh fetch alone: the body of the first 200 after
      failures only, or one of the two exceptions. */
  lemma FetchOutcome(w: World, q: Query, maxRetries: nat)
    ensures var f := Fetch(w, q, maxRetries);
      var n := |w.pending| - |f.world.pending|;
      && (f.result.Ok? ==>
            1 <= n <= maxRetries && AllFailed(w.pending, n - 1) && w.pending[n - 1].status == OK_STATUS
            && f.result.value == w.pending[n - 1].body)
      && (f.result.Fail? ==> f.result == Fail(MaxRetriesExceeded) || f.result == Fail(SessionRaised))
  {
    FetchFromOutcome(w, q, maxRetries, 0);
  }

  /** A 429 and any other failure status each count as one failed attempt:
      which of the two a failure was changes only the wait recorded, never
      the result, the number of requests or `success_counts`. */
  lemma {:induction false} FailureKindOnlyChangesWaits(w1: World, w2: World, q: Query, maxRetries: nat, retries: nat)
    requires SameSuccesses(w1.pending, w2.pending)
    requires w1.successCounts == w2.successCounts && w1.sent == w2.sent
    ensures var f1, f2 := FetchFrom(w1, q, maxRetries, retries), FetchFrom(w2, q, maxRetries, retries);
      f1.result == f2.result && f1.world.successCounts == f2.world.successCounts
      && f1.world.sent == f2.world.sent && |f1.world.pending| == |f2.world.pending|
    decreases maxRetries - retries
  {
    if retries < maxRetries && w1.pending != [] && w1.pending[0].status != OK_STATUS {
      var r1, r2 := w1.pending[0], w2.pending[0];
      var v1 := Retry(w1, q, AttemptWait(r1, retries));
      var v2 := Retry(w2, q, AttemptWait(r2, retries));
      SameSuccessesTail(w1.pending, w2.pending);
      FailureKindOnlyChangesWaits(v1, v2, q, maxRetries, retries + 1);
    }
  }

  /** Two 429s and then a 200.  The fetch succeeds on
      the third request, after two backoff waits, the second no shorter than
      the first. */
  lemma TwoRateLimitsThenSuccess(w: World, q: Query, b0: Body, b1: Body, b: Body, j0: real, j1: real, j2: real)
    requires 0.0 <= j0 <= 1.0 && 0.0 <= j1 <= 1.0
    requires w.pending == [Reply(429, b0, j0), Reply(429, b1, j1), Reply(200, b, j2)]
    ensures Fetch(w, q, MAX_RETRIES).result == Ok(b)
    ensures Fetch(w, q, MAX_RETRIES).world.waits
         == w.waits + [ExponentialBackoff(0, j0), ExponentialBackoff(1, j1), SUCCESS_PAUSE]
    ensures ExponentialBackoff(0, j0) <= ExponentialBackoff(1, j1)
  {
    var w1 := Retry(w, q, AttemptWait(w.pending[0], 0));
    var w2 := Retry(w1, q, AttemptWait(w1.pending[0], 1));
    assert Fetch(w, q, MAX_RETRIES) == FetchFrom(w1, q, MAX_RETRIES, 1);
    assert FetchFrom(w1, q, MAX_RETRIES, 1) == FetchFrom(w2, q, MAX_RETRIES, 2);
    BackoffNonDecreasing(0, j0, j1);
  }

  // ---------------------------------------------------------------------
  // The crawl of `main`, as a function of the script's state

  /** `get_city(url, params, county)`: the drill-down fetch, then
      `.get('facets', {}).get('city', [])`.  The cities are those of the one
      200 the fetch met, with no `city` facet read as no cities; a failure is
      one of the fetch's two exceptions. */
  function FetchCity(w: World, base: Query, county: string): (c: Fetched<seq<Bucket>>)
    ensures var n := |w.pending| - |c.world.pending|; 0 <= n && c.world.pending == w.pending[n..]
    ensures var n := |w.pending| - |c.world.pending|;
      c.result.Ok? ==> 1 <= n <= MAX_RETRIES && AllFailed(w.pending, n - 1) && w.pending[n - 1].status == OK_STATUS
    ensures var n := |w.pending| - |c.world.pending|;
      c.result.Ok? ==> c.result.value == FacetOrEmpty(w.pending[n - 1].body, "city")
    ensures c.result.Fail? ==> c.result == Fail(MaxRetriesExceeded) || c.result == Fail(SessionRaised)
  {
    var f := Fetch(w, CountyParams(base, county), MAX_RETRIES);
    FetchOutcome(w, CountyParams(base, county), MAX_RETRIES);
    Fetched(if f.result.Ok? then Ok(FacetOrEmpty(f.result.value, "city")) else Fail(f.result.failure), f.world)
  }

  /** The county loop of `main` from the point where the counties in `acc`
      are done; any exception ends it.  On completion the counties done
      before are kept and one result is added per remaining county. */
  function DrainCounties(w: World, base: Query, counties: seq<string>, acc: seq<CountyResult>): (d: Fetched<seq<CountyResult>>)
    ensures d.result.Ok? ==> |d.result.value| == |acc| + |counties| && d.result.value[..|acc|] == acc
    decreases |counties|
  {
    if counties == [] then Fetched(Ok(acc), w)
    else
      var c := FetchCity(w, base, counties[0]);
      match c.result
      case Fail(e) => Fetched(Fail(e), c.world)
      case Ok(cities) =>
        var acc' := acc + [CountyResult(counties[0], cities)];
        assert acc'[..|acc|] == acc;
        DrainCounties(c.world, base, counties[1..], acc')
  }

  /** One iteration of `main`'s state loop. */
  function CrawlState(w: World, startDate: int, endDate: int, keyword: string, state: string): (s: Fetched<StateResult>)
    ensures s.result.Ok? ==> s.result.value.code == state && CanonicallyNamed(s.result.value)
  {
    var params := StateParams(startDate, endDate, keyword, state);
    var f := Fetch(w, params, MAX_RETRIES);
    match f.result
    case Fail(e) => Fetched(Fail(e), f.world)
    case Ok(data) =>
      if RecordCountOrZero(data) <= 0 then Fetched(Ok(Skipped(state)), f.world)
      else
        match Facet(data, "county")
        case Fail(e) => Fetched(Fail(e), f.world)
        case Ok(countyDict) =>
          var d := DrainCounties(f.world, params, Values(countyDict), []);
          match d.result
          case Fail(e) => Fetched(Fail(e), d.world)
          case Ok(cs) =>
            if state in StateNames then Fetched(Ok(Crawled(state, StateNames[state], cs)), d.world)
            else Fetched(Fail(KeyMissing(state)), d.world)
  }

  /** `main`'s state loop from the point where the states in `acc` are done.
      On completion the states done before are kept and one result is added
      per remaining state. */
  function CrawlStates(w: World, startDate: int, endDate: int, keyword: string, states: seq<string>,
                       acc: seq<StateResult>): (c: Fetched<seq<StateResult>>)
    ensures c.result.Ok? ==> |c.result.value| == |acc| + |states| && c.result.value[..|acc|] == acc
    decreases |states|
  {
    if states == [] then Fetched(Ok(acc), w)
    else
      var s := CrawlState(w, startDate, endDate, keyword, states[0]);
      match s.result
      case Fail(e) => Fetched(Fail(e), s.world)
      case Ok(sr) =>
        var acc' := acc + [sr];
        assert acc'[..|acc|] == acc;
        CrawlStates(s.world, startDate, endDate, keyword, states[1..], acc')
  }

  /** `main(start_year, end_year, keyword)`: the table handed to `to_excel`,
      or the exception that ended the run before it. */
  function Run(w: World, startYear: int, endYear: int, keyword: string): Fetched<seq<Row>>
  {
    var c := CrawlStates(w, startYear, endYear, keyword, StateCodes, []);
    match c.result
    case Ok(ss) => Fetched(Ok(AllRows(ss)), c.world)
    case Fail(e) => Fetched(Fail(e), c.world)
  }

  /** The county loop adds one result per remaining county, in order, each
      named after its county. */
  lemma {:induction false} DrainCountiesOrder(w: World, base: Query, counties: seq<string>, acc: seq<CountyResult>)
    ensures var d := DrainCounties(w, base, counties, acc);
      d.result.Ok? ==> CountyNames(d.result.value) == CountyNames(acc) + counties
    decreases |counties|
  {
    if counties == [] {
      assert CountyNames(acc) + counties == CountyNames(acc);
    } else {
      var c := FetchCity(w, base, counties[0]);
      if c.result.Ok? {
        var acc' := acc + [CountyResult(counties[0], c.result.value)];
        DrainCountiesOrder(c.world, base, counties[1..], acc');
        CountyNamesSnoc(acc, CountyResult(counties[0], c.result.value));
        SnocThenRest(CountyNames(acc), counties);
      }
    }
  }

  /** One turn of the county loop: the first county's drill-down either
      ends the loop with its exception or adds that county and goes on. */
  lemma DrainCountiesStep(w: World, base: Query, counties: seq<string>, acc: seq<CountyResult>)
    requires counties != []
    ensures var c := FetchCity(w, base, counties[0]);
      DrainCounties(w, base, counties, acc)
        == if c.result.Fail? then Fetched(Fail(c.result.failure), c.world)
           else DrainCounties(c.world, base, counties[1..], acc + [CountyResult(counties[0], c.result.value)])
  {
  }

  /** The county loop uses up a prefix of the replies. */
  lemma {:induction false} DrainCountiesConsumes(w: World, base: Query, counties: seq<string>, acc: seq<CountyResult>)
    ensures var d := DrainCounties(w, base, counties, acc);
      var m := |w.pending| - |d.world.pending|;
      0 <= m && d.world.pending == w.pending[m..]
    decreases |counties|
  {
    if counties == [] {
      assert w.pending[0..] == w.pending;
    } else {
      var c := FetchCity(w, base, counties[0]);
      var n := |w.pending| - |c.world.pending|;
      DrainCountiesStep(w, base, counties, acc);
      if c.result.Ok? {
        var acc' := acc + [CountyResult(counties[0], c.result.value)];
        var d := DrainCounties(c.world, base, counties[1..], acc');
        DrainCountiesConsumes(c.world, base, counties[1..], acc');
        var m' := |c.world.pending| - |d.world.pending|;
        assert d.world.pending == w.pending[n + m'..] by {
          assert w.pending[n..][m'..] == w.pending[n + m'..];
        }
        assert DrainCounties(w, base, counties, acc) == d;
      } else {
        assert DrainCounties(w, base, counties, acc).world == c.world;
      }
    }
  }

  /** Every county the loop adds holds the city facet of a 200 among the
      replies the loop used up, or no cities when that body has none.  The
      reply is not tied to the county's position here; the exact order
      follows from chaining DrainCountiesStep with FetchCity, and in the
      all-200 case DrainCountiesAnswered ties county i to reply i. */
  lemma {:induction false} DrainCountiesCities(w: World, base: Query, counties: seq<string>, acc: seq<CountyResult>)
    ensures var d := DrainCounties(w, base, counties, acc);
      var m := |w.pending| - |d.world.pending|;
      d.result.Ok? ==>
        forall i :: |acc| <= i < |d.result.value| ==>
          exists j :: 0 <= j < m && w.pending[j].status == OK_STATUS
                      && d.result.value[i].cities == FacetOrEmpty(w.pending[j].body, "city")
    decreases |counties|
  {
    if counties != [] {
      var c := FetchCity(w, base, counties[0]);
      DrainCountiesStep(w, base, counties, acc);
      if c.result.Ok? {
        var n := |w.pending| - |c.world.pending|;
        var acc' := acc + [CountyResult(counties[0], c.result.value)];
        var d := DrainCounties(c.world, base, counties[1..], acc');
        assert DrainCounties(w, base, counties, acc) == d;
        if d.result.Ok? {
          DrainCountiesCities(c.world, base, counties[1..], acc');
          DrainCountiesConsumes(c.world, base, counties[1..], acc');
          var m := |w.pending| - |d.world.pending|;
          assert c.world.pending == w.pending[n..];
          forall i | |acc| <= i < |d.result.value|
            ensures exists j :: 0 <= j < m && w.pending[j].status == OK_STATUS
                                && d.result.value[i].cities == FacetOrEmpty(w.pending[j].body, "city")
          {
            if i == |acc| {
              assert d.result.value[i] == acc'[|acc|];
              assert 0 <= n - 1 < m;
            } else {
              var j :| 0 <= j < |c.world.pending| - |d.world.pending| && c.world.pending[j].status == OK_STATUS
                       && d.result.value[i].cities == FacetOrEmpty(c.world.pending[j].body, "city");
              assert c.world.pending[j] == w.pending[n + j];
            }
          }
        }
      }
    }
  }

  /** One state's iteration: it is skipped exactly when its fetch succeeded
      with a `recordCount` that is missing or not positive; otherwise it is
      crawled, carries the canonical name from `state_names_dict` and holds
      one county per county bucket, in bucket order. */
  lemma CrawlStateContract(w: World, startDate: int, endDate: int, keyword: string, state: string)
    ensures var s := CrawlState(w, startDate, endDate, keyword, state);
      var f := Fetch(w, StateParams(startDate, endDate, keyword, state), MAX_RETRIES);
      && (s.result.Ok? ==> s.result.value.code == state && CanonicallyNamed(s.result.value))
      && (s.result.Ok? && s.result.value.Skipped? <==> f.result.Ok? && RecordCountOrZero(f.result.value) <= 0)
      && (s.result.Ok? && s.result.value.Crawled? ==>
            && f.result.Ok? && Facet(f.result.value, "county").Ok?
            && CountyNames(s.result.value.counties) == Values(Facet(f.result.value, "county").value))
  {
    var params := StateParams(startDate, endDate, keyword, state);
    var f := Fetch(w, params, MAX_RETRIES);
    if f.result.Ok? && RecordCountOrZero(f.result.value) > 0 && Facet(f.result.value, "county").Ok? {
      var counties := Values(Facet(f.result.value, "county").value);
      DrainCountiesOrder(f.world, params, counties, []);
      assert CountyNames([]) + counties == counties;
    }
  }

  /** The state loop adds exactly one result per remaining state, in list
      order, each canonically named. */
  lemma {:induction false} CrawlStatesOrder(w: World, startDate: int, endDate: int, keyword: string,
                                            states: seq<string>, acc: seq<StateResult>)
    requires forall k :: 0 <= k < |acc| ==> CanonicallyNamed(acc[k])
    ensures var c := CrawlStates(w, startDate, endDate, keyword, states, acc);
      c.result.Ok? ==>
        Codes(c.result.value) == Codes(acc) + states
        && forall k :: 0 <= k < |c.result.value| ==> CanonicallyNamed(c.result.value[k])
    decreases |states|
  {
    if states == [] {
      assert Codes(acc) + states == Codes(acc);
    } else {
      var s := CrawlState(w, startDate, endDate, keyword, states[0]);
      if s.result.Ok? {
        var acc' := acc + [s.result.value];
        assert forall k :: 0 <= k < |acc'| ==> CanonicallyNamed(acc'[k]);
        CrawlStatesOrder(s.world, startDate, endDate, keyword, states[1..], acc');
        CodesSnoc(acc, s.result.value);
        SnocThenRest(Codes(acc), states);
      }
    }
  }

  /** The crawl of a list of states, from an empty accumulator, visits them
      in order, and every row it produces belongs to one visited state and
      carries that state's canonical name. */
  lemma CrawlStatesRows(w: World, startYear: int, endYear: int, keyword: string, states: seq<string>)
    ensures var c := CrawlStates(w, startYear, endYear, keyword, states, []);
      c.result.Ok? ==>
        && Codes(c.result.value) == states
        && (forall k :: 0 <= k < |c.result.value| ==> CanonicallyNamed(c.result.value[k]))
        && forall row :: row in AllRows(c.result.value) ==>
             exists k :: 0 <= k < |states| && states[k] in StateNames
                       && row.state == StateNames[states[k]] && row in StateRows(c.result.value[k])
  {
    var c := CrawlStates(w, startYear, endYear, keyword, states, []);
    CrawlStatesOrder(w, startYear, endYear, keyword, states, []);
    if c.result.Ok? {
      var ss := c.result.value;
      assert Codes([]) + states == states;
      forall row | row in AllRows(ss)
        ensures exists k :: 0 <= k < |states| && states[k] in StateNames
                          && row.state == StateNames[states[k]] && row in StateRows(ss[k])
      {
        AllRowsMember(ss, row);
        var k :| 0 <= k < |ss| && ss[k].Crawled? && row.state == ss[k].name && row in StateRows(ss[k]);
        assert CanonicallyNamed(ss[k]) && Codes(ss)[k] == states[k];
      }
    }
  }

  /** A completed run is the table of the crawl over `state_codes`: that
      crawl visited every state exactly once, in list order, each crawled
      state carries the name `state_names_dict` gives its code, and every
      row belongs to one of those states and carries its canonical name,
      never a raw code. */
  lemma RunContract(w: World, startYear: int, endYear: int, keyword: string)
    ensures var r := Run(w, startYear, endYear, keyword);
      var c := CrawlStates(w, startYear, endYear, keyword, StateCodes, []);
      r.result.Ok? ==>
        && c.result.Ok? && r.result.value == AllRows(c.result.value)
        && Codes(c.result.value) == StateCodes
        && (forall k :: 0 <= k < |c.result.value| ==> CanonicallyNamed(c.result.value[k]))
        && forall row :: row in r.result.value ==>
             exists k :: 0 <= k < |StateCodes| && StateCodes[k] in StateNames
                       && row.state == StateNames[StateCodes[k]] && row in StateRows(c.result.value[k])
  {
    CrawlStatesRows(w, startYear, endYear, keyword, StateCodes);
  }

  /** The county results a run of 200 replies yields: county `i` gets the
      city facet of reply `i`, or no cities when that body has none. */
  function Answered(counties: seq<string>, replies: seq<Reply>): (cs: seq<CountyResult>)
    requires |counties| <= |replies|
    ensures |cs| == |counties|
    ensures forall i :: 0 <= i < |counties| ==> cs[i] == CountyResult(counties[i], FacetOrEmpty(replies[i].body, "city"))
  {
    seq(|counties|, i requires 0 <= i < |counties| => CountyResult(counties[i], FacetOrEmpty(replies[i].body, "city")))
  }

  /** The first county takes the first reply, the others the rest. */
  lemma AnsweredCons(counties: seq<string>, replies: seq<Reply>)
    requires counties != [] && |counties| <= |replies|
    ensures Answered(counties, replies)
         == [CountyResult(counties[0], FacetOrEmpty(replies[0].body, "city"))] + Answered(counties[1..], replies[1..])
  {
    assert forall i :: 0 <= i < |counties| - 1 ==> replies[1..][i] == replies[i + 1];
  }

  /** A single county answered by its reply. */
  lemma SingleAnswer(county: string, replies: seq<Reply>)
    requires replies != []
    ensures Answered([county], replies) == [CountyResult(county, FacetOrEmpty(replies[0].body, "city"))]
  {
  }

  /** The drill-down queries of a list of counties, in order. */
  function CountyQueries(base: Query, counties: seq<string>): (qs: seq<Query>)
    ensures |qs| == |counties|
  {
    if counties == [] then [] else [CountyParams(base, counties[0])] + CountyQueries(base, counties[1..])
  }

  /** The state a request answered at once with a 200 leaves behind. */
  function Answer(w: World, q: Query): (w': World)
    requires w.pending != []
    ensures w'.pending == w.pending[1..] && w'.sent == w.sent + [q]
  {
    w.(pending := w.pending[1..], sent := w.sent + [q], successCounts := w.successCounts + 1,
       waits := w.waits + [SUCCESS_PAUSE])
  }

  /** A fetch whose first reply is a 200 returns that body after one
      request. */
  lemma FetchAnswered(w: World, q: Query, maxRetries: nat)
    requires w.pending != [] && w.pending[0].status == OK_STATUS && maxRetries >= 1
    ensures Fetch(w, q, maxRetries) == Fetched(Ok(w.pending[0].body), Answer(w, q))
  {
    assert FetchFrom(w, q, maxRetries, 0) == Fetched(Ok(w.pending[0].body), Answer(w, q));
  }

  /** A county whose drill-down is answered with a 200 at once is done
      after that one request, with the city facet of that reply. */
  lemma DrainCountiesAnsweredStep(w: World, base: Query, counties: seq<string>, acc: seq<CountyResult>)
    requires counties != [] && w.pending != [] && w.pending[0].status == OK_STATUS
    ensures DrainCounties(w, base, counties, acc)
         == DrainCounties(Answer(w, CountyParams(base, counties[0])), base, counties[1..],
                          acc + [CountyResult(counties[0], FacetOrEmpty(w.pending[0].body, "city"))])
  {
    FetchAnswered(w, CountyParams(base, counties[0]), MAX_RETRIES);
  }

  /** The first n replies are all 200s. */
  predicate AllAnswered(rs: seq<Reply>, n: nat)
  {
    n <= |rs| && forall i :: 0 <= i < n ==> rs[i].status == OK_STATUS
  }

  lemma AllAnsweredTail(rs: seq<Reply>, n: nat)
    requires n > 0 && AllAnswered(rs, n)
    ensures AllAnswered(rs[1..], n - 1)
  {
    assert forall i :: 0 <= i < n - 1 ==> rs[1..][i] == rs[i + 1];
  }

  /** The results and the replies left of a county loop whose drill-downs
      were all answered at once. */
  lemma {:induction false} DrainCountiesAnsweredResult(w: World, base: Query, counties: seq<string>,
                                                       acc: seq<CountyResult>)
    requires AllAnswered(w.pending, |counties|)
    ensures var d := DrainCounties(w, base, counties, acc);
      d.result == Ok(acc + Answered(counties, w.pending)) && d.world.pending == w.pending[|counties|..]
    decreases |counties|
  {
    if counties == [] {
      assert acc + Answered(counties, w.pending) == acc;
    } else {
      var w1 := Answer(w, CountyParams(base, counties[0]));
      var done := CountyResult(counties[0], FacetOrEmpty(w.pending[0].body, "city"));
      DrainCountiesAnsweredStep(w, base, counties, acc);
      AllAnsweredTail(w.pending, |counties|);
      DrainCountiesAnsweredResult(w1, base, counties[1..], acc + [done]);
      var rest := Answered(counties[1..], w1.pending);
      AnsweredCons(counties, w.pending);
      ConcatAssoc(acc, [done], rest);
      assert w1.pending[|counties| - 1..] == w.pending[|counties|..];
    }
  }

  /** The requests of a county loop whose drill-downs were all answered at
      once: one per county, in county order, with that county's filter. */
  lemma {:induction false} DrainCountiesAnsweredSent(w: World, base: Query, counties: seq<string>,
                                                     acc: seq<CountyResult>)
    requires AllAnswered(w.pending, |counties|)
    ensures DrainCounties(w, base, counties, acc).world.sent == w.sent + CountyQueries(base, counties)
    decreases |counties|
  {
    if counties == [] {
      assert w.sent + CountyQueries(base, counties) == w.sent;
    } else {
      var q := CountyParams(base, counties[0]);
      var w1 := Answer(w, q);
      var done := CountyResult(counties[0], FacetOrEmpty(w.pending[0].body, "city"));
      DrainCountiesAnsweredStep(w, base, counties, acc);
      AllAnsweredTail(w.pending, |counties|);
      DrainCountiesAnsweredSent(w1, base, counties[1..], acc + [done]);
      ConcatAssoc(w.sent, [q], CountyQueries(base, counties[1..]));
    }
  }

  /** When every county's drill-down is answered with a 200 at once, the
      county loop completes; county `i` gets the city buckets of reply `i`;
      exactly one request per county is sent, in county order, with that
      county's filter; and the replies after them are left untouched. */
  lemma DrainCountiesAnswered(w: World, base: Query, counties: seq<string>, acc: seq<CountyResult>)
    requires |counties| <= |w.pending|
    requires forall i :: 0 <= i < |counties| ==> w.pending[i].status == OK_STATUS
    ensures var d := DrainCounties(w, base, counties, acc);
      && d.result == Ok(acc + Answered(counties, w.pending))
      && d.world.pending == w.pending[|counties|..]
      && d.world.sent == w.sent + CountyQueries(base, counties)
  {
    DrainCountiesAnsweredResult(w, base, counties, acc);
    DrainCountiesAnsweredSent(w, base, counties, acc);
  }

  /** A state whose query is answered with a 200 at once and which has
      records goes on to the county loop over its county facet, from the
      replies after the state's. */
  lemma CrawlStateAnsweredStep(w: World, startYear: int, endYear: int, keyword: string, state: string)
    requires w.pending != [] && w.pending[0].status == OK_STATUS
    requires RecordCountOrZero(w.pending[0].body) > 0 && Facet(w.pending[0].body, "county").Ok?
    ensures var params := StateParams(startYear, endYear, keyword, state);
      var d := DrainCounties(Answer(w, params), params, Values(Facet(w.pending[0].body, "county").value), []);
      CrawlState(w, startYear, endYear, keyword, state)
        == if d.result.Fail? then Fetched(Fail(d.result.failure), d.world)
           else if state in StateNames then Fetched(Ok(Crawled(state, StateNames[state], d.result.value)), d.world)
           else Fetched(Fail(KeyMissing(state)), d.world)
  {
    FetchAnswered(w, StateParams(startYear, endYear, keyword, state), MAX_RETRIES);
  }

  /** A state whose query and every drill-down are answered with a 200 at
      once, and which has records: it is crawled, with county `i` of its
      county facet getting the city buckets of the reply after the state's,
      and the replies after those are left untouched. */
  lemma CrawlStateAnswered(w: World, startYear: int, endYear: int, keyword: string, state: string,
                           counties: seq<string>)
    requires w.pending != [] && w.pending[0].status == OK_STATUS
    requires RecordCountOrZero(w.pending[0].body) > 0 && Facet(w.pending[0].body, "county").Ok?
    requires counties == Values(Facet(w.pending[0].body, "county").value)
    requires AllAnswered(w.pending[1..], |counties|)
    requires state in StateNames
    ensures var s := CrawlState(w, startYear, endYear, keyword, state);
      && s.result == Ok(Crawled(state, StateNames[state], Answered(counties, w.pending[1..])))
      && s.world.pending == w.pending[|counties| + 1..]
  {
    var params := StateParams(startYear, endYear, keyword, state);
    var w1 := Answer(w, params);
    DrainCountiesAnsweredResult(w1, params, counties, []);
    CrawlStateAnsweredStep(w, startYear, endYear, keyword, state);
    ConcatEmpty(Answered(counties, w1.pending));
    assert w1.pending[|counties|..] == w.pending[|counties| + 1..];
  }

  /** A state whose records all lie in one county and one city, with both
      queries answered at once: the state is crawled with that one county
      holding that one city bucket, after one request for the state and one
      for the county. */
  lemma OneCityScenario(w: World, startYear: int, endYear: int, keyword: string, state: string,
                        county: string, countyCount: int, city: Bucket)
    requires state in StateNames
    requires |w.pending| >= 2 && w.pending[0].status == OK_STATUS && w.pending[1].status == OK_STATUS
    requires RecordCountOrZero(w.pending[0].body) > 0
    requires Facet(w.pending[0].body, "county") == Ok([Bucket(county, countyCount)])
    requires FacetOrEmpty(w.pending[1].body, "city") == [city]
    ensures var s := CrawlState(w, startYear, endYear, keyword, state);
      && s.result == Ok(Crawled(state, StateNames[state], [CountyResult(county, [city])]))
      && s.world.pending == w.pending[2..]
  {
    SingleValue(Bucket(county, countyCount));
    assert w.pending[1..][0] == w.pending[1];
    CrawlStateAnswered(w, startYear, endYear, keyword, state, [county]);
    SingleAnswer(county, w.pending[1..]);
  }

  /** Illinois, with the state query reporting five records, all in Cook
      County, and Cook's drill-down reporting five in Chicago: the state
      contributes exactly the row (Illinois, Cook, Chicago, 5), after one
      request for the state and one for Cook. */
  lemma IllinoisScenario(w: World, startYear: int, endYear: int, keyword: string)
    requires |w.pending| >= 2 && w.pending[0].status == OK_STATUS && w.pending[1].status == OK_STATUS
    requires w.pending[0].body.recordCount == Some(5)
    requires Facet(w.pending[0].body, "county") == Ok([Bucket("Cook", 5)])
    requires FacetOrEmpty(w.pending[1].body, "city") == [Bucket("Chicago", 5)]
    ensures var s := CrawlState(w, startYear, endYear, keyword, "il");
      && s.result.Ok?
      && StateRows(s.result.value) == [Row("Illinois", "Cook", "Chicago", 5)]
      && s.world.pending == w.pending[2..]
  {
    IllinoisNamed();
    var cook := CountyResult("Cook", [Bucket("Chicago", 5)]);
    OneCityScenario(w, startYear, endYear, keyword, "il", "Cook", 5, Bucket("Chicago", 5));
    SingleCityRows("il", "Illinois", cook);
  }

  /** A state whose query comes back at once with a `recordCount` that is
      0 or missing is skipped after that one request: it adds no rows and no
      drill-down is made. */
  lemma NoRecordsScenario(w: World, startYear: int, endYear: int, keyword: string, state: string)
    requires w.pending != [] && w.pending[0].status == OK_STATUS
    requires RecordCountOrZero(w.pending[0].body) <= 0
    ensures var s := CrawlState(w, startYear, endYear, keyword, state);
      && s.result == Ok(Skipped(state))
      && StateRows(s.result.value) == []
      && s.world.pending == w.pending[1..]
      && s.world.sent == w.sent + [StateParams(startYear, endYear, keyword, state)]
  {
    FetchAnswered(w, StateParams(startYear, endYear, keyword, state), MAX_RETRIES);
  }

  // ---------------------------------------------------------------------
  // The script's process-wide state and its imperative operations

  /** The HTTP session (modelled by the replies it will still receive) and
      the global `success_counts`, with ghost logs of the waits taken and of
      the parameters of every request sent. */
  class Client {
    var pending: seq<Reply>
    var successCounts: int
    ghost var waits: seq<real>
    ghost var sent: seq<Query>

    ghost function State(): World
      reads this
    {
      World(pending, successCounts, waits, sent)
    }

    constructor (replies: seq<Reply>)
      ensures State() == World(replies, 0, [], [])
    {
      pending := replies;
      successCounts := 0;
      waits := [];
      sent := [];
    }

    /** `time.sleep(seconds)`. */
    method Sleep(seconds: real)
      modifies this
      ensures State() == old(State()).(waits := old(waits) + [seconds])
    {
      waits := waits + [seconds];
    }

    /** `session.get(url, headers=headers, params=q)`: the next reply, or
        None when the session raises instead. */
    method Get(q: Query) returns (reply: Option<Reply>)
      modifies this
      ensures old(pending) == [] ==> reply == None && State() == old(State())
      ensures old(pending) != [] ==>
        reply == Some(old(pending)[0]) &&
        State() == old(State()).(pending := old(pending)[1..], sent := old(sent) + [q])
    {
      if pending == [] {
        reply := None;
      } else {
        reply := Some(pending[0]);
        pending := pending[1..];
        sent := sent + [q];
      }
    }

    /** `get_data_with_backoff(url, params, max_retries)`. */
    method GetDataWithBackoff(q: Query, maxRetries: nat) returns (r: Result<Body>)
      modifies this
      ensures Fetched(r, State()) == Fetch(old(State()), q, maxRetries)
    {
      var retries: nat := 0;
      while retries < maxRetries
        invariant retries <= maxRetries
        invariant Fetch(old(State()), q, maxRetries) == FetchFrom(State(), q, maxRetries, retries)
        decreases maxRetries - retries
      {
        var response := Get(q);
        if response.None? {
          return Fail(SessionRaised);
        }
        var reply := response.value;
        if reply.status == OK_STATUS {
          successCounts := successCounts + 1;
          Sleep(SUCCESS_PAUSE);
          return Ok(reply.body);
        } else if reply.status == TOO_MANY_REQUESTS {
          successCounts := 0;
          var waitTime := ExponentialBackoff(retries, reply.jitter);
          Sleep(waitTime);
          retries := retries + 1;
        } else {
          successCounts := 0;
          retries := retries + 1;
          Sleep(TIMEOUT_PERIOD);
        }
      }
      r := Fail(MaxRetriesExceeded);
    }

    /** `get_counties(start_date, end_date, keyword, state)`: the state-level
        fetch and the parameters it used. */
    method GetCounties(startDate: int, endDate: int, keyword: string, state: string)
      returns (data: Result<Body>, params: Query)
      modifies this
      ensures params == StateParams(startDate, endDate, keyword, state)
      ensures Fetched(data, State()) == Fetch(old(State()), params, MAX_RETRIES)
    {
      params := StateParams(startDate, endDate, keyword, state);
      data := GetDataWithBackoff(params, MAX_RETRIES);
    }

    /** `get_city(url, params, county)`. */
    method GetCity(params: Query, county: string) returns (cities: Result<seq<Bucket>>)
      modifies this
      ensures Fetched(cities, State()) == FetchCity(old(State()), params, county)
    {
      var countyParams := CountyParams(params, county);
      var data := GetDataWithBackoff(countyParams, MAX_RETRIES);
      match data
      case Ok(body) => cities := Ok(FacetOrEmpty(body, "city"));
      case Fail(e) => cities := Fail(e);
    }
  }

  /** The county loop of `main` for one state: one `get_city` per county, in
      order, each county's cities framed and concatenated into `df`. */
  method ScrapeCounties(client: Client, params: Query, counties: seq<string>)
    returns (r: Result<seq<CountyResult>>, df: seq<CityRow>)
    modifies client
    ensures Fetched(r, client.State()) == DrainCounties(old(client.State()), params, counties, [])
    ensures r.Ok? ==> df == StateFrame(r.value)
  {
    ghost var w0 := client.State();
    df := [];
    var drained: seq<CountyResult> := [];
    var j := 0;
    while j < |counties|
      invariant j <= |counties|
      invariant df == StateFrame(drained)
      invariant DrainCounties(w0, params, counties, []) == DrainCounties(client.State(), params, counties[j..], drained)
    {
      var county := counties[j];
      assert counties[j..][1..] == counties[j + 1..];
      var cityData := client.GetCity(params, county);
      if cityData.Fail? {
        return Fail(cityData.failure), df;
      }
      var done := CountyResult(county, cityData.value);
      StateFrameSnoc(drained, done);
      df := df + CountyFrame(done);
      drained := drained + [done];
      j := j + 1;
    }
    r := Ok(drained);
  }

  /** One iteration of `main`'s state loop: the state query, then, when the
      state has records, its counties and the state-tagged frame `df`. */
  method ScrapeState(client: Client, startYear: int, endYear: int, keyword: string, state: string)
    returns (r: Result<StateResult>, df: seq<Row>)
    modifies client
    ensures Fetched(r, client.State()) == CrawlState(old(client.State()), startYear, endYear, keyword, state)
    ensures r.Ok? ==> df == StateRows(r.value)
  {
    var data, params := client.GetCounties(startYear, endYear, keyword, state);
    if data.Fail? {
      return Fail(data.failure), [];
    }
    if RecordCountOrZero(data.value) <= 0 {
      return Ok(Skipped(state)), [];
    }
    var countyDict := Facet(data.value, "county");
    if countyDict.Fail? {
      return Fail(countyDict.failure), [];
    }
    var counties := Values(countyDict.value);
    var drained, frame := ScrapeCounties(client, params, counties);
    if drained.Fail? {
      return Fail(drained.failure), [];
    }
    if state !in StateNames {
      return Fail(KeyMissing(state)), [];
    }
    r := Ok(Crawled(state, StateNames[state], drained.value));
    df := TagState(StateNames[state], frame);
  }

  /** `main(start_year, end_year, keyword)`: visits the states in order and
      accumulates the rows of `whole_df`; an exception anywhere ends the
      run. */
  method Scrape(client: Client, startYear: int, endYear: int, keyword: string) returns (r: Result<seq<Row>>)
    modifies client
    ensures Fetched(r, client.State()) == Run(old(client.State()), startYear, endYear, keyword)
  {
    ghost var w0 := client.State();
    var wholeDf: seq<Row> := [];
    ghost var visited: seq<StateResult> := [];
    var count := 0;
    while count < |StateCodes|
      invariant count <= |StateCodes|
      invariant wholeDf == AllRows(visited)
      invariant CrawlStates(w0, startYear, endYear, keyword, StateCodes, [])
             == CrawlStates(client.State(), startYear, endYear, keyword, StateCodes[count..], visited)
    {
      var state := StateCodes[count];
      assert StateCodes[count..][1..] == StateCodes[count + 1..];
      var stateResult, df := ScrapeState(client, startYear, endYear, keyword, state);
      if stateResult.Fail? {
        return Fail(stateResult.failure);
      }
      AllRowsSnoc(visited, stateResult.value);
      wholeDf := wholeDf + df;
      visited := visited + [stateResult.value];
      count := count + 1;
    }
    r := Ok(wholeDf);
  }
}
