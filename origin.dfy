/** origin.py: the earlier scraper.  Its fetches build the whole query into
    the URL string, pause one second before every attempt, treat a 429 like
    any other failure, and give up by returning None after `MAX_RETRIES`
    attempts; its `main` aborts when the state-level fetch gives up and
    turns a county-level give-up into a county without cities.

    As in county_main.dfy, the network is the sequence of replies still to
    come, an exhausted sequence stands for `session.get` raising, and the
    waits and the URLs requested are kept in ghost logs. */
module Origin {
  import opened Api
  import opened Catalogue
  import opened Rows

  const MAX_RETRIES: nat := 3
  const TIMEOUT_PERIOD: real := 180.0
  /** The `time.sleep(1)` before every request. */
  const PAUSE: real := 1.0

  const SEARCH_URL := "https://www.newspapers.com/api/search/query"

  // ---------------------------------------------------------------------
  // URLs

  function Digit(d: nat): (c: char)
    requires d < 10
    ensures '0' <= c <= '9'
    ensures c as int - '0' as int == d
  {
    "0123456789"[d]
  }

  /** The decimal digits of n, as `str(n)` writes them. */
  function DecimalDigits(n: nat): (s: string)
    ensures |s| >= 1
    ensures forall i :: 0 <= i < |s| ==> '0' <= s[i] <= '9'
  {
    if n < 10 then [Digit(n)] else DecimalDigits(n / 10) + [Digit(n % 10)]
  }

  /** The number a string of decimal digits denotes. */
  function DigitsValue(s: string): int
  {
    if s == [] then 0 else 10 * DigitsValue(s[..|s| - 1]) + (s[|s| - 1] as int - '0' as int)
  }

  /** Reading back the digits `str(n)` writes gives n. */
  lemma {:induction false} DecimalRoundTrip(n: nat)
    ensures DigitsValue(DecimalDigits(n)) == n
  {
    var s := DecimalDigits(n);
    if n >= 10 {
      DecimalRoundTrip(n / 10);
      assert s[..|s| - 1] == DecimalDigits(n / 10);
      assert s[|s| - 1] == Digit(n % 10);
    } else {
      assert s == [Digit(n)];
    }
  }

  /** `f'{i}'` for an integer. */
  function IntToString(i: int): (s: string)
    ensures i < 0 ==> s == "-" + DecimalDigits(-i)
    ensures i >= 0 ==> s == DecimalDigits(i)
  {
    if i < 0 then "-" + DecimalDigits(-i) else DecimalDigits(i)
  }

  /** The integer an optionally signed string of decimal digits denotes, as
      `int(s)` reads it. */
  function SignedValue(s: string): int
  {
    if |s| > 0 && s[0] == '-' then -DigitsValue(s[1..]) else DigitsValue(s)
  }

  /** A negative number is written as a minus sign and the digits of its
      magnitude, and reads back as itself. */
  lemma NegativeRoundTrip(i: int)
    requires i < 0
    ensures SignedValue(IntToString(i)) == i
  {
    var n: nat := -i;
    DecimalRoundTrip(n);
    var d := DecimalDigits(n);
    var s := IntToString(i);
    assert s[0] == '-' && s[1..] == d;
  }

  /** A number that is not negative is written as its digits alone, and reads
      back as itself. */
  lemma NonNegativeRoundTrip(i: int)
    requires i >= 0
    ensures SignedValue(IntToString(i)) == i
  {
    var d := DecimalDigits(i);
    assert d[0] != '-';
    DecimalRoundTrip(i);
  }

  /** Reading back what `f'{i}'` writes gives i, negative or not. */
  lemma IntToStringRoundTrip(i: int)
    ensures SignedValue(IntToString(i)) == i
  {
    if i < 0 {
      NegativeRoundTrip(i);
    } else {
      NonNegativeRoundTrip(i);
    }
  }

  /** The part of the state URL before the state code. */
  const QUERY_HEAD := SEARCH_URL + "?product=1&entity-types=page,&start=*&count=100&region=us-"
  /** The facet limits that end the state URL. */
  const QUERY_TAIL := "&facet-year=1000&facet-country=200&facet-region=300&facet-county=260&facet-city=150"
    + "&facet-entity=5&facet-publication=5&include-publication-metadata=true"

  /** The part of the state URL after the state code. */
  function QueryRest(startDate: int, endDate: int, keyword: string): string
  {
    "&keyword=" + keyword + "&date-start=" + IntToString(startDate) + "&date-end=" + IntToString(endDate)
    + QUERY_TAIL
  }

  /** The keyword, the two dates and the facet limits can be read back, at
      the positions the parameter names fix, from the query after the state
      code. */
  lemma QueryRestReadBack(startDate: int, endDate: int, keyword: string)
    ensures var r := QueryRest(startDate, endDate, keyword);
      var k := |"&keyword="|;
      var a := k + |keyword| + |"&date-start="|;
      var b := a + |IntToString(startDate)|;
      var c := b + |"&date-end="|;
      var d := c + |IntToString(endDate)|;
      && d + |QUERY_TAIL| == |r|
      && r[..k] == "&keyword=" && r[k..k + |keyword|] == keyword
      && r[k + |keyword|..a] == "&date-start=" && SignedValue(r[a..b]) == startDate
      && r[b..c] == "&date-end=" && SignedValue(r[c..d]) == endDate
      && r[d..] == QUERY_TAIL
  {
    Pieces("&keyword=", keyword, "&date-start=", IntToString(startDate), "&date-end=", IntToString(endDate),
           QUERY_TAIL);
    IntToStringRoundTrip(startDate);
    IntToStringRoundTrip(endDate);
  }

  /** The f-string URL `get_counties` requests: the fixed head up to
      `region=us-`, the state code as it is, then the keyword, the dates and
      the facet limits.  Nothing is percent-encoded. */
  function StateUrl(startDate: int, endDate: int, keyword: string, state: string): (url: string)
    ensures |url| == |QUERY_HEAD| + |state| + |QueryRest(startDate, endDate, keyword)|
    ensures url[..|QUERY_HEAD|] == QUERY_HEAD
    ensures url[|QUERY_HEAD|..|QUERY_HEAD| + |state|] == state
    ensures url[|QUERY_HEAD| + |state|..] == QueryRest(startDate, endDate, keyword)
  {
    QUERY_HEAD + state + QueryRest(startDate, endDate, keyword)
  }

  /** Each of seven strings laid end to end is found again at its own
      offsets. */
  lemma Pieces(p1: string, p2: string, p3: string, p4: string, p5: string, p6: string, p7: string)
    ensures var r := p1 + p2 + p3 + p4 + p5 + p6 + p7;
      var o2 := |p1|;
      var o3 := o2 + |p2|;
      var o4 := o3 + |p3|;
      var o5 := o4 + |p4|;
      var o6 := o5 + |p5|;
      var o7 := o6 + |p6|;
      && |r| == o7 + |p7|
      && r[..o2] == p1 && r[o2..o3] == p2 && r[o3..o4] == p3 && r[o4..o5] == p4
      && r[o5..o6] == p5 && r[o6..o7] == p6 && r[o7..] == p7
  {
  }

  lemma CancelAround(p: string, a: string, b: string, q: string)
    requires p + a + q == p + b + q
    ensures a == b
  {
    assert a == (p + a + q)[|p|..|p + a + q| - |q|];
    assert b == (p + b + q)[|p|..|p + b + q| - |q|];
  }

  /** For a fixed year range and keyword, different states are requested
      at different URLs. */
  lemma StateUrlInjective(startDate: int, endDate: int, keyword: string, s1: string, s2: string)
    requires StateUrl(startDate, endDate, keyword, s1) == StateUrl(startDate, endDate, keyword, s2)
    ensures s1 == s2
  {
    CancelAround(QUERY_HEAD, s1, s2, QueryRest(startDate, endDate, keyword));
  }

  /** `url += f'&county={county}'`: the base URL, unchanged, followed by the
      county filter. */
  function CountyUrl(url: string, county: string): (u: string)
    ensures |u| == |url| + |"&county="| + |county|
    ensures u[..|url|] == url
    ensures u[|url|..] == "&county=" + county
  {
    url + "&county=" + county
  }

  /** The county can be read back off a drill-down URL, so different
      counties of one state are requested at different URLs. */
  lemma CountyUrlInjective(url: string, c1: string, c2: string)
    requires CountyUrl(url, c1) == CountyUrl(url, c2)
    ensures c1 == c2
  {
    assert c1 == CountyUrl(url, c1)[|url| + |"&county="|..];
    assert c2 == CountyUrl(url, c2)[|url| + |"&county="|..];
  }

  // ---------------------------------------------------------------------
  // The retry loop, as a function of the script's state

  /** The replies still to come, the log of waits and the log of URLs
      requested. */
  datatype World = World(pending: seq<Reply>, waits: seq<real>, sent: seq<string>)

  datatype Fetched<+T> = Fetched(result: Result<T>, world: World)

  /** The `while COUNTER != MAX_RETRIES` loop shared by `get_counties` and
      `get_city`, from the point where `counter` failures have been counted:
      the body of the first 200, or None once the counter reaches the
      budget. */
  function FetchFrom(w: World, url: string, counter: nat, maxRetries: nat): (f: Fetched<Option<Body>>)
    requires counter <= maxRetries
    ensures f.result.Ok? || f.result == Fail(SessionRaised)
    ensures |f.world.pending| <= |w.pending|
    decreases maxRetries - counter
  {
    if counter == maxRetries then Fetched(Ok(None), w)
    else
      var w1 := w.(waits := w.waits + [PAUSE]);
      if w1.pending == [] then Fetched(Fail(SessionRaised), w1)
      else
        var reply := w1.pending[0];
        var w2 := w1.(pending := w1.pending[1..], sent := w1.sent + [url]);
        if reply.status == OK_STATUS then Fetched(Ok(Some(reply.body)), w2)
        else if reply.status == TOO_MANY_REQUESTS then
          FetchFrom(w2.(waits := w2.waits + [TIMEOUT_PERIOD]), url, counter + 1, maxRetries)
        else
          FetchFrom(w2.(waits := w2.waits + [TIMEOUT_PERIOD]), url, counter + 1, maxRetries)
  }

  /** k failed attempts' worth of waits: the pause before each request and
      the rest period after it, alternating. */
  function Pauses(k: nat): (ps: seq<real>)
    ensures |ps| == 2 * k
    ensures forall i :: 0 <= i < |ps| ==> ps[i] == if i % 2 == 0 then PAUSE else TIMEOUT_PERIOD
  {
    if k == 0 then []
    else
      var rest := Pauses(k - 1);
      assert forall i :: 2 <= i < 2 * k ==> ([PAUSE, TIMEOUT_PERIOD] + rest)[i] == rest[i - 2];
      [PAUSE, TIMEOUT_PERIOD] + rest
  }

  lemma PausesStep(a: seq<real>, k: nat, tail: seq<real>)
    ensures a + [PAUSE] + [TIMEOUT_PERIOD] + Pauses(k) + tail == a + Pauses(k + 1) + tail
  {
  }

  /** The state after one attempt that did not get a 200: the reply is used
      up, the pause and the rest period are waited and the URL is sent. */
  function Failed(w: World, url: string): World
    requires w.pending != []
  {
    World(w.pending[1..], w.waits + [PAUSE] + [TIMEOUT_PERIOD], w.sent + [url])
  }

  lemma FetchFromFailStep(w: World, url: string, counter: nat, maxRetries: nat)
    requires counter < maxRetries && w.pending != [] && w.pending[0].status != OK_STATUS
    ensures FetchFrom(w, url, counter, maxRetries) == FetchFrom(Failed(w, url), url, counter + 1, maxRetries)
  {
  }

  /** The loop consumes a prefix of the replies, no longer than the budget
      left, and requests the same URL every time. */
  lemma {:induction false} FetchFromConsumes(w: World, url: string, counter: nat, maxRetries: nat)
    requires counter <= maxRetries
    ensures var f := FetchFrom(w, url, counter, maxRetries);
      var n := |w.pending| - |f.world.pending|;
      && 0 <= n <= maxRetries - counter
      && f.world.pending == w.pending[n..]
      && f.world.sent == w.sent + Repeat(url, n)
    decreases maxRetries - counter
  {
    var f := FetchFrom(w, url, counter, maxRetries);
    if counter < maxRetries && w.pending != [] {
      if w.pending[0].status != OK_STATUS {
        var w3 := Failed(w, url);
        var f3 := FetchFrom(w3, url, counter + 1, maxRetries);
        FetchFromFailStep(w, url, counter, maxRetries);
        FetchFromConsumes(w3, url, counter + 1, maxRetries);
        var n1 := |w3.pending| - |f3.world.pending|;
        assert f.world.pending == w.pending[n1 + 1..] by {
          assert w.pending[1..][n1..] == w.pending[n1 + 1..];
        }
        assert |w.pending| - |f.world.pending| == n1 + 1;
        AppendRepeat(w.sent, url, n1);
      } else {
        assert f.world.pending == w.pending[1..];
        AppendRepeat(w.sent, url, 0);
      }
    } else {
      assert f.world.pending == w.pending && f.world.sent == w.sent;
    }
  }

  /** A body is that of the first 200, met after failures only, with a pause
      before every request and a rest after every failure. */
  lemma {:induction false} FetchFromFound(w: World, url: string, counter: nat, maxRetries: nat)
    requires counter <= maxRetries
    ensures var f := FetchFrom(w, url, counter, maxRetries);
      var rs := w.pending;
      var n := |rs| - |f.world.pending|;
      f.result.Ok? && f.result.value.Some? ==>
        1 <= n <= |rs| && AllFailed(rs, n - 1) && rs[n - 1].status == OK_STATUS
        && f.result.value.value == rs[n - 1].body
        && f.world.waits == w.waits + Pauses(n - 1) + [PAUSE]
    decreases maxRetries - counter
  {
    var f := FetchFrom(w, url, counter, maxRetries);
    FetchFromConsumes(w, url, counter, maxRetries);
    if counter < maxRetries && w.pending != [] && w.pending[0].status != OK_STATUS {
      var w3 := Failed(w, url);
      var f3 := FetchFrom(w3, url, counter + 1, maxRetries);
      FetchFromFailStep(w, url, counter, maxRetries);
      FetchFromFound(w3, url, counter + 1, maxRetries);
      FetchFromConsumes(w3, url, counter + 1, maxRetries);
      var n1 := |w3.pending| - |f3.world.pending|;
      if f.result.Ok? && f.result.value.Some? {
        AllFailedCons(w.pending, n1 - 1);
        PausesStep(w.waits, n1 - 1, [PAUSE]);
        assert w.pending[1..][n1 - 1] == w.pending[n1];
      }
    } else if counter < maxRetries && w.pending != [] {
      assert f.result == Ok(Some(w.pending[0].body)) && f.world.waits == w.waits + [PAUSE];
      assert AllFailed(w.pending, 0);
    }
  }

  /** None comes after a full budget of failures, each with its pause and
      its rest. */
  lemma {:induction false} FetchFromGaveUp(w: World, url: string, counter: nat, maxRetries: nat)
    requires counter <= maxRetries
    ensures var f := FetchFrom(w, url, counter, maxRetries);
      var rs := w.pending;
      var n := |rs| - |f.world.pending|;
      f.result == Ok(None) ==>
        n == maxRetries - counter && 0 <= n <= |rs| && AllFailed(rs, n)
        && f.world.waits == w.waits + Pauses(n)
    decreases maxRetries - counter
  {
    var f := FetchFrom(w, url, counter, maxRetries);
    FetchFromConsumes(w, url, counter, maxRetries);
    if counter < maxRetries && w.pending != [] && w.pending[0].status != OK_STATUS {
      var w3 := Failed(w, url);
      var f3 := FetchFrom(w3, url, counter + 1, maxRetries);
      FetchFromFailStep(w, url, counter, maxRetries);
      FetchFromGaveUp(w3, url, counter + 1, maxRetries);
      FetchFromConsumes(w3, url, counter + 1, maxRetries);
      var n1 := |w3.pending| - |f3.world.pending|;
      if f.result == Ok(None) {
        AllFailedCons(w.pending, n1);
        PausesStep(w.waits, n1, []);
        assert w.waits + Pauses(n1 + 1) + [] == w.waits + Pauses(n1 + 1);
        assert f.world.waits == w.waits + Pauses(n1 + 1);
      }
    } else if f.result == Ok(None) {
      assert f.world == w;
    }
  }

  /** The session's exception comes when the replies run out within the
      budget, all of them failures, right after the pause before the next
      request. */
  lemma {:induction false} FetchFromRaised(w: World, url: string, counter: nat, maxRetries: nat)
    requires counter <= maxRetries
    ensures var f := FetchFrom(w, url, counter, maxRetries);
      var rs := w.pending;
      var n := |rs| - |f.world.pending|;
      f.result == Fail(SessionRaised) ==>
        n == |rs| < maxRetries - counter && AllFailed(rs, n)
        && f.world.waits == w.waits + Pauses(n) + [PAUSE]
    decreases maxRetries - counter
  {
    var f := FetchFrom(w, url, counter, maxRetries);
    FetchFromConsumes(w, url, counter, maxRetries);
    if counter < maxRetries && w.pending != [] && w.pending[0].status != OK_STATUS {
      var w3 := Failed(w, url);
      var f3 := FetchFrom(w3, url, counter + 1, maxRetries);
      FetchFromFailStep(w, url, counter, maxRetries);
      FetchFromRaised(w3, url, counter + 1, maxRetries);
      FetchFromConsumes(w3, url, counter + 1, maxRetries);
      var n1 := |w3.pending| - |f3.world.pending|;
      if f.result == Fail(SessionRaised) {
        AllFailedCons(w.pending, n1);
        PausesStep(w.waits, n1, [PAUSE]);
      }
    }
  }

  /** How the loop ends, in terms of the replies it met.  It makes at most
      `maxRetries - counter` requests, all to the same URL, and sleeps one
      second before each and `TIMEOUT_PERIOD` after each failure.  It
      returns the body of the first 200; returns None after a full budget of
      non-200 replies; and lets the session's exception through when the
      replies run out first. */
  lemma FetchFromOutcome(w: World, url: string, counter: nat, maxRetries: nat)
    requires counter <= maxRetries
    ensures var f := FetchFrom(w, url, counter, maxRetries);
      var rs := w.pending;
      var n := |rs| - |f.world.pending|;
      && 0 <= n <= maxRetries - counter
      && f.world.pending == rs[n..]
      && f.world.sent == w.sent + Repeat(url, n)
      && ((f.result.Ok? && f.result.value.Some?) || f.result == Ok(None) || f.result == Fail(SessionRaised))
      && (f.result.Ok? && f.result.value.Some? ==>
            1 <= n && AllFailed(rs, n - 1) && rs[n - 1].status == OK_STATUS
            && f.result.value.value == rs[n - 1].body
            && f.world.waits == w.waits + Pauses(n - 1) + [PAUSE])
      && (f.result == Ok(None) ==>
            n == maxRetries - counter && AllFailed(rs, n) && f.world.waits == w.waits + Pauses(n))
      && (f.result == Fail(SessionRaised) ==>
            n == |rs| < maxRetries - counter && AllFailed(rs, n)
            && f.world.waits == w.waits + Pauses(n) + [PAUSE])
  {
    FetchFromConsumes(w, url, counter, maxRetries);
    FetchFromFound(w, url, counter, maxRetries);
    FetchFromGaveUp(w, url, counter, maxRetries);
    FetchFromRaised(w, url, counter, maxRetries);
  }

  /** A 429 and any other non-200 status are handled identically: replies
      that differ only in which failure status they carry lead to the same
      result, the same waits and the same requests. */
  lemma {:induction false} FailureKindIrrelevant(w1: World, w2: World, url: string, counter: nat, maxRetries: nat)
    requires counter <= maxRetries
    requires SameSuccesses(w1.pending, w2.pending)
    requires w1.waits == w2.waits && w1.sent == w2.sent
    ensures var f1, f2 := FetchFrom(w1, url, counter, maxRetries), FetchFrom(w2, url, counter, maxRetries);
      f1.result == f2.result && f1.world.waits == f2.world.waits
      && f1.world.sent == f2.world.sent && |f1.world.pending| == |f2.world.pending|
    decreases maxRetries - counter
  {
    if counter < maxRetries && w1.pending != [] && w1.pending[0].status != OK_STATUS {
      SameSuccessesTail(w1.pending, w2.pending);
      var v1 := World(w1.pending[1..], w1.waits + [PAUSE] + [TIMEOUT_PERIOD], w1.sent + [url]);
      var v2 := World(w2.pending[1..], w2.waits + [PAUSE] + [TIMEOUT_PERIOD], w2.sent + [url]);
      FailureKindIrrelevant(v1, v2, url, counter + 1, maxRetries);
    }
  }

  /** `get_counties(start_date, end_date, keyword, state)`: the JSON of the
      state query, or None. */
  function FetchCounties(w: World, startDate: int, endDate: int, keyword: string, state: string): (f: Fetched<Option<Body>>)
    ensures var n := |w.pending| - |f.world.pending|;
      && 0 <= n <= MAX_RETRIES && f.world.pending == w.pending[n..]
      && f.world.sent == w.sent + Repeat(StateUrl(startDate, endDate, keyword, state), n)
  {
    FetchFromConsumes(w, StateUrl(startDate, endDate, keyword, state), 0, MAX_RETRIES);
    FetchFrom(w, StateUrl(startDate, endDate, keyword, state), 0, MAX_RETRIES)
  }

  /** `get_city(url, county)`: `r['facets']['city']` of the first 200,
      raising KeyError when that body lacks it, or None once `MAX_RETRIES`
      failures have been met. */
  function FetchCity(w: World, url: string, county: string): (c: Fetched<Option<seq<Bucket>>>)
    ensures var n := |w.pending| - |c.world.pending|; 0 <= n && c.world.pending == w.pending[n..]
    ensures var n := |w.pending| - |c.world.pending|;
      && (c.result.Ok? && c.result.value.Some? ==>
            && 1 <= n <= MAX_RETRIES && AllFailed(w.pending, n - 1) && w.pending[n - 1].status == OK_STATUS
            && Facet(w.pending[n - 1].body, "city") == Ok(c.result.value.value))
      && (c.result == Ok(None) ==> n == MAX_RETRIES && AllFailed(w.pending, n))
  {
    FetchFromOutcome(w, CountyUrl(url, county), 0, MAX_RETRIES);
    var f := FetchFrom(w, CountyUrl(url, county), 0, MAX_RETRIES);
    match f.result
    case Fail(e) => Fetched(Fail(e), f.world)
    case Ok(None) => Fetched(Ok(None), f.world)
    case Ok(Some(r)) =>
      match Facet(r, "city")
      case Fail(e) => Fetched(Fail(e), f.world)
      case Ok(cities) => Fetched(Ok(Some(cities)), f.world)
  }

  /** Three 500s for a state query: `get_counties` gives up with None after
      three requests to the same URL, having paused and rested three
      times. */
  lemma ThreeServerErrors(w: World, startDate: int, endDate: int, keyword: string, state: string, b: Body, j: real)
    requires w.pending == [Reply(500, b, j), Reply(500, b, j), Reply(500, b, j)]
    ensures var f := FetchCounties(w, startDate, endDate, keyword, state);
      var url := StateUrl(startDate, endDate, keyword, state);
      && f.result == Ok(None)
      && f.world.sent == w.sent + [url, url, url]
      && f.world.waits == w.waits + [PAUSE, TIMEOUT_PERIOD, PAUSE, TIMEOUT_PERIOD, PAUSE, TIMEOUT_PERIOD]
  {
    var url := StateUrl(startDate, endDate, keyword, state);
    var w1 := Failed(w, url);
    var w2 := World(w1.pending[1..], w1.waits + [PAUSE] + [TIMEOUT_PERIOD], w1.sent + [url]);
    var w3 := World(w2.pending[1..], w2.waits + [PAUSE] + [TIMEOUT_PERIOD], w2.sent + [url]);
    assert FetchFrom(w, url, 0, MAX_RETRIES) == FetchFrom(w1, url, 1, MAX_RETRIES);
    assert FetchFrom(w1, url, 1, MAX_RETRIES) == FetchFrom(w2, url, 2, MAX_RETRIES);
    assert FetchFrom(w2, url, 2, MAX_RETRIES) == FetchFrom(w3, url, 3, MAX_RETRIES);
  }

  /** A 200 whose body lacks `facets` or its `city` entry is an error, not an
      empty list of cities. */
  lemma MissingCityFacetRaises(w: World, url: string, county: string)
    requires w.pending != [] && w.pending[0].status == OK_STATUS
    requires Facet(w.pending[0].body, "city").Fail?
    ensures FetchCity(w, url, county).result == Fail(Facet(w.pending[0].body, "city").failure)
  {
  }

  // ---------------------------------------------------------------------
  // The crawl of `main`, as a function of the script's state

  /** The county loop from the point where the counties in `acc` are done.
      A county whose fetch gives up contributes no cities; an exception
      ends the loop. */
  function DrainCounties(w: World, url: string, counties: seq<string>, acc: seq<CountyResult>): (d: Fetched<seq<CountyResult>>)
    ensures d.result.Ok? ==> |d.result.value| == |acc| + |counties| && d.result.value[..|acc|] == acc
    decreases |counties|
  {
    if counties == [] then Fetched(Ok(acc), w)
    else
      var c := FetchCity(w, url, counties[0]);
      match c.result
      case Fail(e) => Fetched(Fail(e), c.world)
      case Ok(found) =>
        var acc' := acc + [CountyResult(counties[0], if found.Some? then found.value else [])];
        assert acc'[..|acc|] == acc;
        DrainCounties(c.world, url, counties[1..], acc')
  }

  /** One iteration of `main`'s state loop: unpacking None is a TypeError,
      and `data['recordCount']` a KeyError when the key is absent. */
  function CrawlState(w: World, startDate: int, endDate: int, keyword: string, state: string): (s: Fetched<StateResult>)
    ensures s.result.Ok? ==> s.result.value.code == state && CanonicallyNamed(s.result.value)
  {
    var url := StateUrl(startDate, endDate, keyword, state);
    var f := FetchCounties(w, startDate, endDate, keyword, state);
    match f.result
    case Fail(e) => Fetched(Fail(e), f.world)
    case Ok(None) => Fetched(Fail(UnpackNone), f.world)
    case Ok(Some(data)) =>
      match data.recordCount
      case None => Fetched(Fail(KeyMissing("recordCount")), f.world)
      case Some(recordCount) =>
        if recordCount <= 0 then Fetched(Ok(Skipped(state)), f.world)
        else
          match Facet(data, "county")
          case Fail(e) => Fetched(Fail(e), f.world)
          case Ok(countyDict) =>
            var d := DrainCounties(f.world, url, Values(countyDict), []);
            match d.result
            case Fail(e) => Fetched(Fail(e), d.world)
            case Ok(cs) =>
              if state in StateNames then Fetched(Ok(Crawled(state, StateNames[state], cs)), d.world)
              else Fetched(Fail(KeyMissing(state)), d.world)
  }

  /** `main`'s state loop from the point where the states in `acc` are done.
      On completion the states done before are kept and one result is added
      per remaining state. */
  function CrawlStates(w: World, startDate: int, endDate: int, keyword: string, states: seq<string>,
                       acc: seq<StateResult>): (c: Fetched<seq<StateResult>>)
    ensures c.result.Ok? ==> |c.result.value| == |acc| + |states| && c.result.value[..|acc|] == acc
    decreases |states|
  {
    if states == [] then Fetched(Ok(acc), w)
    else
      var s := CrawlState(w, startDate, endDate, keyword, states[0]);
      match s.result
      case Fail(e) => Fetched(Fail(e), s.world)
      case Ok(sr) =>
        var acc' := acc + [sr];
        assert acc'[..|acc|] == acc;
        CrawlStates(s.world, startDate, endDate, keyword, states[1..], acc')
  }

  /** `main(start_year, end_year, keyword)`: the table handed to `to_excel`,
      or the exception that ended the run before it. */
  function Run(w: World, startYear: int, endYear: int, keyword: string): Fetched<seq<Row>>
  {
    var c := CrawlStates(w, startYear, endYear, keyword, StateCodes, []);
    match c.result
    case Ok(ss) => Fetched(Ok(AllRows(ss)), c.world)
    case Fail(e) => Fetched(Fail(e), c.world)
  }

  /** A county whose drill-down meets `MAX_RETRIES` failures does not stop
      the loop: after those three requests, with their pauses and rests, it
      is recorded without cities, so it adds no rows, and the next county's
      drill-down starts on the reply that follows. */
  lemma ExhaustedCountyContinues(w: World, url: string, county: string, rest: seq<string>, acc: seq<CountyResult>)
    requires MAX_RETRIES <= |w.pending| && AllFailed(w.pending, MAX_RETRIES)
    ensures var w' := World(w.pending[MAX_RETRIES..], w.waits + Pauses(MAX_RETRIES),
                            w.sent + Repeat(CountyUrl(url, county), MAX_RETRIES));
      DrainCounties(w, url, [county] + rest, acc) == DrainCounties(w', url, rest, acc + [CountyResult(county, [])])
    ensures StateFrame([CountyResult(county, [])]) == []
  {
    var u := CountyUrl(url, county);
    FetchFromOutcome(w, u, 0, MAX_RETRIES);
    var f := FetchFrom(w, u, 0, MAX_RETRIES);
    assert f.result == Ok(None);
    assert ([county] + rest)[1..] == rest;
  }

  /** One turn of the county loop: the first county's drill-down either
      ends the loop with its exception or adds that county, with no cities
      when the fetch gave up, and goes on. */
  lemma DrainCountiesStep(w: World, url: string, counties: seq<string>, acc: seq<CountyResult>)
    requires counties != []
    ensures var c := FetchCity(w, url, counties[0]);
      DrainCounties(w, url, counties, acc)
        == if c.result.Fail? then Fetched(Fail(c.result.failure), c.world)
           else DrainCounties(c.world, url, counties[1..],
                              acc + [CountyResult(counties[0], if c.result.value.Some? then c.result.value.value else [])])
  {
  }

  /** The county loop uses up a prefix of the replies. */
  lemma {:induction false} DrainCountiesConsumes(w: World, url: string, counties: seq<string>, acc: seq<CountyResult>)
    ensures var d := DrainCounties(w, url, counties, acc);
      var m := |w.pending| - |d.world.pending|;
      0 <= m && d.world.pending == w.pending[m..]
    decreases |counties|
  {
    if counties == [] {
      assert w.pending[0..] == w.pending;
    } else {
      var c := FetchCity(w, url, counties[0]);
      var n := |w.pending| - |c.world.pending|;
      DrainCountiesStep(w, url, counties, acc);
      if c.result.Ok? {
        var acc' := acc + [CountyResult(counties[0], if c.result.value.Some? then c.result.value.value else [])];
        var d := DrainCounties(c.world, url, counties[1..], acc');
        DrainCountiesConsumes(c.world, url, counties[1..], acc');
        var m' := |c.world.pending| - |d.world.pending|;
        assert d.world.pending == w.pending[n + m'..] by {
          assert w.pending[n..][m'..] == w.pending[n + m'..];
        }
        assert DrainCounties(w, url, counties, acc) == d;
      } else {
        assert DrainCounties(w, url, counties, acc).world == c.world;
      }
    }
  }

  /** Reply j is a 200 whose city facet is `cities`. */
  predicate AnsweredAt(rs: seq<Reply>, j: int, cities: seq<Bucket>)
  {
    0 <= j < |rs| && rs[j].status == OK_STATUS && Facet(rs[j].body, "city") == Ok(cities)
  }

  /** The `MAX_RETRIES` replies from j on are all failures. */
  predicate GaveUpAt(rs: seq<Reply>, j: int)
  {
    0 <= j && j + MAX_RETRIES <= |rs| && AllFailed(rs[j..], MAX_RETRIES)
  }

  /** Where a county's cities came from, among the first m replies: the
      city facet of a 200, or none after `MAX_RETRIES` failures in a row. */
  predicate CitiesFrom(rs: seq<Reply>, m: int, cities: seq<Bucket>)
  {
    (exists j :: 0 <= j < m && AnsweredAt(rs, j, cities))
    || (cities == [] && exists j :: 0 <= j <= m - MAX_RETRIES && GaveUpAt(rs, j))
  }

  /** What holds of the replies after the first n holds of all of them, n
      positions later. */
  lemma CitiesFromShift(rs: seq<Reply>, n: nat, m: int, cities: seq<Bucket>)
    requires n <= |rs| && CitiesFrom(rs[n..], m, cities)
    ensures CitiesFrom(rs, n + m, cities)
  {
    if exists j :: 0 <= j < m && AnsweredAt(rs[n..], j, cities) {
      var j :| 0 <= j < m && AnsweredAt(rs[n..], j, cities);
      assert rs[n..][j] == rs[n + j];
      assert AnsweredAt(rs, n + j, cities);
    } else {
      var j :| 0 <= j <= m - MAX_RETRIES && GaveUpAt(rs[n..], j);
      assert rs[n..][j..] == rs[n + j..];
      assert GaveUpAt(rs, n + j);
    }
  }

  /** The cities `get_city` hands the county loop come from the replies it
      used up. */
  lemma FetchCityCities(w: World, url: string, county: string)
    ensures var c := FetchCity(w, url, county);
      c.result.Ok? ==>
        CitiesFrom(w.pending, |w.pending| - |c.world.pending|, if c.result.value.Some? then c.result.value.value else [])
  {
    var c := FetchCity(w, url, county);
    var n := |w.pending| - |c.world.pending|;
    if c.result.Ok? {
      if c.result.value.Some? {
        assert AnsweredAt(w.pending, n - 1, c.result.value.value);
      } else {
        assert w.pending[0..] == w.pending;
        assert GaveUpAt(w.pending, 0);
      }
    }
  }

  /** Every county the loop adds holds the city facet of a 200 among the
      replies the loop used up, or holds no cities after `MAX_RETRIES`
      failures in a row among them. */
  lemma {:induction false} DrainCountiesCities(w: World, url: string, counties: seq<string>, acc: seq<CountyResult>)
    ensures var d := DrainCounties(w, url, counties, acc);
      var m := |w.pending| - |d.world.pending|;
      d.result.Ok? ==>
        forall i :: |acc| <= i < |d.result.value| ==> CitiesFrom(w.pending, m, d.result.value[i].cities)
    decreases |counties|
  {
    if counties == [] {
      assert DrainCounties(w, url, counties, acc).result == Ok(acc);
    } else {
      var c := FetchCity(w, url, counties[0]);
      var n := |w.pending| - |c.world.pending|;
      DrainCountiesStep(w, url, counties, acc);
      if c.result.Fail? {
        assert DrainCounties(w, url, counties, acc).result.Fail?;
      } else {
        var first := if c.result.value.Some? then c.result.value.value else [];
        var acc' := acc + [CountyResult(counties[0], first)];
        var d := DrainCounties(c.world, url, counties[1..], acc');
        assert DrainCounties(w, url, counties, acc) == d;
        if d.result.Ok? {
          DrainCountiesCities(c.world, url, counties[1..], acc');
          DrainCountiesConsumes(c.world, url, counties[1..], acc');
          FetchCityCities(w, url, counties[0]);
          var m' := |c.world.pending| - |d.world.pending|;
          var m := |w.pending| - |d.world.pending|;
          assert m == n + m' && c.world.pending == w.pending[n..];
          assert d.result.value[|acc|] == acc'[|acc|];
          CitiesFromAll(w.pending, n, c.world.pending, m', d.result.value, |acc|);
        }
      }
    }
  }

  /** Results `k` on: the first came from the first n replies, the others
      from the replies after those, so all of them from the first m. */
  lemma CitiesFromAll(rs: seq<Reply>, n: nat, rest: seq<Reply>, m': int, vs: seq<CountyResult>, k: nat)
    requires n <= |rs| && rest == rs[n..] && 0 <= m' && k < |vs|
    requires CitiesFrom(rs, n, vs[k].cities)
    requires forall i :: k < i < |vs| ==> CitiesFrom(rest, m', vs[i].cities)
    ensures forall i :: k <= i < |vs| ==> CitiesFrom(rs, n + m', vs[i].cities)
  {
    forall i | k <= i < |vs|
      ensures CitiesFrom(rs, n + m', vs[i].cities)
    {
      if i == k {
        CitiesFromMore(rs, n, n + m', vs[k].cities);
      } else {
        CitiesFromShift(rs, n, m', vs[i].cities);
      }
    }
  }

  /** Looking at more replies keeps what was found among fewer. */
  lemma CitiesFromMore(rs: seq<Reply>, m: int, m': int, cities: seq<Bucket>)
    requires m <= m' && CitiesFrom(rs, m, cities)
    ensures CitiesFrom(rs, m', cities)
  {
  }

  /** The county loop adds one result per county, in order, whether or not
      that county's fetch gave up. */
  lemma {:induction false} DrainCountiesOrder(w: World, url: string, counties: seq<string>, acc: seq<CountyResult>)
    ensures var d := DrainCounties(w, url, counties, acc);
      d.result.Ok? ==> CountyNames(d.result.value) == CountyNames(acc) + counties
    decreases |counties|
  {
    if counties == [] {
      assert CountyNames(acc) + counties == CountyNames(acc);
    } else {
      var c := FetchCity(w, url, counties[0]);
      if c.result.Ok? {
        var done := CountyResult(counties[0], if c.result.value.Some? then c.result.value.value else []);
        DrainCountiesOrder(c.world, url, counties[1..], acc + [done]);
        CountyNamesSnoc(acc, done);
        SnocThenRest(CountyNames(acc), counties);
      }
    }
  }

  /** One state's iteration: a give-up at state level aborts the run with
      the unpacking error; a body without `recordCount` is a KeyError; a
      state is skipped exactly when its `recordCount` is not positive, and
      otherwise holds one county per county bucket, in bucket order. */
  lemma CrawlStateContract(w: World, startDate: int, endDate: int, keyword: string, state: string)
    ensures var s := CrawlState(w, startDate, endDate, keyword, state);
      var f := FetchCounties(w, startDate, endDate, keyword, state);
      && (f.result == Ok(None) ==> s.result == Fail(UnpackNone))
      && (f.result.Ok? && f.result.value.Some? && f.result.value.value.recordCount.None? ==>
            s.result == Fail(KeyMissing("recordCount")))
      && (s.result.Ok? && s.result.value.Skipped? <==>
            f.result.Ok? && f.result.value.Some? && f.result.value.value.recordCount.Some?
            && f.result.value.value.recordCount.value <= 0)
      && (s.result.Ok? && s.result.value.Crawled? ==>
            && f.result.Ok? && f.result.value.Some?
            && Facet(f.result.value.value, "county").Ok?
            && CountyNames(s.result.value.counties) == Values(Facet(f.result.value.value, "county").value))
  {
    var url := StateUrl(startDate, endDate, keyword, state);
    var f := FetchCounties(w, startDate, endDate, keyword, state);
    if f.result.Ok? && f.result.value.Some? && Facet(f.result.value.value, "county").Ok? {
      var counties := Values(Facet(f.result.value.value, "county").value);
      DrainCountiesOrder(f.world, url, counties, []);
      assert CountyNames([]) + counties == counties;
    }
  }

  /** The state loop adds exactly one result per remaining state, in list
      order, each canonically named. */
  lemma {:induction false} CrawlStatesOrder(w: World, startDate: int, endDate: int, keyword: string,
                                            states: seq<string>, acc: seq<StateResult>)
    requires forall k :: 0 <= k < |acc| ==> CanonicallyNamed(acc[k])
    ensures var c := CrawlStates(w, startDate, endDate, keyword, states, acc);
      c.result.Ok? ==>
        Codes(c.result.value) == Codes(acc) + states
        && forall k :: 0 <= k < |c.result.value| ==> CanonicallyNamed(c.result.value[k])
    decreases |states|
  {
    if states == [] {
      assert Codes(acc) + states == Codes(acc);
    } else {
      var s := CrawlState(w, startDate, endDate, keyword, states[0]);
      if s.result.Ok? {
        var acc' := acc + [s.result.value];
        assert forall k :: 0 <= k < |acc'| ==> CanonicallyNamed(acc'[k]);
        CrawlStatesOrder(s.world, startDate, endDate, keyword, states[1..], acc');
        CodesSnoc(acc, s.result.value);
        SnocThenRest(Codes(acc), states);
      }
    }
  }

  /** The crawl of a list of states, from an empty accumulator, visits them
      in order, and every row it produces belongs to one visited state and
      carries that state's canonical name. */
  lemma CrawlStatesRows(w: World, startYear: int, endYear: int, keyword: string, states: seq<string>)
    ensures var c := CrawlStates(w, startYear, endYear, keyword, states, []);
      c.result.Ok? ==>
        && Codes(c.result.value) == states
        && (forall k :: 0 <= k < |c.result.value| ==> CanonicallyNamed(c.result.value[k]))
        && forall row :: row in AllRows(c.result.value) ==>
             exists k :: 0 <= k < |states| && states[k] in StateNames
                       && row.state == StateNames[states[k]] && row in StateRows(c.result.value[k])
  {
    var c := CrawlStates(w, startYear, endYear, keyword, states, []);
    CrawlStatesOrder(w, startYear, endYear, keyword, states, []);
    if c.result.Ok? {
      var ss := c.result.value;
      assert Codes([]) + states == states;
      forall row | row in AllRows(ss)
        ensures exists k :: 0 <= k < |states| && states[k] in StateNames
                          && row.state == StateNames[states[k]] && row in StateRows(ss[k])
      {
        AllRowsMember(ss, row);
        var k :| 0 <= k < |ss| && ss[k].Crawled? && row.state == ss[k].name && row in StateRows(ss[k]);
        assert CanonicallyNamed(ss[k]) && Codes(ss)[k] == states[k];
      }
    }
  }

  /** A completed run is the table of the crawl over `state_codes`: that
      crawl visited every state exactly once, in list order, each crawled
      state carries the name `state_names_dict` gives its code, and every
      row belongs to one of those states and carries its canonical name. */
  lemma RunContract(w: World, startYear: int, endYear: int, keyword: string)
    ensures var r := Run(w, startYear, endYear, keyword);
      var c := CrawlStates(w, startYear, endYear, keyword, StateCodes, []);
      r.result.Ok? ==>
        && c.result.Ok? && r.result.value == AllRows(c.result.value)
        && Codes(c.result.value) == StateCodes
        && (forall k :: 0 <= k < |c.result.value| ==> CanonicallyNamed(c.result.value[k]))
        && forall row :: row in r.result.value ==>
             exists k :: 0 <= k < |StateCodes| && StateCodes[k] in StateNames
                       && row.state == StateNames[StateCodes[k]] && row in StateRows(c.result.value[k])
  {
    CrawlStatesRows(w, startYear, endYear, keyword, StateCodes);
  }

  /** The county results a run of 200 replies yields: county `i` gets the
      city facet of reply `i`. */
  function Answered(counties: seq<string>, replies: seq<Reply>): (cs: seq<CountyResult>)
    requires |counties| <= |replies|
    requires forall i :: 0 <= i < |counties| ==> Facet(replies[i].body, "city").Ok?
    ensures |cs| == |counties|
    ensures forall i :: 0 <= i < |counties| ==> cs[i] == CountyResult(counties[i], Facet(replies[i].body, "city").value)
  {
    seq(|counties|, i requires 0 <= i < |counties| => CountyResult(counties[i], Facet(replies[i].body, "city").value))
  }

  /** The first county takes the first reply, the others the rest. */
  lemma AnsweredCons(counties: seq<string>, replies: seq<Reply>)
    requires counties != [] && |counties| <= |replies|
    requires forall i :: 0 <= i < |counties| ==> Facet(replies[i].body, "city").Ok?
    ensures Answered(counties, replies)
         == [CountyResult(counties[0], Facet(replies[0].body, "city").value)] + Answered(counties[1..], replies[1..])
  {
    assert forall i :: 0 <= i < |counties| - 1 ==> replies[1..][i] == replies[i + 1];
  }

  /** The drill-down URLs of a list of counties, in order. */
  function CountyUrls(url: string, counties: seq<string>): (us: seq<string>)
    ensures |us| == |counties|
  {
    if counties == [] then [] else [CountyUrl(url, counties[0])] + CountyUrls(url, counties[1..])
  }

  /** The state a request answered at once with a 200 leaves behind: the
      pause before it, and the reply consumed. */
  function Answer(w: World, url: string): (w': World)
    requires w.pending != []
    ensures w'.pending == w.pending[1..] && w'.sent == w.sent + [url]
  {
    World(w.pending[1..], w.waits + [PAUSE], w.sent + [url])
  }

  /** A county whose drill-down is answered with a 200 carrying a city facet
      is done after that one request, with that facet. */
  lemma DrainCountiesAnsweredStep(w: World, url: string, counties: seq<string>, acc: seq<CountyResult>)
    requires counties != [] && w.pending != [] && w.pending[0].status == OK_STATUS
    requires Facet(w.pending[0].body, "city").Ok?
    ensures DrainCounties(w, url, counties, acc)
         == DrainCounties(Answer(w, CountyUrl(url, counties[0])), url, counties[1..],
                          acc + [CountyResult(counties[0], Facet(w.pending[0].body, "city").value)])
  {
    var u := CountyUrl(url, counties[0]);
    assert FetchFrom(w, u, 0, MAX_RETRIES) == Fetched(Ok(Some(w.pending[0].body)), Answer(w, u));
  }

  /** The replies a county loop answered at once with 200s carrying city
      facets. */
  predicate AllAnswered(rs: seq<Reply>, n: nat)
  {
    n <= |rs| && forall i :: 0 <= i < n ==> rs[i].status == OK_STATUS && Facet(rs[i].body, "city").Ok?
  }

  lemma AllAnsweredTail(rs: seq<Reply>, n: nat)
    requires n > 0 && AllAnswered(rs, n)
    ensures AllAnswered(rs[1..], n - 1)
  {
    assert forall i :: 0 <= i < n - 1 ==> rs[1..][i] == rs[i + 1];
  }

  /** The results and the replies left of a county loop whose drill-downs
      were all answered at once. */
  lemma {:induction false} DrainCountiesAnsweredResult(w: World, url: string, counties: seq<string>,
                                                       acc: seq<CountyResult>)
    requires AllAnswered(w.pending, |counties|)
    ensures var d := DrainCounties(w, url, counties, acc);
      d.result == Ok(acc + Answered(counties, w.pending)) && d.world.pending == w.pending[|counties|..]
    decreases |counties|
  {
    if counties == [] {
      assert acc + Answered(counties, w.pending) == acc;
    } else {
      var w1 := Answer(w, CountyUrl(url, counties[0]));
      var done := CountyResult(counties[0], Facet(w.pending[0].body, "city").value);
      DrainCountiesAnsweredStep(w, url, counties, acc);
      AllAnsweredTail(w.pending, |counties|);
      DrainCountiesAnsweredResult(w1, url, counties[1..], acc + [done]);
      var rest := Answered(counties[1..], w1.pending);
      AnsweredCons(counties, w.pending);
      ConcatAssoc(acc, [done], rest);
      assert w1.pending[|counties| - 1..] == w.pending[|counties|..];
    }
  }

  /** The requests of a county loop whose drill-downs were all answered at
      once: one per county, in county order, to that county's URL. */
  lemma {:induction false} DrainCountiesAnsweredSent(w: World, url: string, counties: seq<string>,
                                                     acc: seq<CountyResult>)
    requires AllAnswered(w.pending, |counties|)
    ensures DrainCounties(w, url, counties, acc).world.sent == w.sent + CountyUrls(url, counties)
    decreases |counties|
  {
    if counties == [] {
      assert w.sent + CountyUrls(url, counties) == w.sent;
    } else {
      var u := CountyUrl(url, counties[0]);
      var w1 := Answer(w, u);
      var done := CountyResult(counties[0], Facet(w.pending[0].body, "city").value);
      DrainCountiesAnsweredStep(w, url, counties, acc);
      AllAnsweredTail(w.pending, |counties|);
      DrainCountiesAnsweredSent(w1, url, counties[1..], acc + [done]);
      ConcatAssoc(w.sent, [u], CountyUrls(url, counties[1..]));
    }
  }

  /** When every county's drill-down is answered with a 200 at once and
      every such body has a city facet, the county loop completes; county
      `i` gets the city buckets of reply `i`; exactly one request per county
      is sent, in county order, to that county's URL; and the replies after
      them are left untouched. */
  lemma DrainCountiesAnswered(w: World, url: string, counties: seq<string>, acc: seq<CountyResult>)
    requires |counties| <= |w.pending|
    requires forall i :: 0 <= i < |counties| ==>
      w.pending[i].status == OK_STATUS && Facet(w.pending[i].body, "city").Ok?
    ensures var d := DrainCounties(w, url, counties, acc);
      && d.result == Ok(acc + Answered(counties, w.pending))
      && d.world.pending == w.pending[|counties|..]
      && d.world.sent == w.sent + CountyUrls(url, counties)
  {
    DrainCountiesAnsweredResult(w, url, counties, acc);
    DrainCountiesAnsweredSent(w, url, counties, acc);
  }

  // ---------------------------------------------------------------------
  // The script's process-wide state and its imperative operations

  /** The HTTP session, modelled by the replies it will still receive, with
      ghost logs of the waits taken and the URLs requested. */
  class Client {
    var pending: seq<Reply>
    ghost var waits: seq<real>
    ghost var sent: seq<string>

    ghost function State(): World
      reads this
    {
      World(pending, waits, sent)
    }

    constructor (replies: seq<Reply>)
      ensures State() == World(replies, [], [])
    {
      pending := replies;
      waits := [];
      sent := [];
    }

    /** `time.sleep(seconds)`. */
    method Sleep(seconds: real)
      modifies this
      ensures State() == old(State()).(waits := old(waits) + [seconds])
    {
      waits := waits + [seconds];
    }

    /** `session.get(url, headers=headers)`: the next reply, or None when
        the session raises instead. */
    method Get(url: string) returns (reply: Option<Reply>)
      modifies this
      ensures old(pending) == [] ==> reply == None && State() == old(State())
      ensures old(pending) != [] ==>
        reply == Some(old(pending)[0]) &&
        State() == old(State()).(pending := old(pending)[1..], sent := old(sent) + [url])
    {
      if pending == [] {
        reply := None;
      } else {
        reply := Some(pending[0]);
        pending := pending[1..];
        sent := sent + [url];
      }
    }

    /** `get_counties(start_date, end_date, keyword, state)`: the JSON of
        the state query (None once the attempts run out) and the URL it
        used. */
    method GetCounties(startDate: int, endDate: int, keyword: string, state: string)
      returns (data: Result<Option<Body>>, url: string)
      modifies this
      ensures url == StateUrl(startDate, endDate, keyword, state)
      ensures Fetched(data, State()) == FetchCounties(old(State()), startDate, endDate, keyword, state)
    {
      url := StateUrl(startDate, endDate, keyword, state);
      var counter := 0;
      while counter != MAX_RETRIES
        invariant counter <= MAX_RETRIES
        invariant FetchCounties(old(State()), startDate, endDate, keyword, state)
               == FetchFrom(State(), url, counter, MAX_RETRIES)
        decreases MAX_RETRIES - counter
      {
        Sleep(PAUSE);
        var response := Get(url);
        if response.None? {
          return Fail(SessionRaised), url;
        }
        var reply := response.value;
        if reply.status == OK_STATUS {
          return Ok(Some(reply.body)), url;
        } else if reply.status == TOO_MANY_REQUESTS {
          counter := counter + 1;
          Sleep(TIMEOUT_PERIOD);
        } else {
          counter := counter + 1;
          Sleep(TIMEOUT_PERIOD);
        }
      }
      data := Ok(None);
    }

    /** `get_city(url, county)`: the city buckets of the drill-down query,
        None once the attempts run out. */
    method GetCity(url: string, county: string) returns (cities: Result<Option<seq<Bucket>>>)
      modifies this
      ensures Fetched(cities, State()) == FetchCity(old(State()), url, county)
    {
      var countyUrl := CountyUrl(url, county);
      var counter := 0;
      while counter != MAX_RETRIES
        invariant counter <= MAX_RETRIES
        invariant FetchFrom(old(State()), countyUrl, 0, MAX_RETRIES)
               == FetchFrom(State(), countyUrl, counter, MAX_RETRIES)
        decreases MAX_RETRIES - counter
      {
        Sleep(PAUSE);
        var response := Get(countyUrl);
        if response.None? {
          return Fail(SessionRaised);
        }
        var reply := response.value;
        if reply.status == OK_STATUS {
          var r := reply.body;
          var found := Facet(r, "city");
          if found.Fail? {
            return Fail(found.failure);
          }
          return Ok(Some(found.value));
        } else if reply.status == TOO_MANY_REQUESTS {
          counter := counter + 1;
          Sleep(TIMEOUT_PERIOD);
        } else {
          counter := counter + 1;
          Sleep(TIMEOUT_PERIOD);
        }
      }
      cities := Ok(None);
    }
  }

  /** The county loop of `main` for one state: `pd.DataFrame(None)` is an
      empty frame, so a county whose fetch gave up adds no rows. */
  method ScrapeCounties(client: Client, url: string, counties: seq<string>)
    returns (r: Result<seq<CountyResult>>, df: seq<CityRow>)
    modifies client
    ensures Fetched(r, client.State()) == DrainCounties(old(client.State()), url, counties, [])
    ensures r.Ok? ==> df == StateFrame(r.value)
  {
    ghost var w0 := client.State();
    df := [];
    var drained: seq<CountyResult> := [];
    var j := 0;
    while j < |counties|
      invariant j <= |counties|
      invariant df == StateFrame(drained)
      invariant DrainCounties(w0, url, counties, []) == DrainCounties(client.State(), url, counties[j..], drained)
    {
      var county := counties[j];
      assert counties[j..][1..] == counties[j + 1..];
      var cityData := client.GetCity(url, county);
      if cityData.Fail? {
        return Fail(cityData.failure), df;
      }
      var done := CountyResult(county, if cityData.value.Some? then cityData.value.value else []);
      StateFrameSnoc(drained, done);
      df := df + CountyFrame(done);
      drained := drained + [done];
      j := j + 1;
    }
    r := Ok(drained);
  }

  /** One iteration of `main`'s state loop. */
  method ScrapeState(client: Client, startYear: int, endYear: int, keyword: string, state: string)
    returns (r: Result<StateResult>, df: seq<Row>)
    modifies client
    ensures Fetched(r, client.State()) == CrawlState(old(client.State()), startYear, endYear, keyword, state)
    ensures r.Ok? ==> df == StateRows(r.value)
  {
    var response, url := client.GetCounties(startYear, endYear, keyword, state);
    if response.Fail? {
      return Fail(response.failure), [];
    }
    if response.value.None? {
      return Fail(UnpackNone), [];
    }
    var data := response.value.value;
    if data.recordCount.None? {
      return Fail(KeyMissing("recordCount")), [];
    }
    if data.recordCount.value <= 0 {
      return Ok(Skipped(state)), [];
    }
    var countyDict := Facet(data, "county");
    if countyDict.Fail? {
      return Fail(countyDict.failure), [];
    }
    var counties := Values(countyDict.value);
    var drained, frame := ScrapeCounties(client, url, counties);
    if drained.Fail? {
      return Fail(drained.failure), [];
    }
    if state !in StateNames {
      return Fail(KeyMissing(state)), [];
    }
    r := Ok(Crawled(state, StateNames[state], drained.value));
    df := TagState(StateNames[state], frame);
  }

  /** `main(start_year, end_year, keyword)`: visits the states in order and
      accumulates the rows of `whole_df`; an exception anywhere ends the
      run. */
  method Scrape(client: Client, startYear: int, endYear: int, keyword: string) returns (r: Result<seq<Row>>)
    modifies client
    ensures Fetched(r, client.State()) == Run(old(client.State()), startYear, endYear, keyword)
  {
    ghost var w0 := client.State();
    var wholeDf: seq<Row> := [];
    ghost var visited: seq<StateResult> := [];
    var count := 0;
    while count < |StateCodes|
      invariant count <= |StateCodes|
      invariant wholeDf == AllRows(visited)
      invariant CrawlStates(w0, startYear, endYear, keyword, StateCodes, [])
             == CrawlStates(client.State(), startYear, endYear, keyword, StateCodes[count..], visited)
    {
      var state := StateCodes[count];
      assert StateCodes[count..][1..] == StateCodes[count + 1..];
      var stateResult, df := ScrapeState(client, startYear, endYear, keyword, state);
      if stateResult.Fail? {
        return Fail(stateResult.failure);
      }
      AllRowsSnoc(visited, stateResult.value);
      wholeDf := wholeDf + df;
      visited := visited + [stateResult.value];
      count := count + 1;
    }
    r := Ok(wholeDf);
  }
}
