# newspapers.com facet scraper: a Dafny model

The repository holds two Python scrapers and one JavaScript summariser for the
newspapers.com search API:

- `county_main.py` (current scraper). For every US state it asks for the
  state's county facet. It then drills into every county for its city facet and
  flattens the answers into a table of (state, county, city, count) rows.
  Requests go through `get_data_with_backoff`. This retries a 429 with capped
  exponential backoff and any other failure after a 180 s rest. It keeps a
  process-wide `success_counts`, and it raises "Max retries exceeded" after 10
  failures.
- `origin.py` (earlier scraper). It does the same crawl, but builds each query
  into the URL string and pauses 1 s before every attempt. It treats a 429 like
  any other failure. After 3 failures it gives up by returning `None`.
- `main.js` folds the `count`s of the city, county and region facets of a saved
  response and prints the three totals and their sum.

The model keeps the programs' structure:

- `api.dfy` (module `Api`) holds the values exchanged with the API:
  - a reply: status, parsed body, and the jitter drawn in that attempt;
  - a body: an optional `recordCount` and optional facets;
  - the exceptions that end a run;
  - the strict (`d['facets'][k]`) and lenient (`.get('facets', {}).get(k, [])`)
    facet lookups.
- `catalogue.dfy` (module `Catalogue`) holds `state_codes` and
  `state_names_dict`. The two scripts have the same entries.
- `rows.dfy` (module `Rows`) is the pandas flattening of both `main`s. Frames
  become sequences of rows.
- `county_main.dfy` (module `CountyMain`) and `origin.dfy` (module `Origin`)
  each contain:
  - the script's fetch loop, as a function of a `World`: the replies still to
    come, `success_counts`, and ghost logs of waits and requests;
  - the crawl of `main`, as functions over that world, with lemmas giving their
    contracts;
  - a `Client` class holding the session state, whose methods (`while` loops
    that update the counters) are proved equal to those functions;
  - the `Scrape*` methods, the nested loops of `main` that build `df` and
    `whole_df`, proved equal to the same functions.
- `totals.dfy` (module `FacetTotals`) is `main.js`. `reduce` is a left fold,
  proved equal to an independent recursive sum.

The network is a sequence of replies that successive `session.get` calls use
up. A call that finds it empty stands for `session.get` raising. `time.sleep`
adds its duration to a ghost log of waits, and every request adds its
parameters (`county_main.py`) or its URL (`origin.py`) to a ghost log of
requests.

Both scripts let these failures end the run:

- `county_main.py` ends the whole run on "Max retries exceeded" and on a
  missing `data['facets']['county']`.
- `origin.py` ends the run when `get_counties` gives up: unpacking `None` into
  `data, url` fails.
- `origin.py` raises on a 200 body without `facets`/`city` and on a body without
  `recordCount`.
- Only `origin.py`'s `get_city` turns exhaustion into an empty county.

## Model

| member | source | states |
|---|---|---|
| Api.FacetOrEmpty | county_main.py:156 | The `.get` chain agrees with the strict lookup wherever that succeeds, and is empty wherever it would raise. |
| Catalogue.CodesAscending | county_main.py:27-30 | `state_codes` is in strictly ascending order. |
| Catalogue.CodesDistinct | county_main.py:27-30 | No state code occurs twice, so each state is visited exactly once. |
| Catalogue.AscendingIsDistinct | county_main.py:27-30 | A strictly ascending list has no repeats. |
| Catalogue.EveryCodeNamed | county_main.py:27-82 | Every code of `state_codes` has an entry in `state_names_dict`, so the name lookup never raises. |
| Catalogue.IllinoisNamed | county_main.py:46 | `state_names_dict['il']` is "Illinois". |
| Rows.StateFrame | county_main.py:165-170 | A state's frame has exactly one row per city bucket of its counties. |
| Rows.StateRows | county_main.py:165-171 | A skipped state adds no rows. Every row of a crawled state carries that state's name. |
| Rows.AllRows | county_main.py:159-172 | A run in which every state was skipped leaves `whole_df` empty. |
| Rows.StateFrameConcat | county_main.py:166-170 | The frame of two runs of counties is the first frame followed by the second (no re-sorting). |
| Rows.CityCountConcat | county_main.py:166-170 | The city count of two runs of counties is the sum of their counts. |
| Rows.StateFramePosition | county_main.py:166-170 | Row `CityCount(cs[..i]) + j` is city `j` of county `i`: county order, then city order. |
| Rows.StateFrameMember | county_main.py:166-170 | A row is in the frame if and only if it is some city bucket of some county, labelled with that county. |
| Rows.StateRowsAt | county_main.py:165-171 | Each row of a crawled state is the city of the county at the matching position, tagged with the state's name. |
| Rows.AllRowsConcat | county_main.py:172 | `whole_df` over two runs of states is the first table followed by the second. |
| Rows.AllRowsMember | county_main.py:160-172 | Every output row comes from a crawled state and carries its name. |
| Rows.RowsNamedBy | county_main.py:171-172 | If each state is tagged with the name a table gives its code, every output row carries the name of a visited code. |
| Rows.SingleCityRows | county_main.py:166-171 | A state with one county holding one city contributes exactly that one row, tagged with the state's name. |
| Rows.StateFrameSnoc | county_main.py:170 | Appending a county appends its frame. |
| Rows.AllRowsSnoc | county_main.py:172 | Appending a state appends its rows. |
| CountyMain.ExponentialBackoff | county_main.py:102-103 | The wait never exceeds 60. For a jitter in [0, 1] it lies between `min(60, 2^r)` and `min(60, 2^r + 1)`. |
| CountyMain.BackoffNonDecreasing | county_main.py:102-103 | The backoff for attempt r+1 is at least that for attempt r, whatever the jitters. |
| CountyMain.BackoffSaturates | county_main.py:102-103 | From r = 6 on, every backoff is exactly 60 s. |
| CountyMain.StateParams | county_main.py:131-148 | The state query has `region = "us-" + state`, the caller's keyword and both years. |
| CountyMain.StateParamsKeys | county_main.py:131-148 | The state query has exactly the sixteen keys the dict literal lists. |
| CountyMain.StateParamsPaging | county_main.py:132-147 | Product 1, pages only, from the first result, 100 per page, with publication metadata. |
| CountyMain.StateParamsFacets | county_main.py:140-146 | The facet depths: year 1000, country 200, region 300, county 260, city 150, entity 5, publication 5. |
| CountyMain.StateParamsNoCounty | county_main.py:131-148 | The state query has no `county` entry, so a drill-down adds the only county filter. |
| CountyMain.StateParamsInjective | county_main.py:136 | Different states get different queries. |
| CountyMain.CountyParams | county_main.py:152-155 | The drill-down query has the base's keys plus `county`, sets `county`, and keeps every other entry. |
| CountyMain.CountyParamsRestore | county_main.py:151-155 | Removing `county` from the drill-down query gives back the base query unchanged. |
| CountyMain.FetchFrom | county_main.py:107-127 | The loop returns a body or raises "Max retries exceeded" or the session's exception, and never uses more replies than there are. |
| CountyMain.Fetch | county_main.py:107-127 | At most `max_retries` requests, all with the same parameters, using up a prefix of the replies. |
| CountyMain.AttemptWait | county_main.py:112-126 | The wait after an attempt never exceeds 180 s, and is positive for any jitter `random.uniform(0, 1)` can draw. |
| CountyMain.FetchFromConsumes | county_main.py:110-111 | A fetch reads a prefix of the replies no longer than the remaining budget, and sends the same parameters every time. |
| CountyMain.AttemptWaitsAt | county_main.py:114-126 | Wait `i` of a fetch is the wait attempt `retries + i` records for reply `i`. |
| CountyMain.FetchFromWaits | county_main.py:114-126 | One wait per attempt, in order: 0.5 s after a 200, `exponential_backoff(r)` after a 429 on attempt r, 180 s after any other failure. |
| CountyMain.FetchFromShape | county_main.py:107-127 | The previous two lemmas combined: at most the remaining budget of requests, all with the same parameters, and one wait per attempt. |
| CountyMain.FetchFromSucceeded | county_main.py:110-115 | A success returns the body of the first 200, all earlier replies being failures. |
| CountyMain.FetchFromFailed | county_main.py:110-127 | A failure is either "Max retries exceeded" after exactly the remaining budget of non-200 replies, or the session raising because the replies ran out within the budget. |
| CountyMain.FetchFromOutcome | county_main.py:107-127 | The three ways a fetch ends, combined. |
| CountyMain.FetchFromSuccessCounts | county_main.py:113-123 | `success_counts` goes up by 1 on an immediate 200. It is 1 after a 200 that followed failures, 0 after any failed fetch that made a request, and unchanged when no request was made. |
| CountyMain.FetchContract | county_main.py:107-127 | `get_data_with_backoff` from a fresh call: all of the above with `retries = 0`. |
| CountyMain.FailureKindOnlyChangesWaits | county_main.py:116-126 | A 429 and any other failure each count as one failed attempt. Swapping one for the other changes only the waits, never the result, the requests or `success_counts`. |
| CountyMain.TwoRateLimitsThenSuccess | county_main.py:110-121 | 429, 429, 200: the third body is returned after backoffs for attempts 0 and 1, the second no shorter than the first. |
| CountyMain.FetchCity | county_main.py:151-156 | `get_city` uses up a prefix of the replies. Its cities are the lenient city facet of the first 200, met within the budget after failures only. Its failures are the fetch's two exceptions. |
| CountyMain.DrainCounties | county_main.py:166-170 | A completed county loop keeps the counties done before and adds one result per remaining county. |
| CountyMain.DrainCountiesConsumes | county_main.py:166-170 | The county loop uses up a prefix of the replies. |
| CountyMain.DrainCountiesCities | county_main.py:166-170 | Every county the loop adds holds the lenient city facet of a 200 among the replies the loop used up. |
| CountyMain.DrainCountiesOrder | county_main.py:164-170 | The county loop adds its results in bucket order, one per county, each named after its county. |
| CountyMain.DrainCountiesAnswered | county_main.py:166-170 | When every drill-down gets a 200 at once, county `i` gets the city facet of reply `i`. Exactly one request per county is sent, in county order, with that county's filter, and the later replies are left untouched. |
| CountyMain.CrawlState | county_main.py:161-171 | A state's result is for that state and carries its canonical name. |
| CountyMain.CrawlStates | county_main.py:160-172 | A completed state loop keeps the states done before and adds one result per remaining state. |
| CountyMain.CrawlStateContract | county_main.py:161-172 | A state is skipped exactly when its fetch succeeded with a missing or non-positive `recordCount`. Otherwise its counties are exactly the county buckets' values, in order. |
| CountyMain.CrawlStateAnswered | county_main.py:161-171 | A state with records whose query and drill-downs all get a 200 at once is crawled. County `i` of its county facet gets the city facet of the reply after the state's, and the later replies are left untouched. |
| CountyMain.OneCityScenario | county_main.py:161-171 | A state whose records lie in one county and one city is crawled with exactly that county and that city after two requests. |
| CountyMain.IllinoisScenario | county_main.py:160-172 | Illinois with five records, all in Cook County and all in Chicago, contributes exactly the row (Illinois, Cook, Chicago, 5) after two requests. |
| CountyMain.NoRecordsScenario | county_main.py:161-162 | A state whose `recordCount` is 0 or missing is skipped after its one request. It contributes no rows and no drill-down is sent. |
| CountyMain.CrawlStatesOrder | county_main.py:160-172 | The state loop adds one result per state, in list order, each canonically named. |
| CountyMain.CrawlStatesRows | county_main.py:160-172 | A crawl of a list of states visits them in order. Every row belongs to one of those states and carries that state's canonical name. |
| CountyMain.RunContract | county_main.py:158-174 | A completed run's table is that of the crawl over `state_codes`, which visited every state once, in order. Every row belongs to one state and carries the name `state_names_dict` gives its code. |
| CountyMain.Client.constructor | county_main.py:105 | A fresh session with `success_counts = 0` and empty logs. |
| CountyMain.Client.Sleep | county_main.py:114 | `time.sleep` appends its duration to the wait log and changes nothing else. |
| CountyMain.Client.Get | county_main.py:111 | `session.get` takes the next reply and logs the request, or raises when no reply is left. |
| CountyMain.Client.GetDataWithBackoff | county_main.py:107-127 | The `while retries < max_retries` loop ends with exactly the result and session state that `Fetch` specifies. |
| CountyMain.Client.GetCounties | county_main.py:129-149 | Returns the state query and the fetch of it. |
| CountyMain.Client.GetCity | county_main.py:151-156 | The drill-down fetch and its lenient city lookup, as `FetchCity` specifies. |
| CountyMain.ScrapeCounties | county_main.py:166-170 | The county loop ends as `DrainCounties` specifies, and its `df` is the frame of the county results. |
| CountyMain.ScrapeState | county_main.py:161-172 | One state iteration ends as `CrawlState` specifies, and its `df` is that state's rows. |
| CountyMain.Scrape | county_main.py:158-174 | The state loop ends as `Run` specifies, with `whole_df` the run's table. |
| Origin.DecimalDigits | origin.py:131 | `str(n)` is a non-empty string of decimal digits. |
| Origin.DecimalRoundTrip | origin.py:131 | Reading back the digits of `str(n)` gives n. |
| Origin.IntToStringRoundTrip | origin.py:131 | Reading back what `f'{i}'` writes gives i, negative or not. |
| Origin.QueryRestReadBack | origin.py:131 | After the state code, the keyword and both dates can be read back at the positions the parameter names fix, followed by the fixed facet limits. |
| Origin.StateUrl | origin.py:131 | The state URL is the fixed head ending in `region=us-`, then the state code as it is, then the keyword, dates and facet limits. |
| Origin.StateUrlInjective | origin.py:131 | For fixed years and keyword, different states are requested at different URLs. |
| Origin.CountyUrl | origin.py:175 | The drill-down URL is the base URL unchanged followed by `&county=` and the county. |
| Origin.CountyUrlInjective | origin.py:175 | Different counties of a state are requested at different URLs. |
| Origin.FetchFrom | origin.py:134-156 | The loop ends with a body, with `None`, or with the session raising, and never uses more replies than there are. |
| Origin.Pauses | origin.py:137-154 | The waits of k failed attempts alternate the 1 s pause and the 180 s rest, two per attempt. |
| Origin.FetchFromConsumes | origin.py:134-156 | The loop reads a prefix of the replies no longer than the remaining budget (3 from scratch), and requests the same URL every time. |
| Origin.FetchFromFound | origin.py:137-144 | A body is that of the first 200 after failures only. The waits are a 1 s pause before each request and 180 s after each failure. |
| Origin.FetchFromGaveUp | origin.py:134-156 | `None` comes after exactly the remaining budget of failures, each with its pause and rest. |
| Origin.FetchFromRaised | origin.py:137-138 | The session raises when the replies run out within the budget, right after the pause before the next request. |
| Origin.FetchFromOutcome | origin.py:134-156 | The loop's whole contract: budget, same URL, the three endings, and the waits of each. |
| Origin.FailureKindIrrelevant | origin.py:145-154 | A 429 and any other failure are handled identically: same result, same waits, same requests. |
| Origin.FetchCounties | origin.py:114-156 | `get_counties` makes at most 3 requests, all to the state URL, using up a prefix of the replies. |
| Origin.FetchCity | origin.py:163-204 | `get_city` uses up a prefix of the replies. Its cities are the strict city facet of the first 200 after failures only, and `None` comes after exactly 3 failures. |
| Origin.ThreeServerErrors | origin.py:134-156 | Three 500s: `get_counties` gives up with `None` after three requests to the same URL and three pause/rest pairs. |
| Origin.MissingCityFacetRaises | origin.py:189 | A 200 body without `facets` or `city` is a KeyError, not an empty city list. |
| Origin.DrainCounties | origin.py:244-249 | A completed county loop keeps the counties done before and adds one result per remaining county. |
| Origin.DrainCountiesConsumes | origin.py:244-249 | The county loop uses up a prefix of the replies. |
| Origin.DrainCountiesCities | origin.py:244-249 | Every county the loop adds holds the city facet of a 200 among the replies it used up, or no cities after 3 failures in a row among them. |
| Origin.ExhaustedCountyContinues | origin.py:244-249 | A county whose `get_city` meets 3 failures is recorded without cities after three requests with their pauses and rests. It adds no rows, and the next county starts on the following reply. |
| Origin.DrainCountiesOrder | origin.py:242-249 | The county loop adds its results in bucket order, one per county, whether or not its fetch gave up. |
| Origin.DrainCountiesAnswered | origin.py:244-249 | When every drill-down gets a 200 with a city facet at once, county `i` gets the city facet of reply `i`. Exactly one request per county is sent, in order, to that county's URL, and the later replies are left untouched. |
| Origin.CrawlState | origin.py:233-250 | A state's result is for that state and carries its canonical name. |
| Origin.CrawlStates | origin.py:229-251 | A completed state loop keeps the states done before and adds one result per remaining state. |
| Origin.CrawlStateContract | origin.py:233-251 | State-level exhaustion is the unpacking error, and a missing `recordCount` is a KeyError. A state is skipped exactly when its `recordCount` is present and not positive. Otherwise its counties are the county buckets' values, in order. |
| Origin.CrawlStatesOrder | origin.py:229-251 | The state loop adds one result per state, in list order, each canonically named. |
| Origin.CrawlStatesRows | origin.py:229-251 | A crawl of a list of states visits them in order. Every row belongs to one of those states and carries that state's canonical name. |
| Origin.RunContract | origin.py:215-257 | A completed run's table is that of the crawl over `state_codes`, which visited every state once, in order. Every row belongs to one state and carries the name `state_names_dict` gives its code. |
| Origin.Client.constructor | origin.py:20 | A fresh session with empty logs. |
| Origin.Client.Sleep | origin.py:137 | `time.sleep` appends its duration to the wait log and changes nothing else. |
| Origin.Client.Get | origin.py:138 | `session.get` takes the next reply and logs the URL, or raises when no reply is left. |
| Origin.Client.GetCounties | origin.py:114-156 | The `while COUNTER != MAX_RETRIES` loop ends with exactly the result and session state that `FetchCounties` specifies, and returns the URL it used. |
| Origin.Client.GetCity | origin.py:163-204 | The drill-down loop ends as `FetchCity` specifies, including the KeyError on a body without cities. |
| Origin.ScrapeCounties | origin.py:244-249 | The county loop ends as `DrainCounties` specifies, and its `df` is the frame of the county results. |
| Origin.ScrapeState | origin.py:233-251 | One state iteration ends as `CrawlState` specifies, and its `df` is that state's rows. |
| Origin.Scrape | origin.py:227-257 | The state loop ends as `Run` specifies, with `whole_df` the run's table. |
| FacetTotals.Reduce | main.js:3-6 | With non-negative counts, the fold never ends below the value it starts from. |
| FacetTotals.ReduceIsSum | main.js:3-6 | Folding from `acc` adds the sum of the counts to `acc`. The fold from 0 is the sum, and an empty list gives 0. |
| FacetTotals.SumConcat | main.js:3-6 | The sum over two joined bucket lists is the sum of their sums. |
| FacetTotals.ReduceConcat | main.js:3-6 | The fold over two joined bucket lists is the sum of their folds. |
| FacetTotals.SumNonNegative | main.js:3-16 | Non-negative counts have a non-negative sum. |
| FacetTotals.ReduceNonNegative | main.js:3-16 | Non-negative counts have a non-negative total. |
| FacetTotals.FacetArray | main.js:3-13 | `result.facets[k]` is the facet's array when present. Without `facets` it is a TypeError reading `k` of undefined, and without `k` a TypeError reading `reduce` of undefined. |
| FacetTotals.Summarize | main.js:1-18 | All three totals exist exactly when the city, county and region facets are all present. The first missing one, in city, county, region order, gives the TypeError. Each total is the sum of its facet's counts, and the fourth number is their sum. |

## Left out

- The urllib3 `Retry` adapter mounted on the session (county_main.py:16-25, origin.py:23-33) is behaviour inside the HTTP library. The model treats `session.get` as delivering the next reply as it stands. Retries the adapter might make inside one `session.get` are not modelled.
- HTTP itself, headers and cookies, and `response.json()` parsing are not modelled. A reply is an already parsed body.
- Real time is not modelled. Each `time.sleep` only appends its duration to a ghost log.
- `random.uniform(0, 1)` is not modelled as randomness. Its value is part of each reply, and contracts that need it in range say so.
- Floating point is not modelled. Waits are exact reals, and JavaScript numbers are unbounded integers.
- pandas is not modelled, nor `rename(columns={'value': 'city'})`, `to_excel`, `logging` (including the progress line of the state loop) or `input()`. Frames are sequences of rows, and the renamed `value` column is the `city` field of a row.
- Reading `result.json` and `console.log` in `main.js` are not modelled. `Summarize` takes the parsed body and returns the four numbers.
- Origin.StateUrl: URL quoting by `requests` is not modelled. The state and the keyword are spliced into the f-string as they are.
- CountyMain.StateParams: the form encoding `requests` applies to `params` is not modelled. The query is the dict itself, with integer and string values.
- `get_data_with_backoff`'s `max_retries` default and `MAX_RETRIES` are the same constant, so only calls with `MAX_RETRIES` are modelled at the crawl level. The fetch lemmas hold for any budget.
- Failures the model cannot express are not modelled: a body that is not a JSON object, a facet entry whose fields are missing, and an exception raised by pandas.
