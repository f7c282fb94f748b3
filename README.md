# async-okx-v5 in Dafny

A model of the core of `async-okx-v5`, an asyncio client for the OKX v5 exchange API,
with proofs about that model. The model covers:

- **Rate limiting** (`Limiter`): the `RateLimiter` semaphore, which spends a start-up
  budget of `concurrency` grants and then spaces grants `interval` seconds after the
  release it waits on. Also the per-key limiter dictionaries some endpoints keep.
- **Signing** (`Signing`): the pre-hash string, the signature message, the header and
  the query string of a request.
- **Exceptions** (`Exceptions`): the exchange's exception classes and their text, plus the
  Python exceptions the core can raise. Every operation returns a `Result` instead of
  raising.
- **Request dispatch** (`Dispatch`): `Client._request`, a loop of at most 100 signed
  attempts. Each reply is classified as a retry (backoff `1.1^k`, a fixed 2 s sleep, or
  none) or as the end of the call (the envelope, or an exception). The non-2xx branch
  exists both as written and as intended (see Findings).
- **Pagination** (`Pagination`): `query_with_pagination` in its three modes:
  - bounded with arithmetic cursors, fanned out and gathered;
  - bounded with cursors read from the previous page;
  - unbounded, walking until a short page.
- **REST endpoint wrappers** (`Endpoints`, `PublicApi`, `Account`, `Asset`):
  - the parameter dictionaries they build, in insertion order;
  - the identifier lists they check and join;
  - how they read the reply envelope;
  - which limiter they hold while the request runs.
- **WebSocket** (`Websocket`):
  - the URL a channel list is routed to;
  - the login frame;
  - the receive/ping loop of a subscription with its teardown;
  - the frames a subscription sends, under its limiters.

The network, the clock, HMAC, JSON encoding and the exchange server are parameters:
- `replies(i)` is the outcome of REST attempt `i`;
- `stamp(i)` is the timestamp that attempt signs;
- `mac` is HMAC-SHA256 followed by base64;
- `dumps` is `json.dumps`;
- `page` is a paged endpoint;
- `Peer` is a WebSocket connection with the server behind it.

Each operation is proved against a reference function that states what it computes.
Lemmas relate those functions to one another:
- round trips (query strings, joined id lists, exception text, integer text);
- the retry loop against its tail-recursive accumulator;
- the limiter's grant schedule;
- pagination cursors and limits;
- the WebSocket loop against its one-step unfolding.

## Model

| member | source | states |
|---|---|---|
| Common.Put | async_okx_v5/account.py:127 | `d[k] = v` on an insertion-ordered dict: an existing key keeps its place and takes the new value, a new key is appended, and keys stay distinct |
| Common.PutLookup | async_okx_v5/account.py:127 | after `d[k] = v`, `d[k]` reads `v` and every other key reads what it read before |
| Common.ParseInt | async_okx_v5/utils.py:106 | `int(s)`: a result only for non-empty text; `ParseIntAccepts` states which text |
| Common.ParseIntAccepts | async_okx_v5/utils.py:106 | text is read as an integer exactly when it is ASCII digits with an optional leading '+' or '-', and then as that signed decimal number |
| Common.ParseIntOfIntToStr | async_okx_v5/utils.py:106 | `int(str(n)) == n` for every integer, negative ones included |
| Common.SplitJoin | async_okx_v5/account.py:58-60 | splitting `",".join(xs)` at commas gives `xs` back when no item holds a comma |
| Common.ContainsIff | src/okx/client.py:99 | the `in` test on strings holds exactly when the text occurs at some position |
| Exceptions.NewApiException | async_okx_v5/exceptions.py:7-14 | code and message come from the envelope when it has "code" (a missing "msg" then raises KeyError); otherwise they are "None" and "System error"; the status is kept |
| Exceptions.ApiTextRoundTrip | async_okx_v5/exceptions.py:16-17 | the code and the message can be read back from the exception's text |
| Exceptions.TextsDistinguishClasses | async_okx_v5/exceptions.py:16-33 | the texts of the three exception classes never coincide, and only the API exception's text parses as one |
| Signing.ParseParamsToStr | async_okx_v5/utils.py:66-67 | an empty dict gives "" and any other dict a string starting with '?' |
| Signing.QueryRoundTrip | async_okx_v5/utils.py:66-67 | a server splitting the query at '&' and '=' reads back the same pairs in the same order, when keys hold no '=' or '&' and values no '&' |
| Signing.QueryNotEscaped | async_okx_v5/utils.py:66-67 | values are not escaped: a value holding "&b=2" reads back as an extra key |
| Signing.PreHash | async_okx_v5/utils.py:52-53 | the timestamp, the upper-cased method, the path and the body, concatenated; `PreHashSeparatesBodies` and `PreHashIgnoresMethodCase` are its properties |
| Signing.Signature | async_okx_v5/utils.py:76-82 | the MAC under the secret of the pre-hash string of the method, path and substituted body |
| Signing.GetHeader | async_okx_v5/utils.py:56-63 | the five-entry header of a signed request; `GetHeaderShape` states its keys and values |
| Signing.SignedBody | async_okx_v5/utils.py:77-78 | bodies "{}" and "None" are signed as the empty string, any other body as given |
| Signing.SignatureAgreesWithPreHash | async_okx_v5/utils.py:76-82 | `signature` signs the pre-hash string of the substituted body; for an empty dict that is the pre-hash of "" |
| Signing.PreHashIgnoresMethodCase | async_okx_v5/utils.py:52-53 | the method is upper-cased, so its case does not change the signed string |
| Signing.PreHashSeparatesBodies | async_okx_v5/utils.py:52-53 | with the timestamp, method and path fixed, two bodies give the same pre-hash string exactly when they are equal |
| Signing.GetHeaderShape | async_okx_v5/utils.py:56-63 | the header has exactly the five OKX keys, holding the content type, key, signature, timestamp and passphrase |
| Signing.SignedHeaderVerifies | async_okx_v5/utils.py:46-63 | a header built from `sign(pre_hash(...))` verifies against the secret for that method, path and body |
| Limiter.Initial | async_okx_v5/utils.py:13-25 | a new limiter holds its whole budget, an empty inquiry queue and `concurrency` free permits |
| Limiter.AcquireStep | async_okx_v5/utils.py:30-39 | an acquire blocks exactly when no permit is free; within the start-up budget it spends one unit without sleeping; afterwards it pops the oldest release time and sleeps until `interval` seconds after it, and not at all once that time has passed |
| Limiter.ReleaseStep | async_okx_v5/utils.py:41-43 | a release appends its time to the inquiry queue and frees a permit |
| Limiter.BoundedAppend | async_okx_v5/utils.py:21 | the `deque(maxlen=concurrency)` append: below the bound it appends, and the queue never exceeds the bound |
| Limiter.StartupGrantsDoNotSleep | async_okx_v5/utils.py:25-39 | along any run where acquires and releases pair up, the first `concurrency` grants never sleep and the remaining budget counts the grants made |
| Limiter.WindowAfterStartup | async_okx_v5/utils.py:30-43 | after `concurrency` grants and one release at `t`, the next grant resumes no earlier than `t + interval` |
| Limiter.AcquiresFromBudget | async_okx_v5/utils.py:32-33 | `n` acquires within the budget are granted with no sleep and reduce the budget by `n` |
| Limiter.RateLimiter.constructor | async_okx_v5/utils.py:13-25 | the object's state is `Initial(concurrency, interval)` |
| Limiter.RateLimiter.Acquire | async_okx_v5/utils.py:30-39 | the admission and the new state are `AcquireStep` of the old state |
| Limiter.RateLimiter.Release | async_okx_v5/utils.py:41-43 | the new state is `ReleaseStep` of the old state |
| Limiter.Registry.constructor | async_okx_v5/public.py:17 | an empty dictionary of limiters, all to be made with the same concurrency and interval |
| Limiter.Registry.Get | async_okx_v5/public.py:32-34 | an existing key's limiter is returned unchanged; a new key gets a fresh limiter in its initial state, and nothing else changes |
| Limiter.Registry.AcquireFor | async_okx_v5/public.py:32-34 | acquires the key's limiter, creating it first when missing; every other limiter keeps its state |
| Limiter.Registry.ReleaseFor | async_okx_v5/public.py:34-35 | releases the key's limiter only |
| Pagination.Limits | async_okx_v5/utils.py:99-124 | the limits a bounded query asks for, each between 1 and `page_size` |
| Pagination.BoundedCount | async_okx_v5/utils.py:97-124 | when every call of a bounded query returns as many records as its limit, exactly `count` records come back |
| Pagination.LimitsShape | async_okx_v5/utils.py:97-124 | the limits of a bounded query add up to `count`: full pages followed by one last part of 1..page_size |
| Pagination.FanOutCalls | async_okx_v5/utils.py:105-114 | call `j` of the fan-out has `after = after0 - j * page_size * interval` and the `j`-th limit |
| Pagination.FanOut | async_okx_v5/utils.py:107-114 | the loop builds exactly the fan-out calls for the remaining count |
| Pagination.Gather | async_okx_v5/utils.py:115-116 | the gathered pages are the calls' results, in the order the calls were created |
| Pagination.ConcatSnoc | async_okx_v5/utils.py:115-116 | extending by one more page appends that page's records |
| Pagination.FirstThenFanOut | async_okx_v5/utils.py:102-114 | the first call followed by the fan-out gives one call per limit, with the cursors stepping down by the stride |
| Pagination.Walk | async_okx_v5/utils.py:117-124 | each later call's cursor is the `tag` of record `page_size - 1` of the previous page and its limit is the next limit; a short page stops the walk with IndexError |
| Pagination.Drain | async_okx_v5/utils.py:125-131 | unbounded mode: no limits, every page but the last is full, cursors read from the previous page, and the walk ends exactly at a page that is not full |
| Pagination.ArithmeticPages | async_okx_v5/utils.py:99-116 | an empty first page raises IndexError, a non-integer tag raises ValueError, and otherwise the cursors count down from the first page's last tag |
| Pagination.CursorPages | async_okx_v5/utils.py:99-124 | bounded mode without an interval: the cursor walk from the first page, each cursor read from the page before; it fails (IndexError, on a short page) exactly when it stops before its last limited call, and otherwise returns the records of exactly the bounded limits |
| Pagination.QueryWithPagination | async_okx_v5/utils.py:85-132 | ensures `Paginated`: one call with `limit=count` when fewer than a page is wanted; otherwise the bounded modes' limits, the arithmetic cursors with an interval (IndexError on an empty first page, ValueError on a tag that does not parse), the cursor walk without one (failing exactly before its last limited call), or the unbounded walk; the records are the pages in call order |
| Dispatch.ThreeDigitStatus | src/okx/client.py:86-119 | for a three-digit status, `str(status).startswith('5')` is the 5xx range and `startswith('2')` the 2xx range |
| Dispatch.ApiError | src/okx/client.py:119-122 | as written: a missing "code" or "msg" raises KeyError; otherwise `text` is unbound unless an earlier attempt bound it |
| Dispatch.IntendedApiError | src/okx/client.py:119-122 | the exception the non-2xx branch evidently means to raise: an `OkexAPIException` with the envelope's code and message and the status |
| Dispatch.ApiErrorDiscrepancy | src/okx/client.py:98-122 | the two differ exactly when no earlier attempt bound `text` and the envelope has both keys |
| Dispatch.FirstClientErrorIsUnbound | src/okx/client.py:116-122 | as written, a first 4xx (not 429) JSON reply with code and msg, such as 400 with `{"code":"51000","msg":"Parameter error"}`, ends the whole call after one request and no sleep with UnboundLocalError for `text` |
| Dispatch.Classify | src/okx/client.py:64-122 | the outcome of one attempt with a known method: a retry with its sleeps, backoff exponent, `text` and `json_res`, or the end of the call; the non-2xx branch as written or as intended |
| Dispatch.ClassifyOutcomes | src/okx/client.py:64-122 | a backoff sleep exactly after a POST/DELETE transport error, a 5xx or a cloudflare page; a 2 s sleep exactly on code 50004 or a 429 with msg; no sleep exactly after a GET transport error or a JSON timeout; "Invalid Response" exactly on other non-JSON pages; the envelope returned exactly on a 2xx without code 50004; the API error on other statuses; KeyError on a 429 without msg; a body read that raises ends the call with that exception, without a retry; `text` and `json_res` rebound only by a new page or envelope |
| Dispatch.ClassifyWritten | src/okx/client.py:116-122 | for one reply, the written and the intended non-2xx branch retry alike, and where they stop differently the intended one raises `OkexAPIException` and the written one UnboundLocalError for `text` |
| Dispatch.Loop | src/okx/client.py:46-123 | the attempts from a given retry count on: at most one request per remaining attempt, and no more sleeps than requests |
| Dispatch.Dispatch | src/okx/client.py:38-123 | `_request` with the non-2xx branch as intended: at most 100 requests, at least one exactly for GET, POST and DELETE, ValueError for any other method, and no more sleeps than requests |
| Dispatch.AsWrittenDiffers | src/okx/client.py:46-123 | over the whole loop, the call as written sends the same requests and sleeps as the call as intended, and its result differs only by UnboundLocalError for `text` in place of `OkexAPIException` |
| Dispatch.DispatchAsWritten | src/okx/client.py:38-123 | `_request` as written agrees with `Dispatch` in requests and sleeps, and in its result except for that substitution |
| Dispatch.ClassifyBackoff | src/okx/client.py:76-115 | a retry sleeps at most once, and the backoff exponent grows by one exactly when that sleep is a backoff sleep |
| Dispatch.LoopRetry | src/okx/client.py:46-115 | a retried attempt records its sleeps and its request, then the loop continues from the next attempt |
| Dispatch.LoopStop | src/okx/client.py:46-123 | an attempt that ends the call records its request, and the call ends there |
| Dispatch.RunIsLoop | src/okx/client.py:46-123 | the accumulating loop the method runs equals the recursive definition of the call |
| Dispatch.LoopSends | src/okx/client.py:46 | at most 100 requests are sent, one per attempt numbered from the first, and there are no more sleeps than requests |
| Dispatch.BackoffGrows | src/okx/client.py:44-80 | the backoff sleeps of a call have exponents 0, 1, 2, … in order |
| Dispatch.SignedHeaderFacts | src/okx/client.py:56-61 | each request's header verifies for its method, path and body; it carries the API key, and `x-simulated-trading` exactly in test mode |
| Dispatch.SentRequestsVerify | src/okx/client.py:39-61 | every request sent carries the path with its query string for GET, the JSON body for POST, and a header signed with that attempt's timestamp |
| Dispatch.UnknownVerbRaises | src/okx/client.py:74-75 | a method other than GET, POST or DELETE raises ValueError and sends nothing |
| Dispatch.PermanentServerError | src/okx/client.py:86-123 | 5xx on every attempt: 100 requests, backoff sleeps 1.1^0 … 1.1^99, then UnboundLocalError for `json_res` |
| Dispatch.PermanentEndpointTimeout | src/okx/client.py:106-123 | code 50004 on every attempt: 100 requests with a 2 s sleep after each, then the last envelope is returned |
| Dispatch.SuccessReturnsEnvelope | src/okx/client.py:116-123 | a first 2xx JSON reply whose code is not 50004 is returned after one request with no sleep |
| Dispatch.InvalidResponseRaises | src/okx/client.py:97-104 | a reply that is not JSON and does not mention cloudflare raises `OkexRequestException("Invalid Response: …")` at once |
| Dispatch.BodyReadFailureRaises | src/okx/client.py:82-104 | a reply that is not a 5xx but whose body read raises (outside the `try` that retries transport errors) ends the call at once with that exception, after one request and no sleep |
| Dispatch.EndpointTimeoutBeforeTooMany | src/okx/client.py:106-115 | a 429 reply with code 50004 is retried after 2 s without reading "msg"; any other 429 reply without "msg" raises KeyError |
| Dispatch.GetTransportErrorNoSleep | src/okx/client.py:64-81 | a transport error on GET is retried without sleeping or growing the backoff; on POST or DELETE it sleeps `1.1^0` first |
| Dispatch.ClientErrorRaisesApiException | src/okx/client.py:116-122 | a first non-2xx, non-429 JSON reply with code and msg raises `OkexAPIException` carrying them and the status |
| Dispatch.Client.constructor | src/okx/client.py:18-25 | the client keeps its credentials and flags |
| Dispatch.Client.Pass | src/okx/client.py:47-122 | one attempt signs and sends the request numbered by the retry count, then classifies the reply as `Classify` does; an unknown method raises ValueError before anything is sent |
| Dispatch.Client.Retries | src/okx/client.py:42-123 | the `while` loop produces the result, sleeps and requests of the accumulating definition |
| Dispatch.Client.Request | src/okx/client.py:38-123 | `_request`, with the non-2xx branch as intended, produces `Dispatch` of its arguments; the written branch is `DispatchAsWritten` |
| Dispatch.Client.RequestWithoutParams | src/okx/client.py:125-126 | `_request` with an empty dict: every request goes to the bare path |
| Dispatch.Client.RequestWithParams | src/okx/client.py:128-129 | `_request` with the given dict |
| Endpoints.JoinIds | async_okx_v5/account.py:58-60 | a string passes unchanged; a list longer than the limit fails the assertion; `None` has no `len` |
| Endpoints.JoinIdsRoundTrip | async_okx_v5/account.py:58-60 | the joined text splits back into the list given |
| Endpoints.IdsParams | async_okx_v5/account.py:105-108 | the one-key dict holds the prepared ids, or the preparation's error |
| Endpoints.AssertTextParts | async_okx_v5/account.py:69 | the assertion message starts with the path, and both the path and `msg` can be read back from it |
| Endpoints.CheckCode | async_okx_v5/account.py:69 | the assertion holds exactly on code "0"; otherwise it raises KeyError for a missing code or msg, or AssertionError with the path and msg |
| Endpoints.Data | async_okx_v5/account.py:69-70 | on code "0" the reply's `data`, otherwise the assertion's error |
| Endpoints.First | async_okx_v5/account.py:95-96 | on code "0" the first record of a non-empty `data` |
| Endpoints.FirstOfData | async_okx_v5/account.py:95-96 | `data[0]` fails where `data` fails, or with IndexError on an empty list, and is otherwise its head |
| Endpoints.Then | async_okx_v5/account.py:67-70 | an exception from the request propagates; otherwise the reply handling runs |
| Endpoints.ThrottledRequest | async_okx_v5/public.py:32-35 | under the key's limiter, created on first use, the request runs as `Dispatch` says; a call held back sends nothing |
| PublicApi.FloorDiv | async_okx_v5/public.py:187 | Python's `//`: the floor of the quotient, for either sign of the divisor |
| PublicApi.BarCount | async_okx_v5/public.py:185-201 | only a bar ending in m, H, D, W or M can fail, with ValueError exactly for a non-integer multiple and ZeroDivisionError exactly for a zero multiple that divides; with days >= 0 and a positive multiple, at least one candle and a non-negative step; month and other bars have step 0 |
| PublicApi.BarMultiple | async_okx_v5/public.py:187-199 | `int(bar[:-1])`, raising ValueError on text that is not an integer |
| PublicApi.CandlePlanFor | async_okx_v5/public.py:185-215 | the count and interval for the bar; `history_candles` with pages of 100 above 1440 candles, `get_candles` with pages of 300 otherwise |
| PublicApi.BarOf | async_okx_v5/public.py:186-199 | a bar made of an integer and a unit ends with the unit, and its multiple reads back |
| PublicApi.MinuteBars | async_okx_v5/public.py:186-188 | `m` bars: count `days*1440 // n + 1`, interval `n * 60000` ms |
| PublicApi.HourBars | async_okx_v5/public.py:189-191 | `H` bars: count `days*24 // n + 1`, interval `n * 3600000` ms |
| PublicApi.DayBars | async_okx_v5/public.py:192-194 | `D` bars: count `days + 1`, interval `n * 86400000` ms |
| PublicApi.WeekBars | async_okx_v5/public.py:195-197 | `W` bars: count `days // 7 + 1`, interval `n * 604800000` ms |
| PublicApi.MonthBars | async_okx_v5/public.py:198-199 | `M` bars: count `days // (30n) + 1` and no interval |
| PublicApi.OtherBars | async_okx_v5/public.py:200-201 | any other unit: count `days // 365 + 1` and no interval |
| PublicApi.ZeroMultiple | async_okx_v5/public.py:187-199 | a multiple of 0 divides by zero for m, H and M, but not for D and W |
| PublicApi.MalformedMultiple | async_okx_v5/public.py:186-199 | a known unit after text that is not an integer raises ValueError |
| PublicApi.EndpointChoice | async_okx_v5/public.py:202-215 | one day of 1-minute bars (1441) goes to `history_candles`; 239 days of 4-hour bars (1435) go to `get_candles` |
| PublicApi.CandlesForDays | async_okx_v5/public.py:178-215 | the plan's errors are raised before any call; otherwise `Paginated` holds on the chosen endpoint with the plan's page size, count and interval, so the cursors step back by `pageSize * interval` from the first page's last open time, or are read from the page before when the interval is 0 |
| PublicApi.FundingHistory | async_okx_v5/public.py:92-101 | the default 270 rates take three calls with limits 100, 100 and 70, cursors stepping by 100 × 8 hours from the first page's last funding time |
| PublicApi.InstrumentsParams | async_okx_v5/public.py:29-31 | `instType`, then `instFamily` only when non-empty |
| PublicApi.SpecificInstrumentParams | async_okx_v5/public.py:48-50 | `instType` and `instId`, then `uly` only when non-empty |
| PublicApi.SpecificInstrumentReply | async_okx_v5/public.py:55-57 | code 51001 raises `OkexRequestException(msg)`; any other code returns `data[0]` unchecked |
| PublicApi.SpecificInstrumentCodes | async_okx_v5/public.py:55-57 | the reply agrees with the asserting wrappers on code "0", treats every other code except 51001 alike, and returns data a refused code carries |
| PublicApi.GetInstruments | async_okx_v5/public.py:19-37 | under the limiter of its `instType`, one GET of its parameters; the reply is asserted and its `data` returned |
| PublicApi.GetSpecificInstrument | async_okx_v5/public.py:39-57 | under the same limiters, one GET of its parameters, read by the 51001 check |
| Account.PositionsParams | async_okx_v5/account.py:55-66 | a non-empty `instType` wins, then a truthy `instId` (at most 10), then `posId` (at most 20); exactly one key |
| Account.PositionsByInstIds | async_okx_v5/account.py:57-61 | a list of instrument ids reads back from the one value; an eleventh id fails the assertion |
| Account.PositionsWithoutIds | async_okx_v5/account.py:62-66 | with no identifier at all `len(None)` raises TypeError; an empty string `posId` is sent as given |
| Account.SpecificPositionParams | async_okx_v5/account.py:80 | `instId` when non-empty, else `posId` |
| Account.CoinBalanceLimit | async_okx_v5/account.py:105-108 | twenty currencies are accepted and read back; a twenty-first fails the assertion |
| Account.TradeFeeParams | async_okx_v5/account.py:126-127 | the first non-empty of `instId` and `uly`, else `category`, then `instType`, with distinct keys |
| Account.LeverageQueryKeys | async_okx_v5/account.py:162-167 | keys `lever`, `mgnMode`, then `instId` or `ccy`, then `posSide` only when non-empty |
| Account.LeverageQueryLookups | async_okx_v5/account.py:162-167 | each key sent reads back its argument |
| Account.SetLeverageParams | async_okx_v5/account.py:162-167 | the dict built in place is that query |
| Account.MaxSizeQueryKeys | async_okx_v5/account.py:186-192 | keys `instId`, `tdMode`, then `ccy`, `px` and `leverage` together when `ccy` is non-empty |
| Account.MaxSizeQueryLookups | async_okx_v5/account.py:186-192 | `px` and `leverage` are sent exactly when `ccy` is non-empty, whatever their own values |
| Account.MaxSizeParams | async_okx_v5/account.py:186-192 | the dict built in place by the three `if ccy:` blocks is that query |
| Account.LedgerParams | async_okx_v5/account.py:218-228 | all nine keys in order, empty values included; `get_archive_ledger` builds the same dict |
| Account.LedgerQueryKeys | async_okx_v5/account.py:218-230 | the server reads all nine keys back from the query string when no value holds '&' |
| Account.AdjustMarginReply | async_okx_v5/account.py:286-290 | True on code "0"; otherwise False after reading `msg`, which raises KeyError when absent |
| Account.AdjustMarginMatchesCheck | async_okx_v5/account.py:286-290 | True exactly where the asserting wrappers pass, False where they raise AssertionError, the same KeyError otherwise |
| Asset.GetBalance | async_okx_v5/asset.py:24-31 | the currency check fails before anything is sent; otherwise one GET, asserted and read at `data[0]` |
| Asset.BalanceCurrencies | async_okx_v5/asset.py:24-27 | a string is sent with no length check; a list of at most 20 reads back from the one value |
| Asset.TransferQueryKeys | async_okx_v5/asset.py:49-53 | the four fixed keys, then `instId` and `toInstId` only when non-empty |
| Asset.TransferQueryLookups | async_okx_v5/asset.py:49-53 | each key sent reads back its argument |
| Asset.TransferParams | async_okx_v5/asset.py:49-53 | the dict built in place is that query |
| Asset.TransferReply | async_okx_v5/asset.py:58-62 | `data[0]` on code "0"; any other code raises a plain `Exception` with the path and `msg` |
| Asset.TransferReplyVsAssert | async_okx_v5/asset.py:58-62 | the same as the asserting wrappers, except that `Exception` replaces AssertionError with the same text |
| Asset.Transfer | async_okx_v5/asset.py:49-62 | under the currency's own `RateLimiter(1, 1)`, created on first use, one POST of exactly the transfer query of its arguments (`TransferQuery`), read by the reply handling |
| Websocket.AnyBusiness | src/okx/websocket.py:139 | channels are read in order up to the first business channel; a channel with no name read before it raises KeyError |
| Websocket.AnyBusinessNamed | src/okx/websocket.py:139 | with every channel named, the test is whether some channel is a business channel |
| Websocket.AnyBusinessRaises | src/okx/websocket.py:139 | KeyError exactly when an unnamed channel comes before any business channel |
| Websocket.PublicUri | src/okx/websocket.py:136-139 | KeyError exactly when `any` reads an unnamed channel; otherwise the public or business URL |
| Websocket.PrivateUri | src/okx/websocket.py:141-144 | KeyError exactly when `any` reads an unnamed channel; otherwise the private or business URL |
| Websocket.UriRouting | src/okx/websocket.py:136-144 | a business channel routes to the business URL, otherwise the public or private URL, on the test or production host |
| Websocket.UriHosts | src/okx/websocket.py:136-144 | every URL chosen is on the demo host in test mode and on the production host otherwise |
| Websocket.ProcessResult | src/okx/websocket.py:75-79 | a message is passed on exactly when it has no "event" key |
| Websocket.FilterMembers | src/okx/websocket.py:61-64 | what the stream yields are the received messages with no "event" key that are not empty |
| Websocket.LoginFrame | src/okx/websocket.py:89-104 | a login frame carrying the key, the passphrase and the timestamp given |
| Websocket.LoginFrameVerifies | src/okx/websocket.py:89-104 | the login frame is signed over `GET /users/self/verify` at its own timestamp and verifies against the secret |
| Websocket.LoopStep | src/okx/websocket.py:59-72 | one pass reads one or two frames, never stops suspended, and yields only yieldable messages |
| Websocket.Loop | src/okx/websocket.py:57-72 | the `while True` loop for at most `fuel` passes, from a receive and a send count: what it yields, how it ends, what it sends; `LoopShape` and `LoopYieldsFiltered` are its properties |
| Websocket.LoopShape | src/okx/websocket.py:57-72 | the loop yields only yieldable messages and sends only "ping" |
| Websocket.LoopYieldsFiltered | src/okx/websocket.py:59-64 | over a run of text frames the loop yields exactly the filtered messages, sending nothing |
| Websocket.PingKeepsAlive | src/okx/websocket.py:65-69 | after a receive timeout, a ping whose reply arrives keeps the loop going |
| Websocket.PingFailureBreaks | src/okx/websocket.py:65-72 | after a receive timeout, a failed ping or ping reply breaks the loop |
| Websocket.RepliesAll | src/okx/websocket.py:52-54 | unsubscribing reads one reply per channel when they all arrive |
| Websocket.UnsubscribeRun | src/okx/websocket.py:47-55 | the socket is closed exactly when neither the send of the unsubscribe frame nor any receive failed |
| Websocket.StreamRun | src/okx/websocket.py:57-73 | the stream ends normally exactly when it closes, and then the unsubscribe frame was sent last |
| Websocket.StreamTeardown | src/okx/websocket.py:72-73 | a broken loop is followed by the unsubscribe frame, and the stream closes when the replies arrive |
| Websocket.UndecodableFrameSkipsTeardown | src/okx/websocket.py:62-77 | a frame that is not JSON raises out of the generator without unsubscribing |
| Websocket.PrivateHandshake | src/okx/websocket.py:108-123 | the handshake reads at most one reply |
| Websocket.HandshakeOrder | src/okx/websocket.py:108-123 | the login frame goes before the subscribe frame, and the subscribe frame only after the login reply was read |
| Websocket.Subscription.constructor | src/okx/websocket.py:25-32 | not connected, nothing sent or received |
| Websocket.Subscription.SendUnder | src/okx/websocket.py:41-42 | `async with limiter: await ws.send(frame)`: sends only when admitted, and then releases |
| Websocket.Subscription.Subscribe | src/okx/websocket.py:36-45 | connects, then sends the subscribe frame under the subscription limiter; a failure is logged, not raised |
| Websocket.Subscription.SubscribePrivate | src/okx/websocket.py:108-123 | the frames sent and replies read are those of `PrivateHandshake`, with each limiter acquired and released |
| Websocket.Subscription.Unsubscribe | src/okx/websocket.py:47-55 | without a connection, AttributeError; otherwise the unsubscribe frame, then `UnsubscribeRun` |
| Websocket.Subscription.Pass | src/okx/websocket.py:60-72 | one pass of the loop is `LoopStep` of the current counters |
| Websocket.Subscription.Advance | src/okx/websocket.py:59-72 | one pass keeps the run equal to what is already yielded and sent followed by the rest of the loop |
| Websocket.Subscription.Drive | src/okx/websocket.py:59-72 | the `while True` loop yields, sends and receives what `Loop` says |
| Websocket.Subscription.Stream | src/okx/websocket.py:57-73 | the generator yields, sends, receives and closes what `StreamRun` says |
| Websocket.SubscribePublic | src/okx/websocket.py:146-159 | on the subscription limiter `RateLimiter(240, 3600)`: KeyError exactly when a channel has no name, with the limiter untouched; otherwise a new subscription on the public URL, connected when the peer accepts, whose only frame sent is the subscribe frame when connected and admitted, and the limiter as its admission and release leave it |
| Websocket.SubscribePrivateChannels | src/okx/websocket.py:161-173 | the same for private channels, with the login limiter `RateLimiter(1, 1)`, on the private URL: when connected, the frames sent, replies read and both limiters are those of `PrivateHandshake`; otherwise nothing is sent and no limiter changes |
| Websocket.AnyBusinessNamedOrRaises | src/okx/websocket.py:136-139 | a KeyError from routing always comes from a channel that also fails the constructor's logger name |

## Left out

- Network I/O, the aiohttp session and the `websockets` connection are parameters.
  REST replies come from `replies(i)`, pages from a `page` function, and frames and
  send outcomes from a `Peer`. asyncio scheduling is not modelled; `asyncio.gather`
  is modelled as results kept in call order.
- Sleeps are recorded, not performed. A backoff of `1.1^k` seconds is recorded by its
  exponent `k`, so floating-point rounding is not modelled.
- The clock is a parameter: the REST timestamp of attempt `i` (`get_timestamp` or
  `_get_timestamp`), the times of acquire and release, and the login timestamp. The
  server-time fetch of `_get_timestamp` (src/okx/client.py:51) cannot fail in the model;
  in the source an aiohttp error there is caught at :76 and retried after a backoff
  sleep, also on GET.
- HMAC-SHA256 with base64 (`sign`, `signature`) is an uninterpreted function `mac`.
  `json.dumps` is a parameter, and JSON documents are string maps.
- A `RateLimiter.acquire` that would block is modelled as the admission `Wait`, which
  leaves the limiter unchanged. The task that waits sends nothing; later wake-ups are
  not modelled.
- The fixed per-endpoint limiters of the other wrappers are not modelled, since they
  are plain `RateLimiter` objects modelled once. `get_funding_time`,
  `get_historical_funding_rate`, `get_tickers`, `get_candles` and `history_candles`
  appear only as the page functions the paged queries call.
- Common.ParseInt: accepts an optional '+' or '-' followed by ASCII digits. Python's
  `int()` also accepts surrounding whitespace, underscores between digits and non-ASCII
  decimal digits.
- Pagination.QueryWithPagination: requires `page_size > 0`. With a page size of 0 or
  less, `count -= page_size` never brings a positive count down, so the bounded loops
  do not end unless a cursor read from a page too short for it raises IndexError.
  The requirement also leaves out unbounded mode with such a size, which does end: a
  negative size stops after the first page, and size 0 stops after a non-empty first
  page or raises IndexError on an empty one. Its unbounded mode runs for at most
  `fuel` further pages, and a run cut off by the bound is reported as `Unfinished`.
- Pagination.QueryWithPagination: a call to `page` cannot fail. In the source, the page
  functions assert code "0" (async_okx_v5/public.py:156 and 175) and `_request` can
  raise, and that exception leaves `query_with_pagination` after the calls made so far;
  the model does not cover that path.
- Dispatch.Client.Request: follows the non-2xx branch as intended, so a non-2xx JSON
  reply before any non-JSON page raises `OkexAPIException`, where the code as written
  raises UnboundLocalError for `text`. `DispatchAsWritten` models the code as written,
  and `AsWrittenDiffers` proves that this is the only difference.
- The wrappers of async_okx_v5 call `OkxClient._request_with_params` from
  async_okx_v5/client.py, which is not part of this model. Endpoints.ThrottledRequest
  stands it in by src/okx/client.py's `Client._request_with_params` and `Client._request`
  (`Client.RequestWithParams` and `Dispatch`).
- A reply body whose read raises is kept only as the exception's class name
  (`ReadFails`, raised as `BodyReadError`); which aiohttp or codec exception it is, and
  its message, are not modelled.
- The `Peer` oracle does not depend on whether the socket was closed: after
  `Unsubscribe` closes it, a later receive (a second `async for` over the same
  subscription) still brings the peer's next frame, where `websockets` would raise
  `ConnectionClosed`.
- Websocket.Subscription.Drive: the `while True` loop runs for at most `fuel` passes.
  A run that reaches the bound ends `Suspended`, as when the consumer stops iterating;
  the stream after that point is not modelled.
- The WebSocket receives made without `wait_for` (the ping reply and the unsubscribe
  replies) cannot time out. There, `Timeout` stands for any exception other than
  `ConnectionClosed`; the exception's kind is not kept.
- Websocket.Subscription.constructor: requires every channel to have a "channel" key,
  because the logger name reads it. The KeyError this raises is modelled in
  `SubscribePublic` and `SubscribePrivateChannels`.
- src/okx/exceptions.py and the `consts` modules are not part of this model:
  - header names are the OKX values;
  - endpoint paths are constants or parameters;
  - `OkexAPIException(status, text, json)` at src/okx/client.py:122 is modelled as the
    `(status, json)` constructor of async_okx_v5/exceptions.py, with `text` not stored.
- Logging is not modelled, except that a log line which reads a missing key raises
  KeyError. This happens for `msg` in `adjust_margin`, in `transfer` and on a 429 reply,
  and for `code` or `msg` in the non-2xx log line of src/okx/client.py:120 (modelled by
  `ApiError` and `IntendedApiError`).
- The `types` modules (TypedDicts), `setup.py` and the remaining endpoint wrappers,
  whose only logic is the assertion and the limiter modelled here, are not part of
  this model.

## Findings

| source | as written | input that shows it | evidently intended | confidence | as-written member | corrected member |
|---|---|---|---|---|---|---|
| src/okx/client.py:116-122 | a non-2xx JSON reply raises `OkexAPIException(status, text, json_res)`, but `text` is bound only on an earlier attempt whose reply was not JSON | a first reply of status 400 with `{"code": "51000", "msg": "Parameter error"}` raises UnboundLocalError for `text` | raise `OkexAPIException` with the reply's code, message and status | not executed | Dispatch.ApiError, Dispatch.DispatchAsWritten, Dispatch.FirstClientErrorIsUnbound | Dispatch.IntendedApiError, Dispatch.Dispatch, Dispatch.ClientErrorRaisesApiException |
