/** `Client._request` (src/okx/client.py:38-123): the retry and classification loop of a
    signed REST call. The network is replaced by `replies(i)`, the outcome of attempt i,
    and the clock by `stamp(i)`, the timestamp attempt i signs. Sleeps are recorded, not
    performed; a backoff sleep of `1.1^k` seconds is recorded as `Backoff(k)`. */
module Dispatch {
  import opened Common
  import opened Exceptions
  import opened Signing

  const MaxRetry := 100
  const Get := "GET"
  const Post := "POST"
  const Delete := "DELETE"
  const SimulatedTrading := "x-simulated-trading"

  /** How the body of a response reads as JSON: an envelope, a read that timed out, text
      that is not JSON, or a read that raised an exception the loop does not catch (a
      `ClientPayloadError` or `ContentTypeError` from `json()` or `text()`, a
      `UnicodeDecodeError` from `text()`), named by its class. */
  datatype Body = Json(envelope: Envelope) | JsonTimeout | NotJson(text: string) | ReadFails(exception: string)

  /** One attempt's outcome: an error while sending the request (aiohttp `ClientError` or
      a timeout, caught and retried) or a response with its HTTP status. */
  datatype Reply = NetworkError | Response(status: int, body: Body)

  /** A recorded sleep: `backoff` seconds with `backoff == 1.1^k`, or a fixed number. */
  datatype Sleep = Backoff(k: nat) | Fixed(seconds: nat)

  /** A request put on the wire. */
  datatype Sent = Sent(verb: string, path: string, header: map<string, string>, body: string)

  /** The end of a call: the envelope returned or the exception raised, every sleep and
      every request sent, in order. */
  datatype Final = Final(result: Py<Envelope>, sleeps: seq<Sleep>, sent: seq<Sent>)

  /** What a `Client` signs with. */
  datatype Credentials = Credentials(apiKey: string, secretKey: string, passphrase: string, test: bool)

  predicate KnownVerb(verb: string)
  {
    verb == Get || verb == Post || verb == Delete
  }

  /** For GET the query string is appended to the path once, before the first attempt. */
  function RequestPath(verb: string, requestPath: string, params: Params): string
  {
    if verb == Get then requestPath + ParseParamsToStr(params) else requestPath
  }

  /** `json.dumps(params)` for POST, the empty text otherwise. */
  function RequestBody(verb: string, params: Params, dumps: Params -> string): string
  {
    if verb == Post then dumps(params) else ""
  }

  /** The headers of one attempt: `get_header` over `sign(pre_hash(...))`, plus the
      simulated-trading flag when the client is in test mode. */
  function SignedHeader(cred: Credentials, mac: Mac, timestamp: string, verb: string, path: string, body: string)
    : map<string, string>
  {
    var h := GetHeader(cred.apiKey, mac(cred.secretKey, PreHash(timestamp, verb, path, body)), timestamp,
                       cred.passphrase);
    if cred.test then h[SimulatedTrading := "1"] else h
  }

  /** `str(status).startswith(...)`. */
  predicate IsServerError(status: int)
  {
    StartsWith(IntToStr(status), "5")
  }

  predicate IsSuccess(status: int)
  {
    StartsWith(IntToStr(status), "2")
  }

  /** For the three-digit statuses HTTP uses, the prefix tests are the 5xx and 2xx ranges. */
  lemma ThreeDigitStatus(status: int)
    requires 100 <= status < 1000
    ensures IsServerError(status) <==> 500 <= status < 600
    ensures IsSuccess(status) <==> 200 <= status < 300
  {
    var d := status / 100;
    assert NatToStr(status / 100) == [DigitChar(d)];
    assert NatToStr(status / 10) == NatToStr(status / 10 / 10) + [DigitChar(status / 10 % 10)];
    assert status / 10 / 10 == d;
    assert IntToStr(status) == NatToStr(status / 10) + [DigitChar(status % 10)];
    assert IntToStr(status)[..1] == [DigitChar(d)];
  }

  /** The non-2xx branch as written: the log line reads `json_res['code']` and
      `json_res['msg']`, then the exception is built from `status`, `text` and the
      envelope, and `text` is bound only if an earlier attempt read a non-JSON page. */
  function ApiError(status: int, text: Option<string>, env: Envelope): (e: Raised)
    ensures env.code.Some? && env.msg.Some? && text.None? ==> e == UnboundLocalError("text")
    ensures env.code.Some? && env.msg.Some? && text.Some? ==>
              e == OkexApi(ApiException(env.code.value, env.msg.value, status))
    ensures env.code.None? ==> e == KeyError("code")
    ensures env.code.Some? && env.msg.None? ==> e == KeyError("msg")
  {
    if env.code.None? then KeyError("code")
    else if env.msg.None? then KeyError("msg")
    else if text.None? then UnboundLocalError("text")
    else OkexApi(ApiException(env.code.value, env.msg.value, status))
  }

  /** The non-2xx branch as evidently intended, and as the loop below uses it: the API
      exception for the status and envelope, whatever earlier attempts read. The log line
      still reads "code" and "msg" first. */
  function IntendedApiError(status: int, env: Envelope): (e: Raised)
    ensures env.code.None? ==> e == KeyError("code")
    ensures env.code.Some? && env.msg.None? ==> e == KeyError("msg")
    ensures env.code.Some? && env.msg.Some? ==> e == OkexApi(ApiException(env.code.value, env.msg.value, status))
  {
    if env.code.None? then KeyError("code")
    else match NewApiException(status, env)
      case Ok(api) => OkexApi(api)
      case Err(x) => x
  }

  /** The written and the intended branch differ exactly when `text` is unbound and the
      envelope has both "code" and "msg". */
  lemma ApiErrorDiscrepancy(status: int, text: Option<string>, env: Envelope)
    ensures ApiError(status, text, env) != IntendedApiError(status, env) <==>
            text.None? && env.code.Some? && env.msg.Some?
  {
  }

  /** `sleeps` and `sent` happened before what `f` describes. */
  function After(sleeps: seq<Sleep>, sent: seq<Sent>, f: Final): Final
  {
    Final(f.result, sleeps + f.sleeps, sent + f.sent)
  }

  lemma AfterNothing(f: Final)
    ensures After([], [], f) == f
  {
    assert [] + f.sleeps == f.sleeps && [] + f.sent == f.sent;
  }

  lemma AfterEnd(sleeps: seq<Sleep>, sent: seq<Sent>, r: Py<Envelope>)
    ensures After(sleeps, sent, Final(r, [], [])) == Final(r, sleeps, sent)
  {
    assert sleeps + [] == sleeps && sent + [] == sent;
  }

  /** What one attempt leads to: another attempt, after the given sleeps and with the
      new backoff exponent and values of `text` and `json_res`, or the end of the call. */
  datatype Step =
    | Retry(sleeps: seq<Sleep>, k: nat, text: Option<string>, jsonRes: Option<Envelope>)
    | Stop(result: Py<Envelope>)

  /** A response that is not a 5xx, so its body was read. */
  predicate Answered(reply: Reply)
  {
    reply.Response? && !IsServerError(reply.status)
  }

  /** An answered JSON envelope that ends the call: its code is not "50004" and the
      status is not 429. */
  predicate Settled(reply: Reply)
  {
    Answered(reply) && reply.body.Json? && reply.body.envelope.code != Some("50004") && reply.status != 429
  }

  /** The classification of one reply to a request with a known method. `written` selects
      the non-2xx branch as written (`ApiError`) or as intended (`IntendedApiError`). */
  function Classify(verb: string, reply: Reply, k: nat, text: Option<string>, jsonRes: Option<Envelope>,
                    written: bool): Step
  {
    match reply
    case NetworkError =>
      if verb == Get then Retry([], k, text, jsonRes) else Retry([Backoff(k)], k + 1, text, jsonRes)
    case Response(status, body) =>
      if IsServerError(status) then Retry([Backoff(k)], k + 1, text, jsonRes)
      else
        match body
        case JsonTimeout => Retry([], k, text, jsonRes)
        case ReadFails(name) => Stop(Err(BodyReadError(name)))
        case NotJson(t) =>
          if Contains(t, "cloudflare") then Retry([Backoff(k)], k + 1, Some(t), jsonRes)
          else Stop(Err(OkexRequest(RequestException("Invalid Response: " + t))))
        case Json(env) =>
          if env.code == Some("50004") then Retry([Fixed(2)], k, text, Some(env))
          else if status == 429 then
            if env.msg.None? then Stop(Err(KeyError("msg"))) else Retry([Fixed(2)], k, text, Some(env))
          else if !IsSuccess(status) then
            Stop(Err(if written then ApiError(status, text, env) else IntendedApiError(status, env)))
          else Stop(Ok(env))
  }

  /** What each kind of reply leads to, outcome by outcome. */
  lemma ClassifyOutcomes(verb: string, reply: Reply, k: nat, text: Option<string>, jsonRes: Option<Envelope>,
                         written: bool)
    ensures var st := Classify(verb, reply, k, text, jsonRes, written);
            // a backoff sleep, after which the exponent grows, exactly after a POST or DELETE
            // transport error, a 5xx, or a page that is not JSON and mentions cloudflare
            (st.Retry? && st.sleeps == [Backoff(k)] && st.k == k + 1 <==>
              (reply.NetworkError? && verb != Get) ||
              (reply.Response? && IsServerError(reply.status)) ||
              (Answered(reply) && reply.body.NotJson? && Contains(reply.body.text, "cloudflare"))) &&
            // a fixed 2-second sleep exactly on code "50004", or on status 429 with a "msg"
            (st.Retry? && st.sleeps == [Fixed(2)] && st.k == k <==>
              Answered(reply) && reply.body.Json? &&
              (reply.body.envelope.code == Some("50004") || (reply.status == 429 && reply.body.envelope.msg.Some?))) &&
            // an immediate retry exactly after a GET transport error or a JSON read that timed out
            (st.Retry? && st.sleeps == [] && st.k == k <==>
              (reply.NetworkError? && verb == Get) || (Answered(reply) && reply.body.JsonTimeout?)) &&
            // "Invalid Response" exactly on a page that is not JSON and does not mention cloudflare
            (st.Stop? && st.result.Err? && st.result.error.OkexRequest? <==>
              Answered(reply) && reply.body.NotJson? && !Contains(reply.body.text, "cloudflare")) &&
            (Answered(reply) && reply.body.NotJson? && !Contains(reply.body.text, "cloudflare") ==>
              st == Stop(Err(OkexRequest(RequestException("Invalid Response: " + reply.body.text))))) &&
            // a body read that raises ends the call with that exception, without a retry
            (st.Stop? && st.result.Err? && st.result.error.BodyReadError? <==>
              Answered(reply) && reply.body.ReadFails?) &&
            (Answered(reply) && reply.body.ReadFails? ==> st == Stop(Err(BodyReadError(reply.body.exception)))) &&
            // the envelope is returned exactly on a 2xx whose code is not "50004"
            (st.Stop? && st.result.Ok? <==> Settled(reply) && IsSuccess(reply.status)) &&
            (Settled(reply) && IsSuccess(reply.status) ==> st == Stop(Ok(reply.body.envelope))) &&
            // any other status raises the API error
            (Settled(reply) && !IsSuccess(reply.status) ==>
              st == Stop(Err(if written then ApiError(reply.status, text, reply.body.envelope)
                             else IntendedApiError(reply.status, reply.body.envelope)))) &&
            // a 429 without "msg" and without code "50004" raises KeyError
            (Answered(reply) && reply.body.Json? && reply.body.envelope.code != Some("50004") &&
                reply.status == 429 && reply.body.envelope.msg.None? ==>
              st == Stop(Err(KeyError("msg")))) &&
            // a retry keeps `text` and `json_res` unless it read a new page or envelope
            (st.Retry? ==> st.text == (if Answered(reply) && reply.body.NotJson? then Some(reply.body.text) else text)) &&
            (st.Retry? ==> st.jsonRes == (if Answered(reply) && reply.body.Json? then Some(reply.body.envelope) else jsonRes))
  {
  }

  /** A retry sleeps at most once, and the backoff exponent grows by one exactly when
      that sleep is a backoff sleep, which then uses the old exponent. */
  lemma ClassifyBackoff(verb: string, reply: Reply, k: nat, text: Option<string>, jsonRes: Option<Envelope>,
                        written: bool)
    ensures var st := Classify(verb, reply, k, text, jsonRes, written);
            st.Retry? ==> |st.sleeps| <= 1 &&
                          (st.k == k + 1 <==> st.sleeps == [Backoff(k)]) &&
                          (st.k == k + 1 || st.k == k) &&
                          (st.k == k ==> forall sl :: sl in st.sleeps ==> sl.Fixed?)
  {
  }

  /** What stays fixed over the attempts of one call: the credentials and signer, the
      method, the path (with its query string), the body, the replies and the clock, and
      whether the non-2xx branch is taken as written or as intended. */
  datatype Call = Call(cred: Credentials, mac: Mac, verb: string, path: string, body: string,
                       replies: nat -> Reply, stamp: nat -> string, written: bool)

  /** The request attempt `retry` sends, signed with that attempt's timestamp. */
  function SentAt(c: Call, retry: nat): Sent
  {
    Sent(c.verb, c.path, SignedHeader(c.cred, c.mac, c.stamp(retry), c.verb, c.path, c.body), c.body)
  }

  /** The loop from attempt `retry` on, with backoff exponent `k` and the values `text`
      and `json_res` hold so far (None: not yet bound). */
  function Loop(c: Call, retry: nat, k: nat, text: Option<string>, jsonRes: Option<Envelope>): (f: Final)
    requires retry <= MaxRetry
    // at most one request per remaining attempt, and every sleep follows a request
    ensures |f.sent| <= MaxRetry - retry && |f.sleeps| <= |f.sent|
    decreases MaxRetry - retry
  {
    if retry == MaxRetry then
      Final(if jsonRes.Some? then Ok(jsonRes.value) else Err(UnboundLocalError("json_res")), [], [])
    else if !KnownVerb(c.verb) then
      Final(Err(ValueError), [], [])
    else
      match Classify(c.verb, c.replies(retry), k, text, jsonRes, c.written)
      case Retry(sleeps, k', text', jsonRes') => After(sleeps, [SentAt(c, retry)], Loop(c, retry + 1, k', text', jsonRes'))
      case Stop(result) => Final(result, [], [SentAt(c, retry)])
  }

  /** The loop as the method runs it: the sleeps and requests so far are carried along. */
  function Run(c: Call, retry: nat, k: nat, text: Option<string>, jsonRes: Option<Envelope>,
               sleeps: seq<Sleep>, sent: seq<Sent>): Final
    requires retry <= MaxRetry
    decreases MaxRetry - retry
  {
    if retry == MaxRetry then
      Final(if jsonRes.Some? then Ok(jsonRes.value) else Err(UnboundLocalError("json_res")), sleeps, sent)
    else if !KnownVerb(c.verb) then
      Final(Err(ValueError), sleeps, sent)
    else
      match Classify(c.verb, c.replies(retry), k, text, jsonRes, c.written)
      case Retry(pause, k', text', jsonRes') => Run(c, retry + 1, k', text', jsonRes', sleeps + pause, sent + [SentAt(c, retry)])
      case Stop(result) => Final(result, sleeps, sent + [SentAt(c, retry)])
  }

  /** An attempt that is retried: the loop is that attempt's request and sleeps, then
      the loop from the next attempt. */
  lemma LoopRetry(c: Call, retry: nat, k: nat, text: Option<string>, jsonRes: Option<Envelope>,
                  sleeps: seq<Sleep>, sent: seq<Sent>,
                  pause: seq<Sleep>, k': nat, text': Option<string>, jsonRes': Option<Envelope>)
    requires retry < MaxRetry && KnownVerb(c.verb)
    requires Classify(c.verb, c.replies(retry), k, text, jsonRes, c.written) == Retry(pause, k', text', jsonRes')
    ensures After(sleeps, sent, Loop(c, retry, k, text, jsonRes))
            == After(sleeps + pause, sent + [SentAt(c, retry)], Loop(c, retry + 1, k', text', jsonRes'))
  {
    var g := Loop(c, retry + 1, k', text', jsonRes');
    assert sleeps + (pause + g.sleeps) == (sleeps + pause) + g.sleeps;
    assert sent + ([SentAt(c, retry)] + g.sent) == (sent + [SentAt(c, retry)]) + g.sent;
  }

  /** An attempt that ends the call. */
  lemma LoopStop(c: Call, retry: nat, k: nat, text: Option<string>, jsonRes: Option<Envelope>,
                 sleeps: seq<Sleep>, sent: seq<Sent>, r: Py<Envelope>)
    requires retry < MaxRetry && KnownVerb(c.verb)
    requires Classify(c.verb, c.replies(retry), k, text, jsonRes, c.written) == Stop(r)
    ensures After(sleeps, sent, Loop(c, retry, k, text, jsonRes)) == Final(r, sleeps, sent + [SentAt(c, retry)])
  {
    assert sleeps + [] == sleeps;
  }

  /** The loop as the method runs it is the loop of the specification, after what was
      slept and sent before. */
  lemma {:induction false} RunIsLoop(c: Call, retry: nat, k: nat, text: Option<string>, jsonRes: Option<Envelope>,
                                     sleeps: seq<Sleep>, sent: seq<Sent>)
    requires retry <= MaxRetry
    ensures Run(c, retry, k, text, jsonRes, sleeps, sent) == After(sleeps, sent, Loop(c, retry, k, text, jsonRes))
    decreases MaxRetry - retry
  {
    if retry == MaxRetry || !KnownVerb(c.verb) {
      AfterEnd(sleeps, sent, Loop(c, retry, k, text, jsonRes).result);
    } else {
      match Classify(c.verb, c.replies(retry), k, text, jsonRes, c.written)
      case Retry(pause, k', text', jsonRes') =>
        RunIsLoop(c, retry + 1, k', text', jsonRes', sleeps + pause, sent + [SentAt(c, retry)]);
        LoopRetry(c, retry, k, text, jsonRes, sleeps, sent, pause, k', text', jsonRes');
      case Stop(r) =>
        LoopStop(c, retry, k, text, jsonRes, sleeps, sent, r);
    }
  }

  /** A first attempt that ends the call. */
  lemma FirstStop(c: Call, r: Py<Envelope>)
    requires KnownVerb(c.verb) && Classify(c.verb, c.replies(0), 0, None, None, c.written) == Stop(r)
    ensures Loop(c, 0, 0, None, None) == Final(r, [], [SentAt(c, 0)])
  {
  }

  /** The fixed part of `_request(verb, request_path, params)`, with the non-2xx branch
      as intended. */
  function MakeCall(cred: Credentials, mac: Mac, verb: string, requestPath: string, params: Params,
                    replies: nat -> Reply, stamp: nat -> string, dumps: Params -> string): Call
  {
    Call(cred, mac, verb, RequestPath(verb, requestPath, params), RequestBody(verb, params, dumps), replies, stamp, false)
  }

  /** The whole call `_request(verb, request_path, params)`, with the non-2xx branch as
      intended. */
  function Dispatch(cred: Credentials, mac: Mac, verb: string, requestPath: string, params: Params,
                    replies: nat -> Reply, stamp: nat -> string, dumps: Params -> string): (f: Final)
    ensures |f.sent| <= MaxRetry && |f.sleeps| <= |f.sent|
    ensures f.sent != [] <==> KnownVerb(verb)
    ensures !KnownVerb(verb) ==> f.result == Err(ValueError)
  {
    Loop(MakeCall(cred, mac, verb, requestPath, params, replies, stamp, dumps), 0, 0, None, None)
  }

  /** One reply classified with the non-2xx branch as written and as intended: the same
      retry, or both stop, and then with the same result except where the written branch
      finds `text` unbound. */
  lemma ClassifyWritten(verb: string, reply: Reply, k: nat, text: Option<string>, jsonRes: Option<Envelope>)
    ensures var st, sw := Classify(verb, reply, k, text, jsonRes, false), Classify(verb, reply, k, text, jsonRes, true);
            (st.Retry? <==> sw.Retry?) && (st.Retry? ==> sw == st) &&
            (sw != st ==> st.Stop? && st.result.Err? && st.result.error.OkexApi? && sw == Stop(Err(UnboundLocalError("text"))))
  {
    if Settled(reply) && !IsSuccess(reply.status) {
      ApiErrorDiscrepancy(reply.status, text, reply.body.envelope);
    }
  }

  /** `g`, the end of a call as written, agrees with `f`, its end as intended: the same
      requests and sleeps, and the same result except that where `f` raises the API
      exception `g` may raise UnboundLocalError for `text`. */
  predicate AgreesAsWritten(f: Final, g: Final)
  {
    g.sleeps == f.sleeps && g.sent == f.sent &&
    (g.result != f.result ==> f.result.Err? && f.result.error.OkexApi? && g.result == Err(UnboundLocalError("text")))
  }

  /** One attempt keeps the agreement of the rest of the call. */
  lemma AsWrittenStep(c: Call, retry: nat, k: nat, text: Option<string>, jsonRes: Option<Envelope>)
    requires retry < MaxRetry && KnownVerb(c.verb) && !c.written
    requires var st := Classify(c.verb, c.replies(retry), k, text, jsonRes, false);
             st.Retry? ==> AgreesAsWritten(Loop(c, retry + 1, st.k, st.text, st.jsonRes),
                                           Loop(c.(written := true), retry + 1, st.k, st.text, st.jsonRes))
    ensures AgreesAsWritten(Loop(c, retry, k, text, jsonRes), Loop(c.(written := true), retry, k, text, jsonRes))
  {
    var w := c.(written := true);
    assert SentAt(w, retry) == SentAt(c, retry);
    ClassifyWritten(c.verb, c.replies(retry), k, text, jsonRes);
    var st := Classify(c.verb, c.replies(retry), k, text, jsonRes, false);
    var sw := Classify(c.verb, c.replies(retry), k, text, jsonRes, true);
    if st.Stop? {
      assert Loop(c, retry, k, text, jsonRes) == Final(st.result, [], [SentAt(c, retry)]);
      assert Loop(w, retry, k, text, jsonRes) == Final(sw.result, [], [SentAt(c, retry)]);
    } else {
      assert Loop(c, retry, k, text, jsonRes)
             == After(st.sleeps, [SentAt(c, retry)], Loop(c, retry + 1, st.k, st.text, st.jsonRes));
      assert Loop(w, retry, k, text, jsonRes)
             == After(st.sleeps, [SentAt(c, retry)], Loop(w, retry + 1, st.k, st.text, st.jsonRes));
    }
  }

  /** The call as written and as intended send the same requests and sleep the same
      sleeps; where their results differ, the intended one raises the API exception and
      the written one raises UnboundLocalError for `text`. */
  lemma {:induction false} AsWrittenDiffers(c: Call, retry: nat, k: nat, text: Option<string>, jsonRes: Option<Envelope>)
    requires retry <= MaxRetry && !c.written
    ensures AgreesAsWritten(Loop(c, retry, k, text, jsonRes), Loop(c.(written := true), retry, k, text, jsonRes))
    decreases MaxRetry - retry
  {
    if retry < MaxRetry && KnownVerb(c.verb) {
      var st := Classify(c.verb, c.replies(retry), k, text, jsonRes, false);
      if st.Retry? {
        AsWrittenDiffers(c, retry + 1, st.k, st.text, st.jsonRes);
      }
      AsWrittenStep(c, retry, k, text, jsonRes);
    }
  }

  /** The whole call `_request(verb, request_path, params)` as written: the same requests
      and sleeps as `Dispatch`, and the same result except where the written non-2xx
      branch finds `text` unbound. */
  function DispatchAsWritten(cred: Credentials, mac: Mac, verb: string, requestPath: string, params: Params,
                             replies: nat -> Reply, stamp: nat -> string, dumps: Params -> string): (f: Final)
    ensures AgreesAsWritten(Dispatch(cred, mac, verb, requestPath, params, replies, stamp, dumps), f)
  {
    var c := MakeCall(cred, mac, verb, requestPath, params, replies, stamp, dumps);
    AsWrittenDiffers(c, 0, 0, None, None);
    Loop(c.(written := true), 0, 0, None, None)
  }

  /** The backoff exponents among the sleeps, in order. */
  function Exponents(sleeps: seq<Sleep>): seq<int>
  {
    if sleeps == [] then []
    else if sleeps[0].Backoff? then [sleeps[0].k] + Exponents(sleeps[1..])
    else Exponents(sleeps[1..])
  }

  lemma {:induction false} ExponentsAppend(a: seq<Sleep>, b: seq<Sleep>)
    ensures Exponents(a + b) == Exponents(a) + Exponents(b)
    decreases |a|
  {
    if a == [] {
      assert a + b == b;
    } else {
      assert (a + b)[0] == a[0];
      assert (a + b)[1..] == a[1..] + b;
      ExponentsAppend(a[1..], b);
    }
  }

  /** `sent` is the requests of attempts `retry`, `retry + 1`, ... in order. */
  predicate SendsFrom(c: Call, sent: seq<Sent>, retry: nat)
  {
    forall i :: 0 <= i < |sent| ==> sent[i] == SentAt(c, retry + i)
  }

  lemma SendsFromCons(c: Call, sent: seq<Sent>, retry: nat)
    requires SendsFrom(c, sent, retry + 1)
    ensures SendsFrom(c, [SentAt(c, retry)] + sent, retry)
  {
    var s := [SentAt(c, retry)] + sent;
    forall i | 1 <= i < |s|
      ensures s[i] == SentAt(c, retry + i)
    {
      assert s[i] == sent[i - 1];
    }
  }

  /** Attempt `retry + i` is sent as the i-th request of the rest of the call; at most
      `MaxRetry - retry` requests go out, and there is at most one sleep per request. */
  lemma {:induction false} LoopSends(c: Call, retry: nat, k: nat, text: Option<string>, jsonRes: Option<Envelope>)
    requires retry <= MaxRetry
    ensures var f := Loop(c, retry, k, text, jsonRes);
            |f.sent| <= MaxRetry - retry && |f.sleeps| <= |f.sent| && SendsFrom(c, f.sent, retry)
    decreases MaxRetry - retry
  {
    if retry < MaxRetry && KnownVerb(c.verb) {
      var st := Classify(c.verb, c.replies(retry), k, text, jsonRes, c.written);
      if st.Retry? {
        ClassifyBackoff(c.verb, c.replies(retry), k, text, jsonRes, c.written);
        var g := Loop(c, retry + 1, st.k, st.text, st.jsonRes);
        LoopSends(c, retry + 1, st.k, st.text, st.jsonRes);
        SendsFromCons(c, g.sent, retry);
      }
    }
  }

  /** `e` is k, k + 1, k + 2, ... */
  predicate CountsUpFrom(e: seq<int>, k: int)
  {
    forall i :: 0 <= i < |e| ==> e[i] == k + i
  }

  /** One retry's sleeps in front of sleeps whose exponents count up from the new
      exponent give sleeps whose exponents count up from the old one. */
  lemma CountsUpCons(pause: seq<Sleep>, k: nat, k': nat, rest: seq<Sleep>)
    requires |pause| <= 1 && (k' == k + 1 <==> pause == [Backoff(k)]) && (k' == k + 1 || k' == k)
    requires k' == k ==> forall sl :: sl in pause ==> sl.Fixed?
    requires CountsUpFrom(Exponents(rest), k')
    ensures CountsUpFrom(Exponents(pause + rest), k)
  {
    ExponentsAppend(pause, rest);
    var e, er := Exponents(pause + rest), Exponents(rest);
    if k' == k + 1 {
      assert Exponents(pause) == [k] by {
        assert pause[1..] == [];
      }
      assert e == [k] + er;
      forall i | 1 <= i < |e|
        ensures e[i] == k + i
      {
        assert e[i] == er[i - 1];
      }
    } else {
      if pause != [] {
        assert pause[0] in pause && pause[1..] == [];
      }
      assert Exponents(pause) == [];
      assert e == er;
    }
  }

  /** The backoff sleeps of a call use exponents k, k + 1, k + 2, ... in order: `backoff`
      is multiplied by 1.1 after each of them and at no other point. */
  lemma {:induction false} BackoffGrows(c: Call, retry: nat, k: nat, text: Option<string>, jsonRes: Option<Envelope>)
    requires retry <= MaxRetry
    ensures CountsUpFrom(Exponents(Loop(c, retry, k, text, jsonRes).sleeps), k)
    decreases MaxRetry - retry
  {
    if retry < MaxRetry && KnownVerb(c.verb) {
      var st := Classify(c.verb, c.replies(retry), k, text, jsonRes, c.written);
      if st.Retry? {
        ClassifyBackoff(c.verb, c.replies(retry), k, text, jsonRes, c.written);
        var g := Loop(c, retry + 1, st.k, st.text, st.jsonRes);
        BackoffGrows(c, retry + 1, st.k, st.text, st.jsonRes);
        CountsUpCons(st.sleeps, k, st.k, g.sleeps);
      }
    }
  }

  /** One attempt's headers verify against the request, carry the key, and carry the
      simulated-trading flag exactly in test mode. */
  lemma SignedHeaderFacts(cred: Credentials, mac: Mac, timestamp: string, verb: string, path: string, body: string)
    ensures var h := SignedHeader(cred, mac, timestamp, verb, path, body);
            Verifies(mac, cred.secretKey, h, verb, path, body) &&
            (SimulatedTrading in h <==> cred.test) &&
            h[AccessKey] == cred.apiKey
  {
    SignedHeaderVerifies(mac, cred.apiKey, cred.secretKey, cred.passphrase, timestamp, verb, path, body);
    GetHeaderShape(cred.apiKey, mac(cred.secretKey, PreHash(timestamp, verb, path, body)), timestamp, cred.passphrase);
  }

  /** Request `s` goes to the call's path with its body, is signed for them with the
      timestamp of attempt `i`, carries the key, and carries `x-simulated-trading: 1`
      exactly in test mode. */
  predicate SignedFor(c: Call, s: Sent, i: nat)
  {
    s.verb == c.verb && s.path == c.path && s.body == c.body &&
    AccessTimestamp in s.header && s.header[AccessTimestamp] == c.stamp(i) &&
    AccessKey in s.header && s.header[AccessKey] == c.cred.apiKey &&
    Verifies(c.mac, c.cred.secretKey, s.header, s.verb, s.path, s.body) &&
    (SimulatedTrading in s.header <==> c.cred.test)
  }

  lemma SentAtSigned(c: Call, i: nat)
    ensures SignedFor(c, SentAt(c, i), i)
  {
    SignedHeaderFacts(c.cred, c.mac, c.stamp(i), c.verb, c.path, c.body);
    GetHeaderShape(c.cred.apiKey, c.mac(c.cred.secretKey, PreHash(c.stamp(i), c.verb, c.path, c.body)),
                   c.stamp(i), c.cred.passphrase);
  }

  /** Every request of a call goes to the same path (with the query string for GET) with
      the same body (the JSON parameters for POST), is correctly signed for them with its
      own attempt's timestamp, and carries `x-simulated-trading: 1` exactly in test mode;
      no more than 100 go out. */
  lemma SentRequestsVerify(cred: Credentials, mac: Mac, verb: string, requestPath: string, params: Params,
                           replies: nat -> Reply, stamp: nat -> string, dumps: Params -> string)
    ensures var c := MakeCall(cred, mac, verb, requestPath, params, replies, stamp, dumps);
            var f := Dispatch(cred, mac, verb, requestPath, params, replies, stamp, dumps);
            c.path == RequestPath(verb, requestPath, params) && c.body == RequestBody(verb, params, dumps) &&
            |f.sent| <= MaxRetry && forall i :: 0 <= i < |f.sent| ==> SignedFor(c, f.sent[i], i)
  {
    var c := MakeCall(cred, mac, verb, requestPath, params, replies, stamp, dumps);
    LoopSends(c, 0, 0, None, None);
    var f := Loop(c, 0, 0, None, None);
    forall i | 0 <= i < |f.sent|
      ensures SignedFor(c, f.sent[i], i)
    {
      assert f.sent[i] == SentAt(c, i);
      SentAtSigned(c, i);
    }
  }

  /** An unknown method raises ValueError before anything is sent or slept. */
  lemma UnknownVerbRaises(cred: Credentials, mac: Mac, verb: string, requestPath: string, params: Params,
                          replies: nat -> Reply, stamp: nat -> string, dumps: Params -> string)
    requires !KnownVerb(verb)
    ensures Dispatch(cred, mac, verb, requestPath, params, replies, stamp, dumps) == Final(Err(ValueError), [], [])
  {
  }

  /** A server that keeps answering 5xx gets all 100 attempts, with backoff exponents
      0 to 99, and then `return json_res` finds the name unbound. */
  lemma PermanentServerError(cred: Credentials, mac: Mac, verb: string, requestPath: string, params: Params,
                             replies: nat -> Reply, stamp: nat -> string, dumps: Params -> string)
    requires KnownVerb(verb)
    requires forall i :: replies(i).Response? && IsServerError(replies(i).status)
    ensures var f := Dispatch(cred, mac, verb, requestPath, params, replies, stamp, dumps);
            f.result == Err(UnboundLocalError("json_res")) &&
            |f.sent| == MaxRetry &&
            f.sleeps == seq(MaxRetry, i requires 0 <= i => Backoff(i))
  {
    ServerErrorsFrom(MakeCall(cred, mac, verb, requestPath, params, replies, stamp, dumps), 0, 0, None);
  }

  lemma {:induction false} ServerErrorsFrom(c: Call, retry: nat, k: nat, text: Option<string>)
    requires KnownVerb(c.verb) && retry <= MaxRetry
    requires forall i :: c.replies(i).Response? && IsServerError(c.replies(i).status)
    ensures var f := Loop(c, retry, k, text, None);
            f.result == Err(UnboundLocalError("json_res")) &&
            |f.sent| == MaxRetry - retry &&
            f.sleeps == seq(MaxRetry - retry, i requires 0 <= i => Backoff(k + i))
    decreases MaxRetry - retry
  {
    if retry < MaxRetry {
      assert c.replies(retry).Response? && IsServerError(c.replies(retry).status);
      assert Classify(c.verb, c.replies(retry), k, text, None, c.written) == Retry([Backoff(k)], k + 1, text, None);
      ServerErrorsFrom(c, retry + 1, k + 1, text);
      var g := Loop(c, retry + 1, k + 1, text, None);
      assert Loop(c, retry, k, text, None) == After([Backoff(k)], [SentAt(c, retry)], g);
      var s := seq(MaxRetry - retry, i requires 0 <= i => Backoff(k + i));
      assert [Backoff(k)] + g.sleeps == s by {
        forall i | 1 <= i < |s|
          ensures ([Backoff(k)] + g.sleeps)[i] == s[i]
        {
          assert ([Backoff(k)] + g.sleeps)[i] == g.sleeps[i - 1];
        }
      }
    }
  }

  /** An endpoint that keeps timing out (code 50004) gets all 100 attempts, each followed
      by a fixed 2-second sleep, and the last envelope is returned without raising. */
  lemma PermanentEndpointTimeout(cred: Credentials, mac: Mac, verb: string, requestPath: string, params: Params,
                                 replies: nat -> Reply, stamp: nat -> string, dumps: Params -> string,
                                 env: Envelope)
    requires KnownVerb(verb) && env.code == Some("50004")
    requires forall i :: replies(i) == Response(200, Json(env))
    ensures var f := Dispatch(cred, mac, verb, requestPath, params, replies, stamp, dumps);
            f.result == Ok(env) && |f.sent| == MaxRetry && f.sleeps == seq(MaxRetry, i => Fixed(2))
  {
    EndpointTimeoutsFrom(MakeCall(cred, mac, verb, requestPath, params, replies, stamp, dumps), 0, None, env);
  }

  lemma {:induction false} EndpointTimeoutsFrom(c: Call, retry: nat, jsonRes: Option<Envelope>, env: Envelope)
    requires KnownVerb(c.verb) && retry <= MaxRetry && env.code == Some("50004")
    requires retry == MaxRetry ==> jsonRes == Some(env)
    requires forall i :: c.replies(i) == Response(200, Json(env))
    ensures var f := Loop(c, retry, 0, None, jsonRes);
            f.result == Ok(env) && |f.sent| == MaxRetry - retry && f.sleeps == seq(MaxRetry - retry, i => Fixed(2))
    decreases MaxRetry - retry
  {
    if retry < MaxRetry {
      assert c.replies(retry) == Response(200, Json(env));
      assert !IsServerError(200) by { assert IntToStr(200)[0] == '2'; }
      EndpointTimeoutsFrom(c, retry + 1, Some(env), env);
      var g := Loop(c, retry + 1, 0, None, Some(env));
      assert [Fixed(2)] + g.sleeps == seq(MaxRetry - retry, i => Fixed(2));
    }
  }

  /** A first reply with a 2xx status and a JSON envelope is returned unchanged after one
      request and no sleep, whatever its code, unless the code is "50004". */
  lemma SuccessReturnsEnvelope(cred: Credentials, mac: Mac, verb: string, requestPath: string, params: Params,
                               replies: nat -> Reply, stamp: nat -> string, dumps: Params -> string,
                               status: int, env: Envelope)
    requires KnownVerb(verb) && IsSuccess(status) && env.code != Some("50004")
    requires replies(0) == Response(status, Json(env))
    ensures var f := Dispatch(cred, mac, verb, requestPath, params, replies, stamp, dumps);
            f.result == Ok(env) && |f.sent| == 1 && f.sleeps == []
  {
    ThreeDigitStatus(429);
    FirstStop(MakeCall(cred, mac, verb, requestPath, params, replies, stamp, dumps), Ok(env));
  }

  /** A first reply that is neither a 5xx nor JSON, and does not mention cloudflare, raises
      OkexRequestException with the page's text at once. */
  lemma InvalidResponseRaises(cred: Credentials, mac: Mac, verb: string, requestPath: string, params: Params,
                              replies: nat -> Reply, stamp: nat -> string, dumps: Params -> string,
                              status: int, text: string)
    requires KnownVerb(verb) && !IsServerError(status) && !Contains(text, "cloudflare")
    requires replies(0) == Response(status, NotJson(text))
    ensures var f := Dispatch(cred, mac, verb, requestPath, params, replies, stamp, dumps);
            f.result == Err(OkexRequest(RequestException("Invalid Response: " + text))) &&
            |f.sent| == 1 && f.sleeps == []
  {
    FirstStop(MakeCall(cred, mac, verb, requestPath, params, replies, stamp, dumps),
              Err(OkexRequest(RequestException("Invalid Response: " + text))));
  }

  /** A first reply that is not a 5xx but whose body cannot be read raises that exception
      at once: the loop catches transport errors only around the send, not around the
      body read. */
  lemma BodyReadFailureRaises(cred: Credentials, mac: Mac, verb: string, requestPath: string, params: Params,
                              replies: nat -> Reply, stamp: nat -> string, dumps: Params -> string,
                              status: int, exception: string)
    requires KnownVerb(verb) && !IsServerError(status)
    requires replies(0) == Response(status, ReadFails(exception))
    ensures var f := Dispatch(cred, mac, verb, requestPath, params, replies, stamp, dumps);
            f.result == Err(BodyReadError(exception)) && |f.sent| == 1 && f.sleeps == []
  {
    FirstStop(MakeCall(cred, mac, verb, requestPath, params, replies, stamp, dumps), Err(BodyReadError(exception)));
  }

  /** Code "50004" is looked at before status 429: a 429 reply carrying it is retried
      after a 2-second sleep even when it has no "msg", which for any other code is a
      KeyError. */
  lemma EndpointTimeoutBeforeTooMany(cred: Credentials, mac: Mac, verb: string, requestPath: string, params: Params,
                                     replies: nat -> Reply, stamp: nat -> string, dumps: Params -> string,
                                     env: Envelope)
    requires KnownVerb(verb) && env.msg.None?
    requires replies(0) == Response(429, Json(env))
    ensures var f := Dispatch(cred, mac, verb, requestPath, params, replies, stamp, dumps);
            (env.code == Some("50004") ==> |f.sleeps| >= 1 && f.sleeps[0] == Fixed(2) && |f.sent| >= 1) &&
            (env.code != Some("50004") ==> f.result == Err(KeyError("msg")) && f.sleeps == [])
  {
    var c := MakeCall(cred, mac, verb, requestPath, params, replies, stamp, dumps);
    ThreeDigitStatus(429);
    if env.code == Some("50004") {
      LoopRetry(c, 0, 0, None, None, [], [], [Fixed(2)], 0, None, Some(env));
      AfterNothing(Loop(c, 0, 0, None, None));
    } else {
      FirstStop(c, Err(KeyError("msg")));
    }
  }

  /** A GET whose transport fails is retried at once, without a sleep and without
      touching the backoff, unlike POST and DELETE. */
  lemma GetTransportErrorNoSleep(cred: Credentials, mac: Mac, verb: string, requestPath: string, params: Params,
                                 replies: nat -> Reply, stamp: nat -> string, dumps: Params -> string)
    requires KnownVerb(verb) && replies(0) == NetworkError
    ensures var f := Dispatch(cred, mac, verb, requestPath, params, replies, stamp, dumps);
            var g := Loop(MakeCall(cred, mac, verb, requestPath, params, replies, stamp, dumps), 1,
                          if verb == Get then 0 else 1, None, None);
            f.result == g.result &&
            f.sleeps == (if verb == Get then [] else [Backoff(0)]) + g.sleeps
  {
  }

  /** As written, a first reply with a 4xx status and an envelope with "code" and "msg"
      raises UnboundLocalError for `text` after one request and no sleep, unless the code
      is "50004" or the status is 429: no earlier attempt has bound `text`. Status 400 with
      `{"code": "51000", "msg": "Parameter error"}` is one such reply. */
  lemma FirstClientErrorIsUnbound(cred: Credentials, mac: Mac, verb: string, requestPath: string, params: Params,
                                  replies: nat -> Reply, stamp: nat -> string, dumps: Params -> string,
                                  status: int, env: Envelope)
    requires KnownVerb(verb) && 400 <= status < 500 && status != 429
    requires env.code.Some? && env.code != Some("50004") && env.msg.Some?
    requires replies(0) == Response(status, Json(env))
    ensures var f := DispatchAsWritten(cred, mac, verb, requestPath, params, replies, stamp, dumps);
            f.result == Err(UnboundLocalError("text")) && |f.sent| == 1 && f.sleeps == []
  {
    ThreeDigitStatus(status);
    var c := MakeCall(cred, mac, verb, requestPath, params, replies, stamp, dumps).(written := true);
    FirstStop(c, Err(UnboundLocalError("text")));
  }

  /** A first reply with a 4xx status and an envelope with "code" and "msg" raises the API
      exception for them after one request and no sleep, unless the code is "50004" or
      the status is 429. */
  lemma ClientErrorRaisesApiException(cred: Credentials, mac: Mac, verb: string, requestPath: string, params: Params,
                                      replies: nat -> Reply, stamp: nat -> string, dumps: Params -> string,
                                      status: int, env: Envelope)
    requires KnownVerb(verb) && 400 <= status < 500 && status != 429
    requires env.code.Some? && env.code != Some("50004") && env.msg.Some?
    requires replies(0) == Response(status, Json(env))
    ensures var f := Dispatch(cred, mac, verb, requestPath, params, replies, stamp, dumps);
            f.result == Err(OkexApi(ApiException(env.code.value, env.msg.value, status))) &&
            |f.sent| == 1 && f.sleeps == []
  {
    ThreeDigitStatus(status);
    FirstStop(MakeCall(cred, mac, verb, requestPath, params, replies, stamp, dumps),
              Err(OkexApi(ApiException(env.code.value, env.msg.value, status))));
  }

  /** A `Client`: credentials fixed at construction. The shared aiohttp session is not
      modelled. */
  class Client {
    const apiKey: string
    const apiSecretKey: string
    const passphrase: string
    const useServerTime: bool
    const test: bool

    constructor (apiKey: string, apiSecretKey: string, passphrase: string, useServerTime: bool, test: bool)
      ensures this.apiKey == apiKey && this.apiSecretKey == apiSecretKey && this.passphrase == passphrase
      ensures this.useServerTime == useServerTime && this.test == test
    {
      this.apiKey := apiKey;
      this.apiSecretKey := apiSecretKey;
      this.passphrase := passphrase;
      this.useServerTime := useServerTime;
      this.test := test;
    }

    function Creds(): Credentials
    {
      Credentials(apiKey, apiSecretKey, passphrase, test)
    }

    /** One pass of the loop body for attempt `retry` (src/okx/client.py:47-116): sign the
        request with that attempt's timestamp, send it, and classify the reply. An unknown
        method raises ValueError before anything is sent. */
    method Pass(c: Call, params: Params, dumps: Params -> string,
                retry: nat, k: nat, text: Option<string>, jsonRes: Option<Envelope>)
      returns (request: Option<Sent>, st: Step)
      requires c.cred == Creds() && c.body == RequestBody(c.verb, params, dumps)
      ensures KnownVerb(c.verb) ==> request == Some(SentAt(c, retry)) && st == Classify(c.verb, c.replies(retry), k, text, jsonRes, c.written)
      ensures !KnownVerb(c.verb) ==> request == None && st == Stop(Err(ValueError))
    {
      var timestamp := c.stamp(retry);
      var body := if c.verb == Post then dumps(params) else "";
      var header := GetHeader(apiKey, c.mac(apiSecretKey, PreHash(timestamp, c.verb, c.path, body)), timestamp, passphrase);
      if test {
        header := header[SimulatedTrading := "1"];
      }
      if !KnownVerb(c.verb) {
        return None, Stop(Err(ValueError));
      }
      request := Some(Sent(c.verb, c.path, header, body));
      st := Classify(c.verb, c.replies(retry), k, text, jsonRes, c.written);
    }

    /** The retry loop of `_request` (src/okx/client.py:46-118) for the fixed request `c`. */
    method Retries(c: Call, params: Params, dumps: Params -> string)
      returns (result: Py<Envelope>, sleeps: seq<Sleep>, sent: seq<Sent>)
      requires c.cred == Creds() && c.body == RequestBody(c.verb, params, dumps)
      ensures Final(result, sleeps, sent) == Run(c, 0, 0, None, None, [], [])
    {
      var success := false;
      var retry: nat := 0;
      var k: nat := 0;
      var text: Option<string> := None;
      var jsonRes: Option<Envelope> := None;
      sleeps, sent := [], [];
      while !success && retry < MaxRetry
        invariant retry <= MaxRetry
        invariant !success ==> Run(c, 0, 0, None, None, [], []) == Run(c, retry, k, text, jsonRes, sleeps, sent)
        invariant success ==> jsonRes.Some? && Run(c, 0, 0, None, None, [], []) == Final(Ok(jsonRes.value), sleeps, sent)
        decreases MaxRetry - retry, if success then 0 else 1
      {
        var request, st := Pass(c, params, dumps, retry, k, text, jsonRes);
        if request.None? {
          return Err(ValueError), sleeps, sent;
        }
        match st
        case Retry(pause, k', text', jsonRes') =>
          sent := sent + [request.value];
          sleeps := sleeps + pause;
          retry, k, text, jsonRes := retry + 1, k', text', jsonRes';
        case Stop(r) =>
          sent := sent + [request.value];
          if r.Err? {
            return r, sleeps, sent;
          }
          success, jsonRes := true, Some(r.value);
      }
      if success {
        result := Ok(jsonRes.value);
      } else {
        result := if jsonRes.Some? then Ok(jsonRes.value) else Err(UnboundLocalError("json_res"));
      }
    }

    /** `_request(method, request_path, params)`; `stamp` is the server's or the local
        clock according to `use_server_time`, `mac` is `sign`, `dumps` is `json.dumps`. */
    method Request(verb: string, requestPath: string, params: Params, replies: nat -> Reply,
                   stamp: nat -> string, mac: Mac, dumps: Params -> string)
      returns (result: Py<Envelope>, sleeps: seq<Sleep>, sent: seq<Sent>)
      ensures Final(result, sleeps, sent) == Dispatch(Creds(), mac, verb, requestPath, params, replies, stamp, dumps)
    {
      var path := requestPath;
      if verb == Get {
        path := path + ParseParamsToStr(params);
      }
      var c := Call(Creds(), mac, verb, path, if verb == Post then dumps(params) else "", replies, stamp, false);
      assert c == MakeCall(Creds(), mac, verb, requestPath, params, replies, stamp, dumps);
      result, sleeps, sent := Retries(c, params, dumps);
      RunIsLoop(c, 0, 0, None, None, [], []);
      AfterNothing(Loop(c, 0, 0, None, None));
    }

    /** `_request_without_params`: an empty parameter dict. */
    method RequestWithoutParams(verb: string, requestPath: string, replies: nat -> Reply,
                                stamp: nat -> string, mac: Mac, dumps: Params -> string)
      returns (result: Py<Envelope>, sleeps: seq<Sleep>, sent: seq<Sent>)
      ensures Final(result, sleeps, sent) == Dispatch(Creds(), mac, verb, requestPath, [], replies, stamp, dumps)
      ensures forall s :: s in sent ==> s.path == requestPath
    {
      result, sleeps, sent := Request(verb, requestPath, [], replies, stamp, mac, dumps);
      SentRequestsVerify(Creds(), mac, verb, requestPath, [], replies, stamp, dumps);
    }

    /** `_request_with_params`. */
    method RequestWithParams(verb: string, requestPath: string, params: Params, replies: nat -> Reply,
                             stamp: nat -> string, mac: Mac, dumps: Params -> string)
      returns (result: Py<Envelope>, sleeps: seq<Sleep>, sent: seq<Sent>)
      ensures Final(result, sleeps, sent) == Dispatch(Creds(), mac, verb, requestPath, params, replies, stamp, dumps)
    {
      result, sleeps, sent := Request(verb, requestPath, params, replies, stamp, mac, dumps);
    }
  }
}
