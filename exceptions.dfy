/** The exchange's exception classes (async_okx_v5/exceptions.py) and, beside them, the
    Python exceptions the modelled core can raise, so that every operation can return a
    `Result` instead of raising. */
module Exceptions {
  import opened Common

  /** `OkexAPIException`: its fields are set once by the constructor. */
  datatype ApiException = ApiException(code: string, message: string, statusCode: int)

  /** `OkexRequestException` and `OkexParamsException` carry only a message. */
  datatype RequestException = RequestException(message: string)
  datatype ParamsException = ParamsException(message: string)

  /** Everything the modelled code raises. */
  datatype Raised =
    | OkexApi(api: ApiException)
    | OkexRequest(request: RequestException)
    | OkexParams(params: ParamsException)
    | AssertionError(message: string)
    | IndexError
    | KeyError(key: string)
    | TypeError
    | ValueError
    | ZeroDivisionError
    | UnboundLocalError(name: string)
    | PlainException(message: string)
    | ConnectionClosed
    | ConnectFailed
    | AttributeError(name: string)
    | BodyReadError(exception: string)

  type Py<T> = Result<T, Raised>

  const ApiPrefix := "API Request Error(error_code="
  const RequestPrefix := "OkexRequestException: "
  const ParamsPrefix := "OkexParamsException: "

  /** `OkexAPIException(status, json)`: code and message come from the envelope when it
      has a "code" key (reading "msg" then, which raises KeyError when absent), otherwise
      they are "None" and "System error"; the status is kept as given. */
  function NewApiException(status: int, json: Envelope): (r: Py<ApiException>)
    ensures r.Ok? ==> r.value.statusCode == status
    ensures json.code.Some? && json.msg.Some? ==>
              r == Ok(ApiException(json.code.value, json.msg.value, status))
    ensures json.code.Some? && json.msg.None? ==> r == Err(KeyError("msg"))
    ensures json.code.None? ==> r == Ok(ApiException("None", "System error", status))
  {
    match json.code
    case Some(code) =>
      (match json.msg
       case Some(msg) => Ok(ApiException(code, msg, status))
       case None => Err(KeyError("msg")))
    case None => Ok(ApiException("None", "System error", status))
  }

  /** `str(OkexAPIException)`. */
  function ApiText(e: ApiException): string
  {
    ApiPrefix + e.code + "): " + e.message
  }

  /** `str(OkexRequestException)`. */
  function RequestText(e: RequestException): string
  {
    RequestPrefix + e.message
  }

  /** `str(OkexParamsException)`. */
  function ParamsText(e: ParamsException): string
  {
    ParamsPrefix + e.message
  }

  /** Position of the first `c` in `s`, or |s| when there is none. */
  function FirstIndexOf(s: string, c: char): (k: nat)
    ensures k <= |s|
    ensures forall i :: 0 <= i < k ==> s[i] != c
    ensures k < |s| ==> s[k] == c
    decreases |s|
  {
    if |s| == 0 then 0 else if s[0] == c then 0 else 1 + FirstIndexOf(s[1..], c)
  }

  /** Reads the code and the message back out of an `OkexAPIException` text. */
  function ParseApiText(s: string): (r: Option<(string, string)>)
  {
    if !StartsWith(s, ApiPrefix) then None
    else
      var rest := s[|ApiPrefix|..];
      var k := FirstIndexOf(rest, ')');
      if k + 3 <= |rest| && rest[k..k + 3] == "): " then Some((rest[..k], rest[k + 3..]))
      else None
  }

  /** The text of an API error determines its code and message whenever the code has no
      closing parenthesis (exchange codes are digit strings). */
  lemma ApiTextRoundTrip(e: ApiException)
    requires ')' !in e.code
    ensures ParseApiText(ApiText(e)) == Some((e.code, e.message))
  {
    var s := ApiText(e);
    assert s[..|ApiPrefix|] == ApiPrefix;
    var rest := s[|ApiPrefix|..];
    assert rest == e.code + "): " + e.message;
    assert rest[..|e.code|] == e.code;
    assert rest[|e.code|] == ')';
    assert forall i :: 0 <= i < |e.code| ==> rest[i] == e.code[i];
  }

  /** The three string forms never coincide, so the text tells which class was raised. */
  lemma TextsDistinguishClasses(a: ApiException, q: RequestException, p: ParamsException)
    ensures ApiText(a) != RequestText(q) && ApiText(a) != ParamsText(p)
    ensures RequestText(q) != ParamsText(p)
    ensures ParseApiText(RequestText(q)) == None && ParseApiText(ParamsText(p)) == None
  {
    assert ApiText(a)[0] == 'A' && RequestText(q)[0] == 'O' && ParamsText(p)[0] == 'O';
    assert RequestText(q)[4] == 'R' && ParamsText(p)[4] == 'P';
  }
}
