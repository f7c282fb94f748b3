/** The request-string helpers of the REST client (async_okx_v5/utils.py and its copy
    src/okx/utils.py): the query string, the text that is signed, and the header set.
    The MAC itself (HMAC-SHA256, then base64) is the parameter `mac`. */
module Signing {
  import opened Common

  const ContentType := "Content-Type"
  const ApplicationJson := "application/json"
  const AccessKey := "OK-ACCESS-KEY"
  const AccessSign := "OK-ACCESS-SIGN"
  const AccessTimestamp := "OK-ACCESS-TIMESTAMP"
  const AccessPassphrase := "OK-ACCESS-PASSPHRASE"

  /** A keyed MAC over a message, as text: `sign(message, secret_key)`. */
  type Mac = (string, string) -> string

  function Pair(kv: (string, string)): string
  {
    kv.0 + "=" + kv.1
  }

  /** `parse_params_to_str`: "" for no parameters, else "?" and the `key=value` pairs in
      insertion order joined by "&", nothing escaped. */
  function ParseParamsToStr(params: Params): (q: string)
    ensures q == "" <==> params == []
    ensures params != [] ==> q[0] == '?'
  {
    if params == [] then ""
    else "?" + Join("&", seq(|params|, i requires 0 <= i < |params| => Pair(params[i])))
  }

  /** Splits `key=value` at its first '='. */
  function UnPair(s: string): (string, string)
  {
    var k := FirstEq(s);
    if k < |s| then (s[..k], s[k + 1..]) else (s, "")
  }

  function FirstEq(s: string): (k: nat)
    ensures k <= |s| && (forall i :: 0 <= i < k ==> s[i] != '=') && (k < |s| ==> s[k] == '=')
    decreases |s|
  {
    if |s| == 0 then 0 else if s[0] == '=' then 0 else 1 + FirstEq(s[1..])
  }

  /** How a server reads a query string back into pairs. */
  function ParseQuery(q: string): (p: Params)
  {
    if q == "" || q[0] != '?' then []
    else
      var parts := Split(q[1..], '&');
      seq(|parts|, i requires 0 <= i < |parts| => UnPair(parts[i]))
  }

  /** A pair survives the unescaped query string when its key has no '=' or '&' and its
      value has no '&'. */
  predicate QuerySafe(kv: (string, string))
  {
    '=' !in kv.0 && '&' !in kv.0 && '&' !in kv.1
  }

  lemma UnPairPair(kv: (string, string))
    requires '=' !in kv.0
    ensures UnPair(Pair(kv)) == kv
  {
    var s := Pair(kv);
    assert s[|kv.0|] == '=';
    assert forall i :: 0 <= i < |kv.0| ==> s[i] == kv.0[i];
    assert FirstEq(s) == |kv.0|;
    assert s[..|kv.0|] == kv.0 && s[|kv.0| + 1..] == kv.1;
  }

  /** The query string reads back to the same pairs, in the same order, whenever no key
      or value contains a character the format would need to escape. */
  lemma QueryRoundTrip(params: Params)
    requires forall i :: 0 <= i < |params| ==> QuerySafe(params[i])
    ensures ParseQuery(ParseParamsToStr(params)) == params
  {
    if params != [] {
      var pairs := seq(|params|, i requires 0 <= i < |params| => Pair(params[i]));
      forall i | 0 <= i < |pairs| ensures '&' !in pairs[i] {
        assert pairs[i] == params[i].0 + "=" + params[i].1;
      }
      SplitJoin(pairs, '&');
      var q := ParseParamsToStr(params);
      assert q[1..] == Join("&", pairs);
      forall i | 0 <= i < |params| ensures UnPair(pairs[i]) == params[i] {
        UnPairPair(params[i]);
      }
    }
  }

  /** Nothing is escaped: a value holding "&" reads back as two parameters. */
  lemma QueryNotEscaped()
    ensures ParseQuery(ParseParamsToStr([("a", "1&b=2")])) == [("a", "1"), ("b", "2")]
  {
    var two := [("a", "1"), ("b", "2")];
    assert ParseParamsToStr([("a", "1&b=2")]) == "?a=1&b=2";
    var pairs := seq(|two|, i requires 0 <= i < |two| => Pair(two[i]));
    assert pairs[0] == Pair(("a", "1")) == "a=1";
    assert pairs[1] == Pair(("b", "2")) == "b=2";
    assert pairs == ["a=1", "b=2"];
    assert pairs[1..] == ["b=2"];
    assert Join("&", pairs) == "a=1" + "&" + "b=2";
    assert ParseParamsToStr(two) == "?a=1&b=2";
    assert QuerySafe(two[0]) && QuerySafe(two[1]);
    QueryRoundTrip(two);
  }

  /** `pre_hash`: the text that is signed for a REST call. */
  function PreHash(timestamp: string, verb: string, requestPath: string, body: string): string
  {
    timestamp + Upper(verb) + requestPath + body
  }

  /** The body text `signature` signs: `str(body)` with "{}" and "None" read as empty. */
  function SignedBody(body: string): (b: string)
    ensures body != "{}" && body != "None" ==> b == body
    ensures body == "{}" || body == "None" ==> b == ""
  {
    if body == "{}" || body == "None" then "" else body
  }

  /** The message part of `signature`. */
  function SignatureMessage(timestamp: string, verb: string, requestPath: string, body: string): string
  {
    timestamp + Upper(verb) + requestPath + SignedBody(body)
  }

  /** `signature(timestamp, verb, request_path, body, secret_key)`. */
  function Signature(mac: Mac, timestamp: string, verb: string, requestPath: string, body: string,
                     secretKey: string): (sign: string)
    ensures sign == mac(secretKey, PreHash(timestamp, verb, requestPath, SignedBody(body)))
  {
    SignatureAgreesWithPreHash(timestamp, verb, requestPath, body);
    mac(secretKey, SignatureMessage(timestamp, verb, requestPath, body))
  }

  /** `signature` signs what `pre_hash` builds, except that an empty-dict or None body is
      signed as the empty body. */
  lemma SignatureAgreesWithPreHash(timestamp: string, verb: string, requestPath: string, body: string)
    ensures SignatureMessage(timestamp, verb, requestPath, body)
            == PreHash(timestamp, verb, requestPath, SignedBody(body))
    ensures body != "{}" && body != "None" ==>
              SignatureMessage(timestamp, verb, requestPath, body) == PreHash(timestamp, verb, requestPath, body)
    ensures SignatureMessage(timestamp, verb, requestPath, "{}") == PreHash(timestamp, verb, requestPath, "")
  {
  }

  lemma UpperIdempotent(s: string)
    ensures Upper(Upper(s)) == Upper(s)
  {
    assert forall i :: 0 <= i < |s| ==> UpperChar(UpperChar(s[i])) == UpperChar(s[i]);
  }

  /** The method's case does not change the signed text: "get" and "GET" sign alike. */
  lemma PreHashIgnoresMethodCase(timestamp: string, verb: string, requestPath: string, body: string)
    ensures PreHash(timestamp, Upper(verb), requestPath, body) == PreHash(timestamp, verb, requestPath, body)
  {
    UpperIdempotent(verb);
  }

  /** Two signed texts with the same timestamp, method and path differ exactly when
      their bodies differ. */
  lemma PreHashSeparatesBodies(timestamp: string, verb: string, requestPath: string, b1: string, b2: string)
    ensures PreHash(timestamp, verb, requestPath, b1) == PreHash(timestamp, verb, requestPath, b2) <==> b1 == b2
  {
    var pre := timestamp + Upper(verb) + requestPath;
    if PreHash(timestamp, verb, requestPath, b1) == PreHash(timestamp, verb, requestPath, b2) {
      assert (pre + b1)[|pre|..] == b1 && (pre + b2)[|pre|..] == b2;
    }
  }

  /** `get_header`: the five headers of a signed REST request. */
  function GetHeader(apiKey: string, headerSign: string, timestamp: string, passphrase: string)
    : map<string, string>
  {
    map[ContentType := ApplicationJson, AccessKey := apiKey, AccessSign := headerSign,
        AccessTimestamp := timestamp, AccessPassphrase := passphrase]
  }

  /** `get_header` returns exactly five entries, the timestamp among them as given. */
  lemma GetHeaderShape(apiKey: string, headerSign: string, timestamp: string, passphrase: string)
    ensures var h := GetHeader(apiKey, headerSign, timestamp, passphrase);
            |h| == 5 &&
            h.Keys == {ContentType, AccessKey, AccessSign, AccessTimestamp, AccessPassphrase} &&
            h[ContentType] == ApplicationJson && h[AccessKey] == apiKey && h[AccessSign] == headerSign &&
            h[AccessTimestamp] == timestamp && h[AccessPassphrase] == passphrase
  {
    var h := GetHeader(apiKey, headerSign, timestamp, passphrase);
    assert h.Keys == {ContentType, AccessKey, AccessSign, AccessTimestamp, AccessPassphrase};
  }

  /** What the exchange checks: the header's signature is the MAC of the text built from
      the header's own timestamp and the request. */
  predicate Verifies(mac: Mac, secretKey: string, header: map<string, string>,
                     verb: string, requestPath: string, body: string)
  {
    AccessTimestamp in header && AccessSign in header &&
    header[AccessSign] == mac(secretKey, PreHash(header[AccessTimestamp], verb, requestPath, body))
  }

  /** Headers built from `sign(pre_hash(...))` verify against the same request, and
      carry the caller's key and passphrase. */
  lemma SignedHeaderVerifies(mac: Mac, apiKey: string, secretKey: string, passphrase: string,
                             timestamp: string, verb: string, requestPath: string, body: string)
    ensures var h := GetHeader(apiKey, mac(secretKey, PreHash(timestamp, verb, requestPath, body)),
                               timestamp, passphrase);
            Verifies(mac, secretKey, h, verb, requestPath, body) &&
            h[AccessKey] == apiKey && h[AccessPassphrase] == passphrase && h[ContentType] == ApplicationJson
  {
  }
}
