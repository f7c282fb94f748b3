/** What the REST endpoint wrappers share: the identifier arguments that may be one
    string or a list of strings, the handling of the envelope a request returns
    (`assert res["code"] == "0", ...` followed by `res["data"]` or `res["data"][0]`), and
    a request made inside `async with D[key]` for a per-key limiter dictionary `D`. */
module Endpoints {
  import opened Common
  import opened Exceptions
  import opened Signing
  import opened Limiter
  import opened Dispatch

  /** An argument that the caller may pass as one comma-separated string, as a list of
      strings, or leave at its default `None`. */
  datatype Ids = NoValue | Text(s: string) | Items(items: seq<string>)

  /** Python truthiness of such an argument. */
  predicate Truthy(ids: Ids)
  {
    match ids
    case NoValue => false
    case Text(s) => s != ""
    case Items(xs) => xs != []
  }

  /** `if not type(ids) is str: assert len(ids) <= limit; ids = ",".join(ids)`: a string
      passes unchanged, a list of at most `limit` items is comma-joined, a longer list
      fails the bare assertion and `None` has no `len`. */
  function JoinIds(ids: Ids, limit: nat): (r: Py<string>)
    ensures ids.Text? ==> r == Ok(ids.s)
    ensures ids.NoValue? ==> r == Err(TypeError)
    ensures ids.Items? ==> (r.Ok? <==> |ids.items| <= limit)
    ensures ids.Items? && |ids.items| > limit ==> r == Err(AssertionError(""))
  {
    match ids
    case NoValue => Err(TypeError)
    case Text(s) => Ok(s)
    case Items(xs) => if |xs| <= limit then Ok(Join(",", xs)) else Err(AssertionError(""))
  }

  /** The joined text carries the items: splitting it at the commas gives the list back,
      provided no item holds a comma itself. */
  lemma JoinIdsRoundTrip(xs: seq<string>, limit: nat)
    requires 0 < |xs| <= limit
    requires forall i :: 0 <= i < |xs| ==> ',' !in xs[i]
    ensures JoinIds(Items(xs), limit).Ok?
    ensures Split(JoinIds(Items(xs), limit).value, ',') == xs
  {
    SplitJoin(xs, ',');
  }

  /** `ids` prepared as above and sent as the query's only key: `dict(key=ids)`. */
  function IdsParams(key: string, ids: Ids, limit: nat): (r: Py<Params>)
    ensures r.Ok? <==> JoinIds(ids, limit).Ok?
    ensures r.Ok? ==> Keys(r.value) == [key] && Lookup(r.value, key) == Some(JoinIds(ids, limit).value)
    ensures r.Err? ==> r.error == JoinIds(ids, limit).error
  {
    var s :- JoinIds(ids, limit);
    Ok([(key, s)])
  }

  /** The message of a failed `assert res["code"] == "0", f"{path}, msg={res['msg']}"`. */
  function AssertText(path: string, msg: string): (t: string)
  {
    path + ", msg=" + msg
  }

  /** The message names the endpoint first and carries the reply's `msg` at a fixed place
      after it, so both can be read back. */
  lemma AssertTextParts(path: string, msg: string)
    ensures StartsWith(AssertText(path, msg), path)
    ensures AssertText(path, msg)[|path| + 6..] == msg
    ensures forall p2, m2 :: |p2| == |path| && AssertText(p2, m2) == AssertText(path, msg) ==> p2 == path && m2 == msg
  {
    var t := AssertText(path, msg);
    assert t[..|path|] == path;
    forall p2, m2 | |p2| == |path| && AssertText(p2, m2) == t
      ensures p2 == path && m2 == msg
    {
      assert AssertText(p2, m2)[..|p2|] == p2;
      assert AssertText(p2, m2)[|p2| + 6..] == m2;
    }
  }

  /** `assert res["code"] == "0", f"{path}, msg={res['msg']}"`. The code is read first;
      the message, and with it `res['msg']`, only when the assertion fails. None: it holds. */
  function CheckCode(path: string, res: Envelope): (r: Option<Raised>)
    ensures r == None <==> res.code == Some("0")
    ensures res.code.None? ==> r == Some(KeyError("code"))
    ensures res.code.Some? && res.code != Some("0") ==>
              r == Some(if res.msg.None? then KeyError("msg") else AssertionError(AssertText(path, res.msg.value)))
  {
    match res.code
    case None => Some(KeyError("code"))
    case Some(c) =>
      if c == "0" then None
      else match res.msg
        case None => Some(KeyError("msg"))
        case Some(m) => Some(AssertionError(AssertText(path, m)))
  }

  /** `assert ...; return res["data"]`. */
  function Data(path: string, res: Envelope): (r: Py<seq<Record>>)
    ensures r.Ok? <==> res.code == Some("0") && res.data.Some?
    ensures r.Ok? ==> r.value == res.data.value
    ensures res.code != Some("0") ==> r == Err(CheckCode(path, res).value)
  {
    match CheckCode(path, res)
    case Some(e) => Err(e)
    case None => if res.data.None? then Err(KeyError("data")) else Ok(res.data.value)
  }

  /** `assert ...; return res["data"][0]`. */
  function First(path: string, res: Envelope): (r: Py<Record>)
    ensures r.Ok? <==> res.code == Some("0") && res.data.Some? && |res.data.value| > 0
    ensures r.Ok? ==> r.value == res.data.value[0]
  {
    var data :- Data(path, res);
    if |data| == 0 then Err(IndexError) else Ok(data[0])
  }

  /** `res["data"][0]` fails exactly where `res["data"]` fails, or with IndexError on an
      empty list; otherwise it is the head of that list. */
  lemma FirstOfData(path: string, res: Envelope)
    ensures Data(path, res).Err? ==> First(path, res) == Err(Data(path, res).error)
    ensures Data(path, res).Ok? && Data(path, res).value == [] ==> First(path, res) == Err(IndexError)
    ensures Data(path, res).Ok? && Data(path, res).value != [] ==> First(path, res) == Ok(Data(path, res).value[0])
  {
  }

  /** An exception raised by the request propagates; otherwise `handle` reads the reply. */
  function Then<T>(res: Py<Envelope>, handle: Envelope -> Py<T>): (r: Py<T>)
    ensures res.Err? ==> r == Err(res.error)
    ensures res.Ok? ==> r == handle(res.value)
  {
    match res
    case Err(e) => Err(e)
    case Ok(env) => handle(env)
  }

  /** How `async with D[key]`, entered at `now` and left at `done`, changes the limiter
      dictionary `D`: an entry is added only for a new key and never replaced, the key's
      limiter is acquired (and, once granted, released), and no other limiter changes. */
  twostate predicate Throttled(reg: Registry, key: string, now: real, done: real, admission: Admission)
    requires old(reg.Valid())
    reads reg, reg.limiters.Values
  {
    reg.Valid() && key in reg.limiters &&
    (key in old(reg.limiters) ==> reg.limiters == old(reg.limiters)) &&
    (key !in old(reg.limiters) ==> fresh(reg.limiters[key]) && reg.limiters == old(reg.limiters)[key := reg.limiters[key]]) &&
    (forall k :: k in old(reg.limiters) && k != key ==> reg.limiters[k].State() == old(reg.limiters[k].State())) &&
    var before := if key in old(reg.limiters) then old(reg.limiters[key].State()) else Initial(reg.concurrency, reg.interval);
    var step := AcquireStep(before, now);
    admission == step.0 &&
    reg.limiters[key].State() == (if step.0.Wait? then step.1 else ReleaseStep(step.1, done))
  }

  /** `async with D[key]: res = await client._request_with_params(verb, path, params)`:
      once the limiter admits the call, the request runs as `Dispatch` says, and the
      permit is given back at `done`. A call the semaphore holds back sends nothing. */
  method ThrottledRequest(reg: Registry, key: string, now: real, done: real, client: Client,
                          verb: string, path: string, params: Params,
                          replies: nat -> Reply, stamp: nat -> string, mac: Mac, dumps: Params -> string)
    returns (admission: Admission, res: Option<Final>)
    requires reg.Valid()
    modifies reg, reg.limiters.Values
    ensures Throttled(reg, key, now, done, admission)
    ensures admission.Wait? <==> res.None?
    ensures res.Some? ==> res.value == Dispatch.Dispatch(client.Creds(), mac, verb, path, params, replies, stamp, dumps)
  {
    admission := reg.AcquireFor(key, now);
    if admission.Wait? {
      res := None;
    } else {
      var result, sleeps, sent := client.RequestWithParams(verb, path, params, replies, stamp, mac, dumps);
      res := Some(Final(result, sleeps, sent));
      reg.ReleaseFor(key, done);
    }
  }
}
