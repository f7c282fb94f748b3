/** The funding-account endpoints (async_okx_v5/asset.py): the currency-list check of
    `get_balance`, and `transfer` with its parameters built in place, its limiter per
    currency and its own reply handling, which raises a plain `Exception`. */
module Asset {
  import opened Common
  import opened Exceptions
  import opened Signing
  import opened Limiter
  import opened Dispatch
  import opened Endpoints

  const AssetBalancePath := "/api/v5/asset/balances"
  const AssetTransferPath := "/api/v5/asset/transfer"
  const MaxCurrencies := 20

  /** `get_balance(ccy)`: the currency list is checked and joined before anything is
      sent; the request is then made once and its reply asserted and read at `data[0]`. */
  method GetBalance(client: Client, ccy: Ids, replies: nat -> Reply, stamp: nat -> string, mac: Mac,
                    dumps: Params -> string)
    returns (res: Py<Record>, sent: seq<Sent>)
    ensures IdsParams("ccy", ccy, MaxCurrencies).Err? ==>
              res == Err(IdsParams("ccy", ccy, MaxCurrencies).error) && sent == []
    ensures IdsParams("ccy", ccy, MaxCurrencies).Ok? ==>
              var f := Dispatch.Dispatch(client.Creds(), mac, Get, AssetBalancePath,
                                         IdsParams("ccy", ccy, MaxCurrencies).value, replies, stamp, dumps);
              sent == f.sent && res == Then(f.result, env => First(AssetBalancePath, env))
  {
    var params := IdsParams("ccy", ccy, MaxCurrencies);
    if params.Err? {
      res := Err(params.error);
      sent := [];
      return;
    }
    var result, sleeps;
    result, sleeps, sent := client.RequestWithParams(Get, AssetBalancePath, params.value, replies, stamp, mac, dumps);
    res := Then(result, env => First(AssetBalancePath, env));
  }

  /** A string currency is sent as given, with no length check; a list is joined and
      reads back from the one value. */
  lemma BalanceCurrencies(text: string, ccy: seq<string>)
    requires 0 < |ccy| <= MaxCurrencies
    requires forall i :: 0 <= i < |ccy| ==> ',' !in ccy[i]
    ensures IdsParams("ccy", Text(text), MaxCurrencies) == Ok([("ccy", text)])
    ensures IdsParams("ccy", Items(ccy), MaxCurrencies).Ok?
    ensures Split(IdsParams("ccy", Items(ccy), MaxCurrencies).value[0].1, ',') == ccy
  {
    JoinIdsRoundTrip(ccy, MaxCurrencies);
  }

  /** The query `transfer` sends: the four fixed keys, then `instId` and `toInstId`,
      each only when non-empty. */
  function TransferQuery(ccy: string, amt: string, accountFrom: string, accountTo: string,
                         instId: string, toInstId: string): Params
  {
    [("ccy", ccy), ("amt", amt), ("from", accountFrom), ("to", accountTo)] +
    (if instId != "" then [("instId", instId)] else []) +
    (if toInstId != "" then [("toInstId", toInstId)] else [])
  }

  /** The keys of that query are distinct and come in this order. */
  lemma TransferQueryKeys(ccy: string, amt: string, accountFrom: string, accountTo: string,
                          instId: string, toInstId: string)
    ensures var q := TransferQuery(ccy, amt, accountFrom, accountTo, instId, toInstId);
            DistinctKeys(q) &&
            Keys(q) == ["ccy", "amt", "from", "to"] + (if instId != "" then ["instId"] else []) +
                       (if toInstId != "" then ["toInstId"] else [])
  {
    var q := TransferQuery(ccy, amt, accountFrom, accountTo, instId, toInstId);
    var ks := Keys(q);
    assert ks[..4] == ["ccy", "amt", "from", "to"];
    assert ks == ks[..4] + ks[4..];
  }

  /** Each fixed key reads back its argument; `instId` and `toInstId` read back theirs
      when non-empty and are absent otherwise. */
  lemma TransferQueryLookups(ccy: string, amt: string, accountFrom: string, accountTo: string,
                             instId: string, toInstId: string)
    ensures var q := TransferQuery(ccy, amt, accountFrom, accountTo, instId, toInstId);
            Lookup(q, "ccy") == Some(ccy) && Lookup(q, "amt") == Some(amt) &&
            Lookup(q, "from") == Some(accountFrom) && Lookup(q, "to") == Some(accountTo) &&
            Lookup(q, "instId") == (if instId != "" then Some(instId) else None) &&
            Lookup(q, "toInstId") == (if toInstId != "" then Some(toInstId) else None)
  {
    var q := TransferQuery(ccy, amt, accountFrom, accountTo, instId, toInstId);
    TransferQueryKeys(ccy, amt, accountFrom, accountTo, instId, toInstId);
    LookupAt(q, 0);
    LookupAt(q, 1);
    LookupAt(q, 2);
    LookupAt(q, 3);
    if instId != "" { LookupAt(q, 4); } else { LookupMissing(q, "instId"); }
    if toInstId != "" { LookupAt(q, |q| - 1); } else { LookupMissing(q, "toInstId"); }
  }

  /** `transfer(...)` builds its query in place: the four fixed keys, then
      `params["instId"] = instId` and `params["toInstId"] = toInstId` under their guards. */
  method TransferParams(ccy: string, amt: string, accountFrom: string, accountTo: string,
                        instId: string, toInstId: string)
    returns (params: Params)
    ensures params == TransferQuery(ccy, amt, accountFrom, accountTo, instId, toInstId)
  {
    params := [("ccy", ccy), ("amt", amt), ("from", accountFrom), ("to", accountTo)];
    if instId != "" {
      LookupMissing(params, "instId");
      params := Put(params, "instId", instId);
    }
    if toInstId != "" {
      LookupMissing(params, "toInstId");
      params := Put(params, "toInstId", toInstId);
    }
  }

  /** The reply handling of `transfer`: `data[0]` on code "0"; on any other code the
      logged warning reads `msg`, and an `Exception` carrying the path and `msg` is raised. */
  function TransferReply(res: Envelope): (r: Py<Record>)
    ensures r.Ok? <==> res.code == Some("0") && res.data.Some? && |res.data.value| > 0
    ensures r.Ok? ==> r.value == res.data.value[0]
    ensures res.code.None? ==> r == Err(KeyError("code"))
    ensures res.code.Some? && res.code != Some("0") ==>
              r == Err(if res.msg.Some? then PlainException(AssertText(AssetTransferPath, res.msg.value)) else KeyError("msg"))
  {
    match res.code
    case None => Err(KeyError("code"))
    case Some(c) =>
      if c == "0" then
        if res.data.None? then Err(KeyError("data"))
        else if |res.data.value| == 0 then Err(IndexError)
        else Ok(res.data.value[0])
      else if res.msg.Some? then Err(PlainException(AssertText(AssetTransferPath, res.msg.value)))
      else Err(KeyError("msg"))
  }

  /** `transfer` reads a reply as the asserting wrappers do, except that a refused code
      raises a plain `Exception` where they raise an AssertionError with the same text. */
  lemma TransferReplyVsAssert(res: Envelope)
    ensures res.code == Some("0") ==> TransferReply(res) == First(AssetTransferPath, res)
    ensures CheckCode(AssetTransferPath, res).Some? && CheckCode(AssetTransferPath, res).value.AssertionError? ==>
              TransferReply(res) == Err(PlainException(CheckCode(AssetTransferPath, res).value.message))
    ensures CheckCode(AssetTransferPath, res).Some? && !CheckCode(AssetTransferPath, res).value.AssertionError? ==>
              TransferReply(res) == Err(CheckCode(AssetTransferPath, res).value)
  {
  }

  /** `transfer(...)` entered at `now` and left at `done`: under `async with D[ccy]` for the
      class dictionary `D` of `RateLimiter(1, 1)`s, one POST of the transfer parameters,
      then the reply handling. */
  method Transfer(reg: Registry, client: Client, ccy: string, amt: string, accountFrom: string, accountTo: string,
                  instId: string, toInstId: string, now: real, done: real,
                  replies: nat -> Reply, stamp: nat -> string, mac: Mac, dumps: Params -> string)
    returns (admission: Admission, res: Option<Py<Record>>, params: Params)
    requires reg.Valid() && reg.concurrency == 1 && reg.interval == 1
    modifies reg, reg.limiters.Values
    ensures Throttled(reg, ccy, now, done, admission)
    ensures params == TransferQuery(ccy, amt, accountFrom, accountTo, instId, toInstId)
    ensures Keys(params) == ["ccy", "amt", "from", "to"] + (if instId != "" then ["instId"] else []) +
                            (if toInstId != "" then ["toInstId"] else [])
    ensures admission.Wait? <==> res.None?
    ensures res.Some? ==>
              res.value == Then(Dispatch.Dispatch(client.Creds(), mac, Post, AssetTransferPath, params,
                                                  replies, stamp, dumps).result, TransferReply)
  {
    params := TransferParams(ccy, amt, accountFrom, accountTo, instId, toInstId);
    TransferQueryKeys(ccy, amt, accountFrom, accountTo, instId, toInstId);
    var final;
    admission, final := ThrottledRequest(reg, ccy, now, done, client, Post, AssetTransferPath, params,
                                         replies, stamp, mac, dumps);
    res := if final.None? then None else Some(Then(final.value.result, TransferReply));
  }
}
