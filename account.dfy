/** The parameter builders and reply checks of the account endpoints
    (async_okx_v5/account.py): which identifier wins when several are given, the limits
    on identifier lists, the keys added only under a condition, and what
    `adjust_margin` makes of the reply code. */
module Account {
  import opened Common
  import opened Exceptions
  import opened Signing
  import opened Endpoints

  /** At most 10 instrument ids and 20 position ids or currencies per query. */
  const MaxInstIds := 10
  const MaxPosIds := 20
  const MaxCurrencies := 20

  // ---------------------------------------------------------------- positions

  /** `get_positions(instType, instId, posId)`: a non-empty `instType` wins, then a truthy
      `instId` (a list of at most 10, comma-joined), then `posId` (a list of at most 20,
      comma-joined, or a string, even an empty one). The query has exactly one key. */
  function PositionsParams(instType: Option<string>, instId: Ids, posId: Ids): (r: Py<Params>)
    ensures r.Ok? ==> |r.value| == 1
    ensures instType.Some? && instType.value != "" ==> r == Ok([("instType", instType.value)])
    ensures !(instType.Some? && instType.value != "") && Truthy(instId) ==>
              (r.Ok? <==> JoinIds(instId, MaxInstIds).Ok?) &&
              (r.Ok? ==> r.value == [("instId", JoinIds(instId, MaxInstIds).value)]) &&
              (r.Err? ==> r.error == JoinIds(instId, MaxInstIds).error)
    ensures !(instType.Some? && instType.value != "") && !Truthy(instId) ==>
              (r.Ok? <==> JoinIds(posId, MaxPosIds).Ok?) &&
              (r.Ok? ==> r.value == [("posId", JoinIds(posId, MaxPosIds).value)]) &&
              (r.Err? ==> r.error == JoinIds(posId, MaxPosIds).error)
  {
    if instType.Some? && instType.value != "" then Ok([("instType", instType.value)])
    else if Truthy(instId) then
      var ids :- JoinIds(instId, MaxInstIds);
      Ok([("instId", ids)])
    else
      var ids :- JoinIds(posId, MaxPosIds);
      Ok([("posId", ids)])
  }

  /** The instrument ids of a position query come through the one `instId` value: split
      at the commas they are the list given, whatever `posId` holds; an eleventh id fails
      the assertion before any request is made. */
  lemma PositionsByInstIds(instId: seq<string>, posId: Ids)
    requires 0 < |instId| <= MaxInstIds
    requires forall i :: 0 <= i < |instId| ==> ',' !in instId[i]
    ensures var r := PositionsParams(None, Items(instId), posId);
            r.Ok? && Keys(r.value) == ["instId"] && Split(r.value[0].1, ',') == instId
    ensures forall extra: string :: PositionsParams(None, Items(instId + [extra]), posId).Ok? <==> |instId| < MaxInstIds
  {
    JoinIdsRoundTrip(instId, MaxInstIds);
  }

  /** With neither `instType` nor `instId`, `posId` left at `None` has no `len`: a
      TypeError, not an empty query. */
  lemma PositionsWithoutIds()
    ensures PositionsParams(None, NoValue, NoValue) == Err(TypeError)
    ensures PositionsParams(Some(""), Text(""), Text("")) == Ok([("posId", "")])
  {
  }

  /** `get_specific_position(instId, posId)`: `instId` if non-empty, else `posId`. */
  function SpecificPositionParams(instId: string, posId: string): (p: Params)
    ensures |p| == 1
    ensures Keys(p) == [if instId != "" then "instId" else "posId"]
    ensures Lookup(p, if instId != "" then "instId" else "posId") == Some(if instId != "" then instId else posId)
  {
    if instId != "" then [("instId", instId)] else [("posId", posId)]
  }

  /** `get_coin_balance(ccy)` sends `IdsParams("ccy", ccy, 20)`: twenty currencies are
      accepted and read back from the one value; a twenty-first is refused before any
      request. */
  lemma CoinBalanceLimit(ccy: seq<string>)
    requires |ccy| == MaxCurrencies
    requires forall i :: 0 <= i < |ccy| ==> ',' !in ccy[i]
    ensures IdsParams("ccy", Items(ccy), MaxCurrencies).Ok?
    ensures Split(IdsParams("ccy", Items(ccy), MaxCurrencies).value[0].1, ',') == ccy
    ensures forall extra: string :: IdsParams("ccy", Items(ccy + [extra]), MaxCurrencies) == Err(AssertionError(""))
  {
    JoinIdsRoundTrip(ccy, MaxCurrencies);
  }

  // ---------------------------------------------------------------- dicts built in place

  /** The key a trade-fee query is keyed on: `instId` if non-empty, else `uly` if
      non-empty, else `category`. */
  function FeeKey(instId: string, uly: string): string
  {
    if instId != "" then "instId" else if uly != "" then "uly" else "category"
  }

  /** `get_trade_fee(instType, instId, uly, category)`: the chosen identifier, then
      `params["instType"] = instType` added after it. */
  method TradeFeeParams(instType: string, instId: string, uly: string, category: string) returns (params: Params)
    ensures DistinctKeys(params)
    ensures Keys(params) == [FeeKey(instId, uly), "instType"]
    ensures Lookup(params, "instType") == Some(instType)
    ensures Lookup(params, FeeKey(instId, uly)) == Some(if instId != "" then instId else if uly != "" then uly else category)
  {
    if instId != "" {
      params := [("instId", instId)];
    } else if uly != "" {
      params := [("uly", uly)];
    } else {
      params := [("category", category)];
    }
    PutLookup(params, "instType", instType);
    params := Put(params, "instType", instType);
  }

  /** The query `set_leverage` sends: `lever` and `mgnMode`, then `instId` if non-empty
      else `ccy`, then `posSide` only when non-empty. */
  function LeverageQuery(lever: string, mgnMode: string, instId: string, ccy: string, posSide: string): Params
  {
    [("lever", lever), ("mgnMode", mgnMode), if instId != "" then ("instId", instId) else ("ccy", ccy)] +
    (if posSide != "" then [("posSide", posSide)] else [])
  }

  /** The keys of that query are distinct and come in this order. */
  lemma LeverageQueryKeys(lever: string, mgnMode: string, instId: string, ccy: string, posSide: string)
    ensures var q := LeverageQuery(lever, mgnMode, instId, ccy, posSide);
            DistinctKeys(q) &&
            Keys(q) == ["lever", "mgnMode", if instId != "" then "instId" else "ccy"] +
                       (if posSide != "" then ["posSide"] else [])
  {
    var ks := Keys(LeverageQuery(lever, mgnMode, instId, ccy, posSide));
    assert ks[..3] == ["lever", "mgnMode", if instId != "" then "instId" else "ccy"];
    assert ks == ks[..3] + ks[3..];
  }

  /** Each key sent reads back its argument; `posSide` is absent when empty. */
  lemma LeverageQueryLookups(lever: string, mgnMode: string, instId: string, ccy: string, posSide: string)
    ensures var q := LeverageQuery(lever, mgnMode, instId, ccy, posSide);
            Lookup(q, "lever") == Some(lever) && Lookup(q, "mgnMode") == Some(mgnMode) &&
            Lookup(q, if instId != "" then "instId" else "ccy") == Some(if instId != "" then instId else ccy) &&
            Lookup(q, "posSide") == (if posSide != "" then Some(posSide) else None)
  {
    var q := LeverageQuery(lever, mgnMode, instId, ccy, posSide);
    LeverageQueryKeys(lever, mgnMode, instId, ccy, posSide);
    LookupAt(q, 0);
    LookupAt(q, 1);
    LookupAt(q, 2);
    if posSide != "" { LookupAt(q, 3); } else { LookupMissing(q, "posSide"); }
  }

  /** `set_leverage(...)` builds that query in place, adding `posSide` under its guard. */
  method SetLeverageParams(lever: string, mgnMode: string, instId: string, ccy: string, posSide: string)
    returns (params: Params)
    ensures params == LeverageQuery(lever, mgnMode, instId, ccy, posSide)
  {
    if instId != "" {
      params := [("lever", lever), ("mgnMode", mgnMode), ("instId", instId)];
    } else {
      params := [("lever", lever), ("mgnMode", mgnMode), ("ccy", ccy)];
    }
    if posSide != "" {
      LookupMissing(params, "posSide");
      params := Put(params, "posSide", posSide);
    }
  }

  /** The query `get_max_size` sends: `instId` and `tdMode`, then `ccy`, `px` and
      `leverage` together when `ccy` is non-empty. */
  function MaxSizeQuery(instId: string, tdMode: string, ccy: string, px: string, leverage: string): Params
  {
    [("instId", instId), ("tdMode", tdMode)] +
    (if ccy != "" then [("ccy", ccy), ("px", px), ("leverage", leverage)] else [])
  }

  /** The keys of that query are distinct and come in this order. */
  lemma MaxSizeQueryKeys(instId: string, tdMode: string, ccy: string, px: string, leverage: string)
    ensures var q := MaxSizeQuery(instId, tdMode, ccy, px, leverage);
            DistinctKeys(q) &&
            Keys(q) == ["instId", "tdMode"] + (if ccy != "" then ["ccy", "px", "leverage"] else [])
  {
    var ks := Keys(MaxSizeQuery(instId, tdMode, ccy, px, leverage));
    assert ks[..2] == ["instId", "tdMode"];
    assert ks == ks[..2] + ks[2..];
  }

  /** All three conditional keys hang on `ccy`: `px` and `leverage` are sent (even empty)
      exactly when `ccy` is non-empty, and never without it; every key sent reads back
      its argument. */
  lemma MaxSizeQueryLookups(instId: string, tdMode: string, ccy: string, px: string, leverage: string)
    ensures var q := MaxSizeQuery(instId, tdMode, ccy, px, leverage);
            Lookup(q, "instId") == Some(instId) && Lookup(q, "tdMode") == Some(tdMode) &&
            (HasKey(q, "px") <==> ccy != "") && (HasKey(q, "leverage") <==> ccy != "") &&
            (ccy != "" ==> Lookup(q, "ccy") == Some(ccy) && Lookup(q, "px") == Some(px) &&
                           Lookup(q, "leverage") == Some(leverage))
  {
    var q := MaxSizeQuery(instId, tdMode, ccy, px, leverage);
    MaxSizeQueryKeys(instId, tdMode, ccy, px, leverage);
    LookupAt(q, 0);
    LookupAt(q, 1);
    if ccy != "" {
      LookupAt(q, 2);
      LookupAt(q, 3);
      LookupAt(q, 4);
    } else {
      LookupMissing(q, "px");
      LookupMissing(q, "leverage");
    }
  }

  /** `get_max_size(...)` builds that query in place: three `if ccy:` blocks, each adding
      one key. */
  method MaxSizeParams(instId: string, tdMode: string, ccy: string, px: string, leverage: string)
    returns (params: Params)
    ensures params == MaxSizeQuery(instId, tdMode, ccy, px, leverage)
  {
    params := [("instId", instId), ("tdMode", tdMode)];
    if ccy != "" {
      LookupMissing(params, "ccy");
      params := Put(params, "ccy", ccy);
    }
    if ccy != "" {
      LookupMissing(params, "px");
      params := Put(params, "px", px);
    }
    if ccy != "" {
      LookupMissing(params, "leverage");
      params := Put(params, "leverage", leverage);
    }
  }

  // ---------------------------------------------------------------- ledger

  const LedgerKeys := ["instType", "ccy", "mgnMode", "ctType", "type", "subType", "after", "before", "limit"]

  /** `get_ledger(...)` and `get_archive_ledger(...)`: all nine keys, in this order, whatever
      their values, empty ones included. */
  function LedgerParams(instType: string, ccy: string, mgnMode: string, ctType: string, billType: string,
                        subType: string, after: string, before: string, limit: string): (p: Params)
    ensures Keys(p) == LedgerKeys && DistinctKeys(p)
  {
    [("instType", instType), ("ccy", ccy), ("mgnMode", mgnMode), ("ctType", ctType), ("type", billType),
     ("subType", subType), ("after", after), ("before", before), ("limit", limit)]
  }

  /** The server reads all nine keys back from the query string, empty values included,
      as long as no value holds an '&'. */
  lemma LedgerQueryKeys(instType: string, ccy: string, mgnMode: string, ctType: string, billType: string,
                        subType: string, after: string, before: string, limit: string)
    requires forall v :: v in [instType, ccy, mgnMode, ctType, billType, subType, after, before, limit] ==> '&' !in v
    ensures var p := LedgerParams(instType, ccy, mgnMode, ctType, billType, subType, after, before, limit);
            ParseQuery(ParseParamsToStr(p)) == p && Keys(ParseQuery(ParseParamsToStr(p))) == LedgerKeys
  {
    var p := LedgerParams(instType, ccy, mgnMode, ctType, billType, subType, after, before, limit);
    var vs := [instType, ccy, mgnMode, ctType, billType, subType, after, before, limit];
    forall i | 0 <= i < |p| ensures QuerySafe(p[i]) {
      assert p[i].1 == vs[i];
      assert '=' !in LedgerKeys[i] && '&' !in LedgerKeys[i];
    }
    QueryRoundTrip(p);
  }

  // ---------------------------------------------------------------- margin

  /** `adjust_margin(...)`: True on code "0"; otherwise the warning it logs reads
      `res['msg']` and the call returns False. */
  function AdjustMarginReply(res: Envelope): (r: Py<bool>)
    ensures r == Ok(true) <==> res.code == Some("0")
    ensures r == Ok(false) <==> res.code.Some? && res.code != Some("0") && res.msg.Some?
    ensures r.Err? ==> r.error == KeyError("code") || r.error == KeyError("msg")
  {
    match res.code
    case None => Err(KeyError("code"))
    case Some(c) =>
      if c == "0" then Ok(true)
      else if res.msg.Some? then Ok(false)
      else Err(KeyError("msg"))
  }

  /** `adjust_margin` answers True exactly where the asserting wrappers pass, answers
      False where they would raise an AssertionError, and fails where they fail with a
      missing key. */
  lemma AdjustMarginMatchesCheck(path: string, res: Envelope)
    ensures AdjustMarginReply(res) == Ok(true) <==> CheckCode(path, res).None?
    ensures AdjustMarginReply(res) == Ok(false) <==> CheckCode(path, res).Some? && CheckCode(path, res).value.AssertionError?
    ensures AdjustMarginReply(res).Err? ==> CheckCode(path, res) == Some(AdjustMarginReply(res).error)
  {
  }
}
