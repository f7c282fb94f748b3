/** The public endpoints with logic of their own (async_okx_v5/public.py): the bar
    arithmetic of `get_candles_for_days`, the pagination arguments of the candle and
    funding-rate downloads, and the instrument queries with their limiter per
    instrument type and their `51001` check. */
module PublicApi {
  import opened Common
  import opened Exceptions
  import opened Signing
  import opened Limiter
  import opened Pagination
  import opened Dispatch
  import opened Endpoints

  const InstrumentsPath := "/api/v5/public/instruments"
  /** The reply code for an instrument that does not exist. */
  const NoSuchInstrument := "51001"

  /** The pagination arguments of `get_funding_history`: one page per 100 rates, eight
      hours between two rates, 270 rates (three months) by default. */
  const FundingPageSize := 100
  const FundingInterval := 28800000
  const FundingDefaultCount := 270

  // ---------------------------------------------------------------- bar arithmetic

  /** Python's `a // b`: the quotient rounded toward minus infinity. */
  function FloorDiv(a: int, b: int): (q: int)
    requires b != 0
    ensures b > 0 ==> q * b <= a < q * b + b
    ensures b < 0 ==> q * b >= a > q * b + b
    ensures b > 0 && a >= 0 ==> q >= 0
  {
    if b > 0 then a / b else (-a) / (-b)
  }

  /** `bar.endswith(u)` for a one-letter unit. */
  predicate EndsWith(bar: string, u: char)
  {
    |bar| > 0 && bar[|bar| - 1] == u
  }

  /** `int(bar[:-1])`: the multiple in front of the unit letter. */
  function BarMultiple(bar: string): (r: Py<int>)
    requires |bar| > 0
    ensures r.Err? ==> r.error == ValueError
  {
    match ParseInt(bar[..|bar| - 1])
    case None => Err(ValueError)
    case Some(n) => Ok(n)
  }

  /** The candle count and the cursor step in milliseconds that `get_candles_for_days`
      derives from the bar: one candle per bar in `days` days plus the current one.
      Month bars and anything not ending in m, H, D, W or M (a year bar, or a UTC bar such
      as `1Dutc`) leave the step at 0. */
  function BarCount(days: int, bar: string): (r: Py<(int, int)>)
    // only a bar ending in m, H, D, W or M can fail: ValueError exactly when the multiple
    // is not an integer, ZeroDivisionError exactly when it is 0 and divides
    ensures r.Err? ==> |bar| > 0 && bar[|bar| - 1] in "mHDWM" &&
                       (r.error == ValueError <==> ParseInt(bar[..|bar| - 1]).None?) &&
                       (r.error == ZeroDivisionError <==> ParseInt(bar[..|bar| - 1]) == Some(0))
    // with days >= 0 and a positive multiple, at least the current candle and a step >= 0
    ensures r.Ok? && days >= 0 && (|bar| == 0 || ParseInt(bar[..|bar| - 1]).None? || ParseInt(bar[..|bar| - 1]).value > 0) ==>
              r.value.0 >= 1 && r.value.1 >= 0
    // month bars and bars with any other ending leave the step at 0
    ensures r.Ok? && !(|bar| > 0 && bar[|bar| - 1] in "mHDW") ==> r.value.1 == 0
  {
    if EndsWith(bar, 'm') then
      var n :- BarMultiple(bar);
      if n == 0 then Err(ZeroDivisionError) else Ok((FloorDiv(days * 1440, n) + 1, n * 60000))
    else if EndsWith(bar, 'H') then
      var n :- BarMultiple(bar);
      if n == 0 then Err(ZeroDivisionError) else Ok((FloorDiv(days * 24, n) + 1, n * 3600000))
    else if EndsWith(bar, 'D') then
      var n :- BarMultiple(bar);
      Ok((days + 1, n * 86400000))
    else if EndsWith(bar, 'W') then
      var n :- BarMultiple(bar);
      Ok((FloorDiv(days, 7) + 1, n * 604800000))
    else if EndsWith(bar, 'M') then
      var n :- BarMultiple(bar);
      if n == 0 then Err(ZeroDivisionError) else Ok((FloorDiv(days, 30 * n) + 1, 0))
    else
      Ok((FloorDiv(days, 365) + 1, 0))
  }

  /** The two candle endpoints: `get_candles` (recent) and `history_candles`. */
  datatype CandleEndpoint = GetCandles | HistoryCandles

  /** The `query_with_pagination` call `get_candles_for_days` makes. */
  datatype CandlePlan = CandlePlan(endpoint: CandleEndpoint, pageSize: int, count: int, interval: int)

  /** `get_candles_for_days(instId, days, bar)` up to its pagination call. More than 1440
      candles go to the history endpoint in pages of 100, the rest to the recent one in
      pages of 300. */
  function CandlePlanFor(days: int, bar: string): (r: Py<CandlePlan>)
    ensures r.Err? <==> BarCount(days, bar).Err?
    ensures r.Err? ==> r.error == BarCount(days, bar).error
    ensures r.Ok? ==> r.value.count == BarCount(days, bar).value.0 && r.value.interval == BarCount(days, bar).value.1
    ensures r.Ok? ==> (r.value.endpoint == HistoryCandles <==> r.value.count > 1440)
    ensures r.Ok? ==> r.value.pageSize == (if r.value.count > 1440 then 100 else 300)
  {
    var (count, interval) :- BarCount(days, bar);
    Ok(if count > 1440 then CandlePlan(HistoryCandles, 100, count, interval)
       else CandlePlan(GetCandles, 300, count, interval))
  }

  /** The bar written `str(n) + u` ends in `u` and reads back `n` as its multiple. */
  lemma BarOf(n: int, u: char)
    ensures EndsWith(IntToStr(n) + [u], u)
    ensures BarMultiple(IntToStr(n) + [u]) == Ok(n)
  {
    var bar := IntToStr(n) + [u];
    assert bar[..|bar| - 1] == IntToStr(n);
    ParseIntOfIntToStr(n);
  }

  /** `nm`: `days * 1440 // n + 1` candles, `n` minutes apart. */
  lemma MinuteBars(days: int, n: int)
    requires n != 0
    ensures BarCount(days, IntToStr(n) + "m") == Ok((FloorDiv(days * 1440, n) + 1, n * 60000))
  {
    BarOf(n, 'm');
  }

  /** `nH`: `days * 24 // n + 1` candles, `n` hours apart. */
  lemma HourBars(days: int, n: int)
    requires n != 0
    ensures BarCount(days, IntToStr(n) + "H") == Ok((FloorDiv(days * 24, n) + 1, n * 3600000))
  {
    BarOf(n, 'H');
  }

  /** `nD`: `days + 1` candles whatever `n` is, `n` days apart. */
  lemma DayBars(days: int, n: int)
    ensures BarCount(days, IntToStr(n) + "D") == Ok((days + 1, n * 86400000))
  {
    BarOf(n, 'D');
  }

  /** `nW`: `days // 7 + 1` candles whatever `n` is, `n` weeks apart. */
  lemma WeekBars(days: int, n: int)
    ensures BarCount(days, IntToStr(n) + "W") == Ok((FloorDiv(days, 7) + 1, n * 604800000))
  {
    BarOf(n, 'W');
  }

  /** `nM`: `days // (30 n) + 1` candles, and no cursor step, so the download walks the
      cursor page by page. */
  lemma MonthBars(days: int, n: int)
    requires n != 0
    ensures BarCount(days, IntToStr(n) + "M") == Ok((FloorDiv(days, 30 * n) + 1, 0))
  {
    BarOf(n, 'M');
  }

  /** Any other bar (`1Y`, `1Dutc`, ...): `days // 365 + 1` candles and no cursor step. */
  lemma OtherBars(days: int, bar: string)
    requires !EndsWith(bar, 'm') && !EndsWith(bar, 'H') && !EndsWith(bar, 'D')
    requires !EndsWith(bar, 'W') && !EndsWith(bar, 'M')
    ensures BarCount(days, bar) == Ok((FloorDiv(days, 365) + 1, 0))
    ensures CandlePlanFor(days, bar).Ok? && CandlePlanFor(days, bar).value.interval == 0
  {
  }

  /** A zero multiple divides by zero for minute, hour and month bars; a day or week bar
      of multiple 0 goes through with a step of 0. */
  lemma ZeroMultiple(days: int)
    ensures BarCount(days, "0m") == Err(ZeroDivisionError)
    ensures BarCount(days, "0H") == Err(ZeroDivisionError)
    ensures BarCount(days, "0M") == Err(ZeroDivisionError)
    ensures BarCount(days, "0D") == Ok((days + 1, 0))
    ensures BarCount(days, "0W") == Ok((FloorDiv(days, 7) + 1, 0))
  {
    BarOf(0, 'm');
    BarOf(0, 'H');
    BarOf(0, 'M');
    BarOf(0, 'D');
    BarOf(0, 'W');
  }

  /** A bar whose unit is known but whose multiple is not a number raises ValueError. */
  lemma MalformedMultiple(days: int, bar: string)
    requires EndsWith(bar, 'm') || EndsWith(bar, 'H') || EndsWith(bar, 'D') || EndsWith(bar, 'W') || EndsWith(bar, 'M')
    requires ParseInt(bar[..|bar| - 1]).None?
    ensures BarCount(days, bar) == Err(ValueError)
    ensures CandlePlanFor(days, bar) == Err(ValueError)
  {
  }

  /** A day of one-minute bars is 1441 candles, one more than the recent endpoint serves,
      so it goes to the history endpoint; 239 days of four-hour bars stay on the recent one. */
  lemma EndpointChoice()
    ensures CandlePlanFor(1, "1m") == Ok(CandlePlan(HistoryCandles, 100, 1441, 60000))
    ensures CandlePlanFor(239, "4H") == Ok(CandlePlan(GetCandles, 300, 1435, 14400000))
  {
    MinuteBars(1, 1);
    assert IntToStr(1) + "m" == "1m";
    HourBars(239, 4);
    assert IntToStr(4) + "H" == "4H";
  }

  // ---------------------------------------------------------------- downloads

  /** `get_candles_for_days(instId, days, bar)`: the plan's pagination over the chosen
      endpoint; `openTime` reads a candle's first field (`tag=0`). */
  method CandlesForDays<R>(getCandles: Request -> seq<R>, historyCandles: Request -> seq<R>,
                           openTime: R -> string, days: int, bar: string, fuel: nat)
    returns (out: Outcome<R>, calls: seq<Request>)
    ensures CandlePlanFor(days, bar).Err? ==> out == Failed(CandlePlanFor(days, bar).error) && calls == []
    // the plan's page size, count and interval drive the pagination over the chosen
    // endpoint, as `query_with_pagination` promises (see `Paginated`)
    ensures CandlePlanFor(days, bar).Ok? ==>
              var p := CandlePlanFor(days, bar).value;
              p.pageSize > 0 &&
              Paginated(if p.endpoint == HistoryCandles then historyCandles else getCandles, openTime,
                        p.pageSize, p.count, p.interval, out, calls)
  {
    var plan := CandlePlanFor(days, bar);
    if plan.Err? {
      out := Failed(plan.error);
      calls := [];
      return;
    }
    var p := plan.value;
    if p.endpoint == HistoryCandles {
      out, calls := QueryWithPagination(historyCandles, openTime, p.pageSize, p.count, p.interval, fuel);
    } else {
      out, calls := QueryWithPagination(getCandles, openTime, p.pageSize, p.count, p.interval, fuel);
    }
  }

  /** `get_funding_history(instId, count)`: pages of 100 rates, cursors eight hours of
      rates apart, keyed by `fundingTime`. With the default count, the first page and two
      more are requested, for 100, 100 and 70 rates. */
  method FundingHistory<R>(page: Request -> seq<R>, fundingTime: R -> string, count: int, fuel: nat)
    returns (out: Outcome<R>, calls: seq<Request>)
    ensures |calls| >= 1
    ensures out.Records? ==> out.records == Collect(page, calls)
    ensures 0 < count < FundingPageSize ==> calls == [Request(None, Some(count))]
    ensures count == FundingDefaultCount && out.Records? ==>
              |calls| == 3 && calls[0] == Request(None, Some(100)) &&
              calls[1].limit == Some(100) && calls[2].limit == Some(70)
    ensures count == FundingDefaultCount && out.Records? ==>
              var first := page(Request(None, Some(100)));
              |first| > 0 && ParseInt(fundingTime(first[|first| - 1])).Some? &&
              var t := ParseInt(fundingTime(first[|first| - 1])).value;
              calls[1].after == Some(Number(t)) && calls[2].after == Some(Number(t - 100 * FundingInterval))
  {
    out, calls := QueryWithPagination(page, fundingTime, FundingPageSize, count, FundingInterval, fuel);
    if count == FundingDefaultCount {
      assert Limits(270, 100) == [100, 100, 70] by {
        assert Limits(70, 100) == [70];
        assert Limits(170, 100) == [100, 70];
      }
    }
  }

  // ---------------------------------------------------------------- instruments

  /** `dict(instType=instType)`, plus `instFamily` when it is non-empty. */
  function InstrumentsParams(instType: string, instFamily: string): (p: Params)
    ensures DistinctKeys(p)
    ensures Lookup(p, "instType") == Some(instType)
    ensures Lookup(p, "instFamily") == (if instFamily != "" then Some(instFamily) else None)
    ensures Keys(p) == ["instType"] + (if instFamily != "" then ["instFamily"] else [])
  {
    var p := [("instType", instType)];
    if instFamily != "" then PutLookup(p, "instFamily", instFamily); Put(p, "instFamily", instFamily) else p
  }

  /** `dict(instType=instType, instId=instId)`, plus `uly` when it is non-empty. */
  function SpecificInstrumentParams(instType: string, instId: string, uly: string): (p: Params)
    ensures DistinctKeys(p)
    ensures Lookup(p, "instType") == Some(instType) && Lookup(p, "instId") == Some(instId)
    ensures Lookup(p, "uly") == (if uly != "" then Some(uly) else None)
    ensures Keys(p) == ["instType", "instId"] + (if uly != "" then ["uly"] else [])
  {
    var p := [("instType", instType), ("instId", instId)];
    IndexOfKeyFirst(p, "instId", 1);
    if uly != "" then PutLookup(p, "uly", uly); Put(p, "uly", uly) else p
  }

  /** The reply handling of `get_specific_instrument`: code `51001` raises
      `OkexRequestException(msg)`; every other code, success or not, returns `data[0]`. */
  function SpecificInstrumentReply(res: Envelope): (r: Py<Record>)
    ensures res.code.None? ==> r == Err(KeyError("code"))
    ensures res.code == Some(NoSuchInstrument) ==>
              r == Err(if res.msg.Some? then OkexRequest(RequestException(res.msg.value)) else KeyError("msg"))
    ensures res.code.Some? && res.code != Some(NoSuchInstrument) ==>
              (r.Ok? <==> res.data.Some? && |res.data.value| > 0) &&
              (r.Ok? ==> r.value == res.data.value[0])
  {
    match res.code
    case None => Err(KeyError("code"))
    case Some(c) =>
      if c == NoSuchInstrument then
        if res.msg.Some? then Err(OkexRequest(RequestException(res.msg.value))) else Err(KeyError("msg"))
      else if res.data.None? then Err(KeyError("data"))
      else if |res.data.value| == 0 then Err(IndexError)
      else Ok(res.data.value[0])
  }

  /** On success the single-instrument query reads what the asserting wrappers read, and
      a failing code other than `51001` is not checked: its `data` is returned all the same. */
  lemma SpecificInstrumentCodes(res: Envelope, c: string)
    requires c != NoSuchInstrument
    ensures res.code == Some("0") ==> SpecificInstrumentReply(res) == First(InstrumentsPath, res)
    ensures res.code.Some? && res.code.value != NoSuchInstrument ==>
              SpecificInstrumentReply(res) == SpecificInstrumentReply(res.(code := Some(c)))
    ensures res.code == Some(c) && c != "0" && res.data.Some? && |res.data.value| > 0 ==>
              SpecificInstrumentReply(res).Ok? && First(InstrumentsPath, res).Err?
  {
  }

  /** `get_instruments(instType, instFamily)`: under `async with D[instType]` for the class
      dictionary `D` of `RateLimiter(20, 2)`s, the GET request, then `assert` and `data`. */
  method GetInstruments(reg: Registry, client: Client, instType: string, instFamily: string, now: real, done: real,
                        replies: nat -> Reply, stamp: nat -> string, mac: Mac, dumps: Params -> string)
    returns (admission: Admission, res: Option<Py<seq<Record>>>)
    requires reg.Valid() && reg.concurrency == 20 && reg.interval == 2
    modifies reg, reg.limiters.Values
    ensures Throttled(reg, instType, now, done, admission)
    ensures admission.Wait? <==> res.None?
    ensures res.Some? ==>
              res.value == Then(Dispatch.Dispatch(client.Creds(), mac, Get, InstrumentsPath,
                                                  InstrumentsParams(instType, instFamily), replies, stamp, dumps).result,
                                env => Data(InstrumentsPath, env))
  {
    var final;
    admission, final := ThrottledRequest(reg, instType, now, done, client, Get, InstrumentsPath,
                                         InstrumentsParams(instType, instFamily), replies, stamp, mac, dumps);
    res := if final.None? then None else Some(Then(final.value.result, env => Data(InstrumentsPath, env)));
  }

  /** `get_specific_instrument(instType, instId, uly)`: the same dictionary of limiters,
      keyed by the same instrument type, then the `51001` check and `data[0]`. */
  method GetSpecificInstrument(reg: Registry, client: Client, instType: string, instId: string, uly: string,
                               now: real, done: real,
                               replies: nat -> Reply, stamp: nat -> string, mac: Mac, dumps: Params -> string)
    returns (admission: Admission, res: Option<Py<Record>>)
    requires reg.Valid() && reg.concurrency == 20 && reg.interval == 2
    modifies reg, reg.limiters.Values
    ensures Throttled(reg, instType, now, done, admission)
    ensures admission.Wait? <==> res.None?
    ensures res.Some? ==>
              res.value == Then(Dispatch.Dispatch(client.Creds(), mac, Get, InstrumentsPath,
                                                  SpecificInstrumentParams(instType, instId, uly), replies, stamp, dumps).result,
                                SpecificInstrumentReply)
  {
    var final;
    admission, final := ThrottledRequest(reg, instType, now, done, client, Get, InstrumentsPath,
                                         SpecificInstrumentParams(instType, instId, uly), replies, stamp, mac, dumps);
    res := if final.None? then None else Some(Then(final.value.result, SpecificInstrumentReply));
  }
}
