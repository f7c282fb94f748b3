/** `query_with_pagination` (async_okx_v5/utils.py:85-132): which `(after, limit)` calls are
    made for a requested `count`, `page_size` and `interval`, and how the pages are put
    together. The endpoint is the oracle `page`, a function from a request to the records
    it returns; `key(r)` is `r[tag]`, the record's cursor field. The concurrent fan-out
    (`asyncio.gather`) is a loop in task order, the order in which gather returns. */
module Pagination {
  import opened Common
  import opened Exceptions

  /** The `after` argument: a cursor copied from a record, or a number computed from one. */
  datatype Cursor = Raw(text: string) | Number(n: int)

  /** One call `query_api(**kwargs, after=..., limit=...)`; None is an omitted argument. */
  datatype Request = Request(after: Option<Cursor>, limit: Option<int>)

  /** What the caller gets: the records, a raised exception, or (unbounded mode only) a
      walk that was still going when the model's call budget ran out. */
  datatype Outcome<R> = Records(records: seq<R>) | Failed(error: Raised) | Unfinished

  /** The page sizes requested in bounded mode for `count` records: full pages, then the
      remainder. */
  function Limits(count: int, pageSize: int): (ls: seq<int>)
    requires pageSize > 0
    ensures forall i :: 0 <= i < |ls| ==> 0 < ls[i] <= pageSize
    decreases count
  {
    if count <= 0 then [] else [if count < pageSize then count else pageSize] + Limits(count - pageSize, pageSize)
  }

  /** One step of the loops that hand out the limits: the next limit moves from the
      limits still to go to the limits done. */
  lemma LimitsStep(done: seq<int>, count: int, pageSize: int)
    requires pageSize > 0 && count > 0
    ensures var limit := if count < pageSize then count else pageSize;
            done + Limits(count, pageSize) == (done + [limit]) + Limits(count - pageSize, pageSize)
  {
    var limit := if count < pageSize then count else pageSize;
    var rest := Limits(count - pageSize, pageSize);
    assert Limits(count, pageSize) == [limit] + rest;
    assert done + ([limit] + rest) == (done + [limit]) + rest;
  }

  function Sum(xs: seq<int>): int
  {
    if xs == [] then 0 else xs[0] + Sum(xs[1..])
  }

  lemma MulStep(n: int, p: int)
    ensures (n + 1) * p == n * p + p && (n - 1) * p == n * p - p
  {
  }

  /** The requested limits add up to `count`, there are ceil(count / page_size) of them
      (n of them cover `count` and n - 1 do not), and all but the last are full pages. */
  lemma {:induction false} LimitsShape(count: int, pageSize: int)
    requires pageSize > 0 && count > 0
    ensures var ls := Limits(count, pageSize);
            Sum(ls) == count &&
            (|ls| - 1) * pageSize < count <= |ls| * pageSize &&
            (forall i :: 0 <= i < |ls| - 1 ==> ls[i] == pageSize)
    decreases count
  {
    var ls := Limits(count, pageSize);
    if count > pageSize {
      var rest := Limits(count - pageSize, pageSize);
      LimitsShape(count - pageSize, pageSize);
      assert ls == [pageSize] + rest;
      assert ls[1..] == rest;
      var n := |rest|;
      assert Sum(ls) == pageSize + Sum(rest);
      MulStep(n, pageSize);
      forall i | 1 <= i < |ls| - 1
        ensures ls[i] == pageSize
      {
        assert ls[i] == rest[i - 1];
      }
    } else {
      assert Limits(count - pageSize, pageSize) == [];
      assert ls == [count];
    }
  }

  /** `res.extend(p)` for each page `p` in turn. */
  function Concat<R>(pages: seq<seq<R>>): seq<R>
  {
    if pages == [] then [] else pages[0] + Concat(pages[1..])
  }

  lemma {:induction false} ConcatSnoc<R>(pages: seq<seq<R>>, p: seq<R>)
    ensures Concat(pages + [p]) == Concat(pages) + p
    decreases |pages|
  {
    if pages == [] {
      assert [p][1..] == [];
    } else {
      assert (pages + [p])[1..] == pages[1..] + [p];
      ConcatSnoc(pages[1..], p);
    }
  }

  /** The pages the calls return, in call order. */
  function Fetch<R>(page: Request -> seq<R>, calls: seq<Request>): (pages: seq<seq<R>>)
    ensures |pages| == |calls| && forall i :: 0 <= i < |calls| ==> pages[i] == page(calls[i])
  {
    seq(|calls|, i requires 0 <= i < |calls| => page(calls[i]))
  }

  /** The records `calls` bring back, page after page in call order. */
  function Collect<R>(page: Request -> seq<R>, calls: seq<Request>): seq<R>
  {
    Concat(Fetch(page, calls))
  }

  lemma CollectSnoc<R>(page: Request -> seq<R>, calls: seq<Request>, c: Request)
    ensures Collect(page, calls + [c]) == Collect(page, calls) + page(c)
  {
    assert Fetch(page, calls + [c]) == Fetch(page, calls) + [page(c)];
    ConcatSnoc(Fetch(page, calls), page(c));
  }

  /** The fan-out tasks for the given limits: task j asks for `after0 - j * stride`. */
  function FanOutCalls(after0: int, stride: int, limits: seq<int>): (calls: seq<Request>)
    ensures |calls| == |limits|
    ensures forall j :: 0 <= j < |limits| ==> calls[j] == Request(Some(Number(after0 - j * stride)), Some(limits[j]))
  {
    seq(|limits|, j requires 0 <= j < |limits| => Request(Some(Number(after0 - j * stride)), Some(limits[j])))
  }

  lemma FanOutCallsSnoc(after0: int, stride: int, limits: seq<int>, l: int)
    ensures FanOutCalls(after0, stride, limits + [l])
         == FanOutCalls(after0, stride, limits) + [Request(Some(Number(after0 - |limits| * stride)), Some(l))]
  {
    var a := FanOutCalls(after0, stride, limits + [l]);
    var b := FanOutCalls(after0, stride, limits) + [Request(Some(Number(after0 - |limits| * stride)), Some(l))];
    assert |a| == |b|;
    forall j | 0 <= j < |a| ensures a[j] == b[j] {
      if j < |limits| {
        assert (limits + [l])[j] == limits[j];
      }
    }
  }

  /** Call j (after the first) takes as its cursor the record at `page_size - 1` of the
      page call j - 1 returned; that page must be at least that long. */
  predicate ContinuesFrom<R>(page: Request -> seq<R>, key: R -> string, pageSize: int, calls: seq<Request>, j: int)
    requires pageSize > 0 && 1 <= j < |calls|
  {
    |page(calls[j - 1])| >= pageSize && calls[j].after == Some(Raw(key(page(calls[j - 1])[pageSize - 1])))
  }

  lemma ContinuesFromSnoc<R>(page: Request -> seq<R>, key: R -> string, pageSize: int, calls: seq<Request>, c: Request)
    requires pageSize > 0
    requires forall j :: 1 <= j < |calls| ==> ContinuesFrom(page, key, pageSize, calls, j)
    ensures forall j :: 1 <= j < |calls| ==> ContinuesFrom(page, key, pageSize, calls + [c], j)
  {
    forall j | 1 <= j < |calls| ensures ContinuesFrom(page, key, pageSize, calls + [c], j) {
      assert ContinuesFrom(page, key, pageSize, calls, j);
      assert (calls + [c])[j - 1] == calls[j - 1] && (calls + [c])[j] == calls[j];
    }
  }

  lemma StrideStep(n: int, stride: int)
    ensures n * stride + stride == (n + 1) * stride
  {
  }

  /** The parallel branch's task list: one task per remaining page, each `after` the first
      page's last cursor minus `j * page_size * interval`. */
  method FanOut(pageSize: int, remaining: int, after0: int, interval: int) returns (tasks: seq<Request>)
    requires pageSize > 0
    ensures tasks == FanOutCalls(after0, pageSize * interval, Limits(remaining, pageSize))
  {
    var count, after := remaining, after0;
    var stride := pageSize * interval;
    tasks := [];
    ghost var done: seq<int> := [];
    while count > 0
      invariant Limits(remaining, pageSize) == done + Limits(count, pageSize)
      invariant tasks == FanOutCalls(after0, stride, done)
      invariant after == after0 - |done| * stride
    {
      var limit := if count < pageSize then count else pageSize;
      LimitsStep(done, count, pageSize);
      FanOutCallsSnoc(after0, stride, done, limit);
      StrideStep(|done|, stride);
      tasks := tasks + [Request(Some(Number(after)), Some(limit))];
      done := done + [limit];
      after := after - stride;
      count := count - pageSize;
    }
    assert Limits(count, pageSize) == [];
  }

  /** `asyncio.gather(*tasks)`: the tasks' results, in task order. */
  method Gather<R>(page: Request -> seq<R>, tasks: seq<Request>) returns (pages: seq<seq<R>>)
    ensures pages == Fetch(page, tasks)
  {
    pages := [];
    for i := 0 to |tasks|
      invariant pages == Fetch(page, tasks[..i])
    {
      pages := pages + [page(tasks[i])];
    }
    assert tasks[..|tasks|] == tasks;
  }

  /** The calls of the sequential branch so far: the first call, then one call per limit
      in `done`, each continuing from the page before. */
  predicate Walked<R>(page: Request -> seq<R>, key: R -> string, pageSize: int, firstCall: Request,
                      calls: seq<Request>, done: seq<int>)
    requires pageSize > 0
  {
    |calls| == |done| + 1 && calls[0] == firstCall &&
    (forall j :: 1 <= j < |calls| ==> calls[j].limit == Some(done[j - 1])) &&
    (forall j :: 1 <= j < |calls| ==> ContinuesFrom(page, key, pageSize, calls, j))
  }

  lemma WalkedSnoc<R>(page: Request -> seq<R>, key: R -> string, pageSize: int, firstCall: Request,
                      calls: seq<Request>, done: seq<int>, limit: int)
    requires pageSize > 0 && Walked(page, key, pageSize, firstCall, calls, done)
    requires |page(calls[|calls| - 1])| >= pageSize
    ensures var call := Request(Some(Raw(key(page(calls[|calls| - 1])[pageSize - 1]))), Some(limit));
            Walked(page, key, pageSize, firstCall, calls + [call], done + [limit])
  {
    var call := Request(Some(Raw(key(page(calls[|calls| - 1])[pageSize - 1]))), Some(limit));
    ContinuesFromSnoc(page, key, pageSize, calls, call);
    var calls', done' := calls + [call], done + [limit];
    forall j | 1 <= j < |calls'|
      ensures calls'[j].limit == Some(done'[j - 1])
    {
      if j < |calls| {
        assert calls'[j] == calls[j] && done'[j - 1] == done[j - 1];
      }
    }
    assert ContinuesFrom(page, key, pageSize, calls', |calls|);
  }

  /** The sequential branch, after the first call: each next call's cursor is the record
      at index `page_size - 1` of the page before; a shorter page there is an IndexError.
      `res` is the first page extended by every later one. */
  method Walk<R>(page: Request -> seq<R>, key: R -> string, pageSize: int, firstCall: Request, first: seq<R>,
                 remaining: int)
    returns (calls: seq<Request>, res: seq<R>, failed: bool)
    requires pageSize > 0 && first == page(firstCall)
    ensures |calls| >= 1 && calls[0] == firstCall
    ensures res == Collect(page, calls)
    ensures |calls| - 1 <= |Limits(remaining, pageSize)|
    ensures forall j :: 1 <= j < |calls| ==> calls[j].limit == Some(Limits(remaining, pageSize)[j - 1])
    ensures forall j :: 1 <= j < |calls| ==> ContinuesFrom(page, key, pageSize, calls, j)
    ensures !failed <==> |calls| - 1 == |Limits(remaining, pageSize)|
    ensures failed ==> |page(calls[|calls| - 1])| < pageSize
  {
    var count := remaining;
    var temp := first;
    calls, res := [firstCall], first;
    assert Collect(page, [firstCall]) == first by {
      assert Fetch(page, [firstCall]) == [first];
      assert Concat([first]) == first + Concat([]);
    }
    ghost var done: seq<int> := [];
    while count > 0
      invariant Limits(remaining, pageSize) == done + Limits(count, pageSize)
      invariant Walked(page, key, pageSize, firstCall, calls, done)
      invariant temp == page(calls[|calls| - 1])
      invariant res == Collect(page, calls)
    {
      if |temp| < pageSize {
        return calls, res, true;
      }
      var limit := if count < pageSize then count else pageSize;
      LimitsStep(done, count, pageSize);
      var call := Request(Some(Raw(key(temp[pageSize - 1]))), Some(limit));
      CollectSnoc(page, calls, call);
      WalkedSnoc(page, key, pageSize, firstCall, calls, done, limit);
      calls := calls + [call];
      temp := page(call);
      res := res + temp;
      done := done + [limit];
      count := count - pageSize;
    }
    assert Limits(count, pageSize) == [];
    failed := false;
  }

  /** The unbounded branch: call without a limit, and again with the cursor of the
      record at `page_size - 1`, for exactly as long as the last page is full. `fuel`
      bounds the number of follow-up calls the model makes. */
  method Drain<R>(page: Request -> seq<R>, key: R -> string, pageSize: int, fuel: nat)
    returns (calls: seq<Request>, res: seq<R>, finished: bool)
    requires pageSize > 0
    ensures |calls| >= 1 && calls[0] == Request(None, None)
    ensures res == Collect(page, calls)
    ensures forall j :: 0 <= j < |calls| ==> calls[j].limit == None
    ensures forall j :: 0 <= j < |calls| - 1 ==> |page(calls[j])| == pageSize
    ensures forall j :: 1 <= j < |calls| ==> ContinuesFrom(page, key, pageSize, calls, j)
    ensures finished <==> |page(calls[|calls| - 1])| != pageSize
    ensures !finished ==> |calls| == fuel + 1
  {
    var temp := page(Request(None, None));
    calls, res := [Request(None, None)], temp;
    assert Collect(page, calls) == temp by {
      assert Fetch(page, calls) == [temp];
      assert Concat([temp]) == temp + Concat([]);
    }
    while |temp| == pageSize && |calls| <= fuel
      invariant 1 <= |calls| <= fuel + 1 && calls[0] == Request(None, None)
      invariant forall j :: 0 <= j < |calls| ==> calls[j].limit == None
      invariant forall j :: 0 <= j < |calls| - 1 ==> |page(calls[j])| == pageSize
      invariant forall j :: 1 <= j < |calls| ==> ContinuesFrom(page, key, pageSize, calls, j)
      invariant temp == page(calls[|calls| - 1])
      invariant res == Collect(page, calls)
    {
      var call := Request(Some(Raw(key(temp[pageSize - 1]))), None);
      CollectSnoc(page, calls, call);
      ContinuesFromSnoc(page, key, pageSize, calls, call);
      calls := calls + [call];
      temp := page(call);
      res := res + temp;
      assert ContinuesFrom(page, key, pageSize, calls, |calls| - 1);
    }
    finished := |temp| != pageSize;
  }

  /** The record a page of calls brings back when it is a single page. */
  lemma CollectOne<R>(page: Request -> seq<R>, c: Request)
    ensures Collect(page, [c]) == page(c)
  {
    assert Fetch(page, [c]) == [page(c)];
    assert Concat([page(c)]) == page(c) + Concat([]);
  }

  lemma PrependCall<R>(page: Request -> seq<R>, c: Request, calls: seq<Request>)
    ensures Collect(page, [c] + calls) == page(c) + Collect(page, calls)
  {
    var pages := Fetch(page, calls);
    assert Fetch(page, [c] + calls) == [page(c)] + pages;
    assert ([page(c)] + pages)[1..] == pages;
  }

  /** The first full-page call followed by the fan-out tasks asks for the limits of the
      whole count, the tasks' cursors stepping down by `stride`. */
  lemma FirstThenFanOut(firstCall: Request, after0: int, stride: int, count: int, pageSize: int)
    requires count >= pageSize > 0 && firstCall.limit == Some(pageSize)
    ensures var calls := [firstCall] + FanOutCalls(after0, stride, Limits(count - pageSize, pageSize));
            var ls := Limits(count, pageSize);
            |calls| == |ls| &&
            (forall j :: 0 <= j < |calls| ==> calls[j].limit == Some(ls[j])) &&
            (forall j :: 1 <= j < |calls| ==> calls[j].after == Some(Number(after0 - (j - 1) * stride)))
  {
    var tasks := FanOutCalls(after0, stride, Limits(count - pageSize, pageSize));
    var calls := [firstCall] + tasks;
    var rest := Limits(count - pageSize, pageSize);
    assert Limits(count, pageSize) == [pageSize] + rest;
    forall j | 1 <= j < |calls|
      ensures calls[j] == Request(Some(Number(after0 - (j - 1) * stride)), Some(rest[j - 1]))
    {
      assert calls[j] == tasks[j - 1];
    }
  }

  /** Bounded mode with an interval: after a first full-page call, the cursor of the
      first page's last record is parsed as an integer (IndexError on an empty page,
      ValueError on a cursor that is not a number) and the remaining pages are fanned out. */
  method ArithmeticPages<R>(page: Request -> seq<R>, key: R -> string, pageSize: int, count: int, interval: int)
    returns (out: Outcome<R>, calls: seq<Request>)
    requires pageSize > 0 && count >= pageSize && interval != 0
    ensures |calls| >= 1 && calls[0] == Request(None, Some(pageSize))
    ensures out.Records? ==> out.records == Collect(page, calls)
    ensures var first := page(Request(None, Some(pageSize)));
            (|first| == 0 ==> out == Failed(IndexError)) &&
            (|first| > 0 && ParseInt(key(first[|first| - 1])).None? ==> out == Failed(ValueError)) &&
            (|first| > 0 && ParseInt(key(first[|first| - 1])).Some? ==>
               out.Records? &&
               forall j :: 1 <= j < |calls| ==>
                 calls[j].after == Some(Number(ParseInt(key(first[|first| - 1])).value - (j - 1) * (pageSize * interval))))
    ensures out.Records? ==>
              |calls| == |Limits(count, pageSize)| &&
              forall j :: 0 <= j < |calls| ==> calls[j].limit == Some(Limits(count, pageSize)[j])
  {
    var firstCall := Request(None, Some(pageSize));
    var first := page(firstCall);
    calls := [firstCall];
    if |first| == 0 {
      return Failed(IndexError), calls;
    }
    var parsed := ParseInt(key(first[|first| - 1]));
    if parsed.None? {
      return Failed(ValueError), calls;
    }
    var tasks := FanOut(pageSize, count - pageSize, parsed.value, interval);
    var pages := Gather(page, tasks);
    calls := [firstCall] + tasks;
    out := Records(first + Concat(pages));
    PrependCall(page, firstCall, tasks);
    FirstThenFanOut(firstCall, parsed.value, pageSize * interval, count, pageSize);
  }

  /** Bounded mode without an interval: a first full-page call, then the cursor walk. */
  method CursorPages<R>(page: Request -> seq<R>, key: R -> string, pageSize: int, count: int)
    returns (out: Outcome<R>, calls: seq<Request>)
    requires pageSize > 0 && count >= pageSize
    ensures |calls| >= 1 && calls[0] == Request(None, Some(pageSize)) && !out.Unfinished?
    ensures out.Records? ==> out.records == Collect(page, calls)
    ensures forall j :: 1 <= j < |calls| ==> ContinuesFrom(page, key, pageSize, calls, j)
    ensures out.Failed? ==> out.error == IndexError && |page(calls[|calls| - 1])| < pageSize
    // the walk fails only before its last limited call: once every call is made, it succeeds
    ensures out.Failed? <==> |calls| < |Limits(count, pageSize)|
    ensures out.Records? ==>
              |calls| == |Limits(count, pageSize)| &&
              forall j :: 0 <= j < |calls| ==> calls[j].limit == Some(Limits(count, pageSize)[j])
  {
    var firstCall := Request(None, Some(pageSize));
    var first := page(firstCall);
    var res, failed;
    calls, res, failed := Walk(page, key, pageSize, firstCall, first, count - pageSize);
    out := if failed then Failed(IndexError) else Records(res);
    assert Limits(count, pageSize) == [pageSize] + Limits(count - pageSize, pageSize);
  }

  /** Pages of the given lengths put together hold as many records as the lengths add up to. */
  lemma {:induction false} ConcatLength<R>(pages: seq<seq<R>>, lengths: seq<int>)
    requires |pages| == |lengths| && forall i :: 0 <= i < |pages| ==> |pages[i]| == lengths[i]
    ensures |Concat(pages)| == Sum(lengths)
    decreases |pages|
  {
    if pages != [] {
      ConcatLength(pages[1..], lengths[1..]);
    }
  }

  /** Bounded mode gives back exactly `count` records when every call made with the
      bounded limits returns as many records as it asked for. */
  lemma BoundedCount<R>(page: Request -> seq<R>, calls: seq<Request>, count: int, pageSize: int)
    requires pageSize > 0 && count > 0
    requires |calls| == |Limits(count, pageSize)|
    requires forall j :: 0 <= j < |calls| ==> |page(calls[j])| == Limits(count, pageSize)[j]
    ensures |Collect(page, calls)| == count
  {
    LimitsShape(count, pageSize);
    ConcatLength(Fetch(page, calls), Limits(count, pageSize));
  }

  /** What `query_with_pagination(query_api, tag, page_size, count, interval)` promises
      about the calls it makes and the outcome it returns. */
  ghost predicate Paginated<R>(page: Request -> seq<R>, key: R -> string, pageSize: int, count: int, interval: int,
                               out: Outcome<R>, calls: seq<Request>)
    requires pageSize > 0
  {
    |calls| >= 1 &&
    // fewer than a page wanted: a single call with limit=count, its result returned as is
    (0 < count < pageSize ==> calls == [Request(None, Some(count))] && out == Records(page(calls[0]))) &&
    // bounded mode: first call without a cursor; the limits are the full pages then the remainder
    (count > 0 ==> calls[0].after == None && !out.Unfinished?) &&
    (count > 0 && out.Records? ==>
       |calls| == |Limits(count, pageSize)| &&
       forall j :: 0 <= j < |calls| ==> calls[j].limit == Some(Limits(count, pageSize)[j])) &&
    // every mode: the result is the pages in the order the calls were created
    (out.Records? ==> out.records == Collect(page, calls)) &&
    // bounded mode with an interval: arithmetic cursors from the first page's last record
    (count >= pageSize && interval != 0 ==>
       var first := page(Request(None, Some(pageSize)));
       (|first| == 0 ==> out == Failed(IndexError)) &&
       (|first| > 0 && ParseInt(key(first[|first| - 1])).None? ==> out == Failed(ValueError)) &&
       (|first| > 0 && ParseInt(key(first[|first| - 1])).Some? ==>
          out.Records? &&
          forall j :: 1 <= j < |calls| ==>
            calls[j].after == Some(Number(ParseInt(key(first[|first| - 1])).value - (j - 1) * (pageSize * interval))))) &&
    // bounded mode without an interval: each cursor is the record at page_size - 1 of the
    // page before, and the walk fails exactly when it stops before its last limited call
    (count >= pageSize && interval == 0 ==>
       (forall j :: 1 <= j < |calls| ==> ContinuesFrom(page, key, pageSize, calls, j)) &&
       (out.Failed? ==> out.error == IndexError && |page(calls[|calls| - 1])| < pageSize) &&
       (out.Failed? <==> |calls| < |Limits(count, pageSize)|)) &&
    // unbounded mode: no limit, and a next call exactly while the last page is full
    (count <= 0 ==>
       calls[0] == Request(None, None) && !out.Failed? &&
       (forall j :: 0 <= j < |calls| ==> calls[j].limit == None) &&
       (forall j :: 0 <= j < |calls| - 1 ==> |page(calls[j])| == pageSize) &&
       (forall j :: 1 <= j < |calls| ==> ContinuesFrom(page, key, pageSize, calls, j)) &&
       (out.Records? <==> |page(calls[|calls| - 1])| != pageSize))
  }

  /** `query_with_pagination(query_api, tag, page_size, count, interval)`. */
  method QueryWithPagination<R>(page: Request -> seq<R>, key: R -> string, pageSize: int,
                                count: int, interval: int, fuel: nat)
    returns (out: Outcome<R>, calls: seq<Request>)
    requires pageSize > 0
    ensures Paginated(page, key, pageSize, count, interval, out, calls)
  {
    if count > 0 {
      if count < pageSize {
        calls := [Request(None, Some(count))];
        out := Records(page(calls[0]));
        assert Limits(count - pageSize, pageSize) == [];
        CollectOne(page, calls[0]);
      } else if interval != 0 {
        out, calls := ArithmeticPages(page, key, pageSize, count, interval);
      } else {
        out, calls := CursorPages(page, key, pageSize, count);
      }
    } else {
      var res, finished;
      calls, res, finished := Drain(page, key, pageSize, fuel);
      out := if finished then Records(res) else Unfinished;
    }
  }
}
