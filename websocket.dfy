/** The WebSocket side (src/okx/websocket.py): which URL a list of channels is routed to,
    which received messages the stream hands out, the receive/ping loop with its
    teardown, and the frames a subscription sends. The connection and the server behind
    it are an oracle `Peer`; JSON is abstracted to decoded messages and frame values. */
module Websocket {
  import opened Common
  import opened Exceptions
  import opened Signing
  import opened Limiter

  /** The demo-trading host and the production host. */
  const TestHost := "wss://wspap.okx.com:8443/"
  const ProductionHost := "wss://wsaws.okx.com:8443/"

  const TestPublicUrl := TestHost + "ws/v5/public?brokerId=9999"
  const TestPrivateUrl := TestHost + "ws/v5/private?brokerId=9999"
  const PublicUrl := ProductionHost + "ws/v5/public"
  const PrivateUrl := ProductionHost + "ws/v5/private"

  /** The class-level `SUBSCRIPTION_SEMAPHORE = RateLimiter(240, 3600)`, shared by every
      subscribe frame, and `LOGIN_SEMAPHORE = RateLimiter(1, 1)` of private subscriptions. */
  predicate IsSubscriptionLimiter(limiter: RateLimiter)
  {
    limiter.concurrency == 240 && limiter.interval == 3600
  }

  predicate IsLoginLimiter(limiter: RateLimiter)
  {
    limiter.concurrency == 1 && limiter.interval == 1
  }
  const TestBusinessUrl := TestHost + "ws/v5/business?brokerId=9999"
  const BusinessUrl := ProductionHost + "ws/v5/business"

  /** The channels served only by the business endpoint (src/okx/channel.py). */
  const BusinessChannels: set<string> :=
    {"deposit-info", "withdrawal-info", "candle3M", "candle1M", "candle1W", "candle1D", "candle2D",
     "candle3D", "candle5D", "candle12H", "candle6H", "candle4H", "candle2H", "candle1H", "candle30m",
     "candle15m", "candle5m", "candle3m", "candle1m", "candle3Mutc", "candle1Mutc", "candle1Wutc",
     "candle1Dutc", "candle2Dutc", "candle3Dutc", "candle5Dutc", "candle12Hutc", "candle6Hutc"}

  /** A channel argument: a dict whose "channel" entry names the channel. */
  type Channel = map<string, string>

  // ---------------------------------------------------------------- routing

  /** `any(channel["channel"] in BUSINESS_CHANNELS for channel in channels)`: channels are
      read in order until the first business channel; reading a channel with no "channel"
      key before that raises KeyError. */
  function AnyBusiness(channels: seq<Channel>): (r: Py<bool>)
    ensures r.Err? ==> r.error == KeyError("channel")
  {
    if channels == [] then Ok(false)
    else if "channel" !in channels[0] then Err(KeyError("channel"))
    else if channels[0]["channel"] in BusinessChannels then Ok(true)
    else AnyBusiness(channels[1..])
  }

  /** Every channel has a "channel" key. */
  predicate Named(channels: seq<Channel>)
  {
    forall i :: 0 <= i < |channels| ==> "channel" in channels[i]
  }

  /** Some channel is a business channel. */
  predicate HasBusiness(channels: seq<Channel>)
  {
    exists i :: 0 <= i < |channels| && "channel" in channels[i] && channels[i]["channel"] in BusinessChannels
  }

  /** Every channel is named and none is a business channel. */
  predicate Ordinary(channels: seq<Channel>)
  {
    forall i :: 0 <= i < |channels| ==> "channel" in channels[i] && channels[i]["channel"] !in BusinessChannels
  }

  /** With every channel named, `any` answers whether some channel is a business channel. */
  lemma {:induction false} AnyBusinessNamed(channels: seq<Channel>)
    requires Named(channels)
    ensures AnyBusiness(channels) == Ok(HasBusiness(channels))
  {
    if channels != [] && channels[0]["channel"] !in BusinessChannels {
      var rest := channels[1..];
      assert Named(rest) by {
        forall i | 0 <= i < |rest| ensures "channel" in rest[i] {
          assert rest[i] == channels[i + 1];
        }
      }
      AnyBusinessNamed(rest);
      if HasBusiness(channels) {
        var i :| 0 <= i < |channels| && "channel" in channels[i] && channels[i]["channel"] in BusinessChannels;
        assert rest[i - 1] == channels[i];
      }
      if HasBusiness(rest) {
        var i :| 0 <= i < |rest| && "channel" in rest[i] && rest[i]["channel"] in BusinessChannels;
        assert rest[i] == channels[i + 1];
      }
    }
  }

  /** Dropping an ordinary first channel shifts the ordinary prefixes by one. */
  lemma OrdinaryShift(channels: seq<Channel>, i: nat)
    requires 1 <= i <= |channels| && "channel" in channels[0] && channels[0]["channel"] !in BusinessChannels
    ensures Ordinary(channels[..i]) <==> Ordinary(channels[1..][..i - 1])
  {
    assert channels[..i] == [channels[0]] + channels[1..][..i - 1];
  }

  /** `any` raises exactly when an unnamed channel comes before every business channel:
      an unnamed channel after the first business channel is never read. */
  lemma {:induction false} AnyBusinessRaises(channels: seq<Channel>)
    ensures AnyBusiness(channels).Err? <==>
            exists i :: 0 <= i < |channels| && "channel" !in channels[i] && Ordinary(channels[..i])
  {
    if channels == [] {
    } else if "channel" !in channels[0] {
      assert channels[..0] == [];
    } else if channels[0]["channel"] in BusinessChannels {
      forall i | 0 < i <= |channels| ensures !Ordinary(channels[..i]) {
        assert channels[..i][0] == channels[0];
      }
    } else {
      var rest := channels[1..];
      AnyBusinessRaises(rest);
      if exists i :: 0 <= i < |channels| && "channel" !in channels[i] && Ordinary(channels[..i]) {
        var i :| 0 <= i < |channels| && "channel" !in channels[i] && Ordinary(channels[..i]);
        OrdinaryShift(channels, i);
        assert rest[i - 1] == channels[i];
      }
      if AnyBusiness(rest).Err? {
        var i :| 0 <= i < |rest| && "channel" !in rest[i] && Ordinary(rest[..i]);
        OrdinaryShift(channels, i + 1);
        assert channels[i + 1] == rest[i];
      }
    }
  }

  /** The business URL when `test` is set or not. */
  function BusinessUrlFor(test: bool): string
  {
    if test then TestBusinessUrl else BusinessUrl
  }

  /** `OkxWebsocket.public_uri(channels)`. */
  function PublicUri(test: bool, channels: seq<Channel>): (r: Py<string>)
    ensures r.Err? <==> AnyBusiness(channels).Err?
  {
    var business :- AnyBusiness(channels);
    Ok(if business then BusinessUrlFor(test) else if test then TestPublicUrl else PublicUrl)
  }

  /** `OkxWebsocket.private_uri(channels)`. */
  function PrivateUri(test: bool, channels: seq<Channel>): (r: Py<string>)
    ensures r.Err? <==> AnyBusiness(channels).Err?
  {
    var business :- AnyBusiness(channels);
    Ok(if business then BusinessUrlFor(test) else if test then TestPrivateUrl else PrivateUrl)
  }

  /** Named channels go to the business URL exactly when one of them is a business channel,
      otherwise to the public or the private URL. */
  lemma UriRouting(test: bool, channels: seq<Channel>)
    requires Named(channels)
    ensures PublicUri(test, channels) ==
              Ok(if HasBusiness(channels) then BusinessUrlFor(test) else if test then TestPublicUrl else PublicUrl)
    ensures PrivateUri(test, channels) ==
              Ok(if HasBusiness(channels) then BusinessUrlFor(test) else if test then TestPrivateUrl else PrivateUrl)
  {
    AnyBusinessNamed(channels);
  }

  /** Every URL a subscription can be given lies on the demo host when `test` is set and
      on the production host otherwise. */
  lemma UriHosts(test: bool, channels: seq<Channel>)
    requires Named(channels)
    ensures PublicUri(test, channels).Ok? && PrivateUri(test, channels).Ok?
    ensures StartsWith(PublicUri(test, channels).value, if test then TestHost else ProductionHost)
    ensures StartsWith(PrivateUri(test, channels).value, if test then TestHost else ProductionHost)
  {
    UriRouting(test, channels);
    var host := if test then TestHost else ProductionHost;
    var public := if HasBusiness(channels) then BusinessUrlFor(test) else if test then TestPublicUrl else PublicUrl;
    var private := if HasBusiness(channels) then BusinessUrlFor(test) else if test then TestPrivateUrl else PrivateUrl;
    assert public[..|host|] == host;
    assert private[..|host|] == host;
  }

  // ---------------------------------------------------------------- messages and frames

  /** A decoded JSON message. */
  type Msg = map<string, string>

  /** `process_result`: a message with an "event" key (a subscription acknowledgement or
      error) is dropped; any other message is passed on as decoded. */
  function ProcessResult(m: Msg): (r: Option<Msg>)
    ensures r.Some? <==> "event" !in m
    ensures r.Some? ==> r.value == m
  {
    if "event" in m then None else Some(m)
  }

  /** What `if res: yield res` lets through: a processed message that is a non-empty dict. */
  predicate Yieldable(m: Msg)
  {
    ProcessResult(m).Some? && ProcessResult(m).value != map[]
  }

  /** The messages of `ms` the stream yields, in order. */
  function Filter(ms: seq<Msg>): (r: seq<Msg>)
    ensures |r| <= |ms|
    ensures forall i :: 0 <= i < |r| ==> Yieldable(r[i])
  {
    if ms == [] then [] else (if Yieldable(ms[0]) then [ms[0]] else []) + Filter(ms[1..])
  }

  /** The stream drops exactly the event messages and the empty ones. */
  lemma {:induction false} FilterMembers(ms: seq<Msg>)
    ensures forall m :: m in Filter(ms) <==> m in ms && "event" !in m && m != map[]
  {
    if ms != [] {
      FilterMembers(ms[1..]);
      assert ms == [ms[0]] + ms[1..];
    }
  }

  /** A frame handed to `ws.send`: `{"op": op, "args": channels}`, the login frame, or the
      text "ping". */
  datatype Frame =
    | Request(op: string, args: seq<Channel>)
    | Login(apiKey: string, passphrase: string, timestamp: int, sign: string)
    | PingText

  const VerifyPath := "/users/self/verify"

  /** `PrivateSubscription.login_params()` with `timestamp` the local clock in whole
      seconds: the secret signs the timestamp's decimal text, "GET" and the verify path. */
  function LoginFrame(apiKey: string, secretKey: string, passphrase: string, timestamp: int, mac: Mac): (f: Frame)
    ensures f.Login? && f.apiKey == apiKey && f.passphrase == passphrase && f.timestamp == timestamp
  {
    Login(apiKey, passphrase, timestamp, Signature(mac, IntToStr(timestamp), "GET", VerifyPath, "", secretKey))
  }

  /** What the server checks: the sign is the MAC of the frame's own timestamp, read as
      decimal text, followed by "GET" and the verify path. */
  predicate LoginVerifies(mac: Mac, secretKey: string, f: Frame)
  {
    f.Login? && f.sign == mac(secretKey, IntToStr(f.timestamp) + "GET" + VerifyPath)
  }

  /** The login frame verifies against its own timestamp, the signed text is what
      `pre_hash` builds for a bodiless GET of the verify path, and the timestamp text in it
      reads back as the frame's timestamp. */
  lemma LoginFrameVerifies(apiKey: string, secretKey: string, passphrase: string, timestamp: int, mac: Mac)
    ensures LoginVerifies(mac, secretKey, LoginFrame(apiKey, secretKey, passphrase, timestamp, mac))
    ensures LoginFrame(apiKey, secretKey, passphrase, timestamp, mac).sign ==
              mac(secretKey, PreHash(IntToStr(timestamp), "GET", VerifyPath, ""))
    ensures ParseInt(IntToStr(LoginFrame(apiKey, secretKey, passphrase, timestamp, mac).timestamp)) == Some(timestamp)
  {
    assert Upper("GET") == "GET" by {
      var u := Upper("GET");
      assert u[0] == 'G' && u[1] == 'E' && u[2] == 'T';
    }
    assert SignedBody("") == "";
    var text := IntToStr(timestamp) + "GET" + VerifyPath;
    assert text + "" == text;
    ParseIntOfIntToStr(timestamp);
  }

  // ---------------------------------------------------------------- the peer

  /** What one `ws.recv()` brings: a text frame (its JSON decoding, `None` if it is not
      JSON), the `wait_for` time-out, or `ConnectionClosed`. A receive made without
      `wait_for` never times out; there `Timeout` stands for any other failure. */
  datatype Incoming = Text(decoded: Option<Msg>) | Timeout | Closed

  /** The connection and the server behind it: whether `connect` succeeds, whether the
      i-th `send` succeeds, and what the i-th `recv` brings. */
  datatype Peer = Peer(connects: bool, sendOk: nat -> bool, recv: nat -> Incoming)

  // ---------------------------------------------------------------- the stream loop

  /** How one pass of the `while True` loop ends: the messages it yields (none or one),
      the frames it sends (none or "ping"), and the index of the next receive. */
  datatype Step =
    | Continue(out: Option<Msg>, pinged: bool, next: nat)
    | Stop(end: LoopEnd, pinged: bool, next: nat)

  /** The messages a pass yields. */
  function Outs(out: Option<Msg>): seq<Msg>
  {
    if out.Some? then [out.value] else []
  }

  /** The frames a pass sends. */
  function Pings(pinged: bool): seq<Frame>
  {
    if pinged then [PingText] else []
  }

  /** How the loop ends: the consumer stopped asking (the generator stays suspended), the
      ping path broke out, or an exception escaped the generator. */
  datatype LoopEnd = Suspended | Broke | Threw(error: Raised)

  /** One pass, `r` being the index of the next receive and `s` that of the next send. A
      frame that is not JSON raises out of the generator; a time-out or closed connection
      sends "ping" and waits for one reply, breaking out if either fails. */
  function LoopStep(peer: Peer, r: nat, s: nat): (st: Step)
    ensures st.next == r + 1 || st.next == r + 2
    ensures st.Stop? ==> !st.end.Suspended?
    ensures st.Continue? && st.out.Some? ==> Yieldable(st.out.value)
  {
    match peer.recv(r)
    case Text(d) =>
      if d.None? then Stop(Threw(ValueError), false, r + 1)
      else Continue(if Yieldable(d.value) then Some(d.value) else None, false, r + 1)
    case _ =>
      if !peer.sendOk(s) then Stop(Broke, true, r + 1)
      else if peer.recv(r + 1).Text? then Continue(None, true, r + 2)
      else Stop(Broke, true, r + 2)
  }

  /** The messages yielded, how the loop ended, the frames it sent, and the index of the
      next receive. */
  datatype LoopRun = LoopRun(yielded: seq<Msg>, end: LoopEnd, sent: seq<Frame>, next: nat)

  /** `run` with messages yielded and frames sent before it. */
  function Prepend(ys: seq<Msg>, fs: seq<Frame>, run: LoopRun): LoopRun
  {
    LoopRun(ys + run.yielded, run.end, fs + run.sent, run.next)
  }

  /** The loop from receive `r` and send `s`, for at most `fuel` passes. */
  function Loop(peer: Peer, r: nat, s: nat, fuel: nat): (run: LoopRun)
    decreases fuel
  {
    if fuel == 0 then LoopRun([], Suspended, [], r)
    else
      var st := LoopStep(peer, r, s);
      if st.Stop? then LoopRun([], st.end, Pings(st.pinged), st.next)
      else Prepend(Outs(st.out), Pings(st.pinged), Loop(peer, st.next, if st.pinged then s + 1 else s, fuel - 1))
  }

  /** The loop yields only messages that pass `process_result` and are non-empty, and
      sends nothing but "ping". */
  lemma {:induction false} LoopShape(peer: Peer, r: nat, s: nat, fuel: nat)
    ensures var run := Loop(peer, r, s, fuel);
            (forall i :: 0 <= i < |run.yielded| ==> Yieldable(run.yielded[i])) &&
            (forall i :: 0 <= i < |run.sent| ==> run.sent[i] == PingText) && run.next >= r
    decreases fuel
  {
    if fuel > 0 {
      var st := LoopStep(peer, r, s);
      if st.Continue? {
        LoopShape(peer, st.next, if st.pinged then s + 1 else s, fuel - 1);
      }
    }
  }

  lemma PrependTwice(ys: seq<Msg>, fs: seq<Frame>, ys2: seq<Msg>, fs2: seq<Frame>, run: LoopRun)
    ensures Prepend(ys, fs, Prepend(ys2, fs2, run)) == Prepend(ys + ys2, fs + fs2, run)
  {
    assert ys + (ys2 + run.yielded) == (ys + ys2) + run.yielded;
    assert fs + (fs2 + run.sent) == (fs + fs2) + run.sent;
  }

  /** A pass that stops ends the loop there. */
  lemma StopUnfolds(peer: Peer, r: nat, s: nat, fuel: nat)
    requires fuel > 0 && LoopStep(peer, r, s).Stop?
    ensures var st := LoopStep(peer, r, s);
            Loop(peer, r, s, fuel) == LoopRun([], st.end, Pings(st.pinged), st.next)
  {
  }

  /** A pass that continues contributes its message and its ping, then the loop goes on. */
  lemma ContinueUnfolds(peer: Peer, r: nat, s: nat, fuel: nat)
    requires fuel > 0 && LoopStep(peer, r, s).Continue?
    ensures var st := LoopStep(peer, r, s);
            Loop(peer, r, s, fuel) ==
              Prepend(Outs(st.out), Pings(st.pinged), Loop(peer, st.next, if st.pinged then s + 1 else s, fuel - 1))
  {
  }

  /** `run` is what was done so far followed by the loop from receive `r` and send `s`
      with `left` passes to go. */
  predicate Tracks(peer: Peer, r: nat, s: nat, left: nat, run: LoopRun, ys: seq<Msg>, fs: seq<Frame>)
  {
    run == Prepend(ys, fs, Loop(peer, r, s, left))
  }

  /** A pass that stops closes the books: the run is what was done before plus its ping. */
  lemma StopTracks(peer: Peer, r: nat, s: nat, left: nat, run: LoopRun, ys: seq<Msg>, fs: seq<Frame>)
    requires left > 0 && LoopStep(peer, r, s).Stop?
    requires Tracks(peer, r, s, left, run, ys, fs)
    ensures var st := LoopStep(peer, r, s);
            run == LoopRun(ys, st.end, fs + Pings(st.pinged), st.next)
  {
    StopUnfolds(peer, r, s, left);
    assert ys + [] == ys;
  }

  /** The bookkeeping of one continuing pass: what it yields and sends moves from the
      rest of the loop to the part already done. */
  lemma ContinueTracks(peer: Peer, r: nat, s: nat, left: nat, run: LoopRun, ys: seq<Msg>, fs: seq<Frame>)
    requires left > 0 && LoopStep(peer, r, s).Continue?
    requires Tracks(peer, r, s, left, run, ys, fs)
    ensures var st := LoopStep(peer, r, s);
            Tracks(peer, st.next, s + |Pings(st.pinged)|, left - 1, run, ys + Outs(st.out), fs + Pings(st.pinged))
  {
    var st := LoopStep(peer, r, s);
    assert s + |Pings(st.pinged)| == if st.pinged then s + 1 else s;
    ContinueUnfolds(peer, r, s, left);
    PrependTwice(ys, fs, Outs(st.out), Pings(st.pinged), Loop(peer, st.next, s + |Pings(st.pinged)|, left - 1));
  }

  /** While messages keep arriving, the stream yields the non-event, non-empty ones in the
      order received and sends nothing. */
  lemma {:induction false} LoopYieldsFiltered(peer: Peer, r: nat, s: nat, fuel: nat, ms: seq<Msg>)
    requires |ms| <= fuel
    requires forall i :: 0 <= i < |ms| ==> peer.recv(r + i) == Text(Some(ms[i]))
    ensures Loop(peer, r, s, fuel) == Prepend(Filter(ms), [], Loop(peer, r + |ms|, s, fuel - |ms|))
    decreases |ms|
  {
    var later := Loop(peer, r + |ms|, s, fuel - |ms|);
    if ms == [] {
      assert Filter(ms) + later.yielded == later.yielded && [] + later.sent == later.sent;
    } else {
      var rest := ms[1..];
      forall i | 0 <= i < |rest| ensures peer.recv(r + 1 + i) == Text(Some(rest[i])) {
        assert peer.recv(r + (i + 1)) == Text(Some(ms[i + 1]));
      }
      LoopYieldsFiltered(peer, r + 1, s, fuel - 1, rest);
      assert r + 1 + |rest| == r + |ms| && fuel - 1 - |rest| == fuel - |ms|;
      assert Loop(peer, r + 1, s, fuel - 1) == Prepend(Filter(rest), [], later);
      assert peer.recv(r + 0) == Text(Some(ms[0]));
      MessageUnfolds(peer, r, s, fuel, ms[0]);
      var head: seq<Msg> := if Yieldable(ms[0]) then [ms[0]] else [];
      PrependTwice(head, [], Filter(rest), [], later);
      assert Filter(ms) == head + Filter(rest);
      var none: seq<Frame> := [];
      assert none + none == none;
    }
  }

  /** A pass that receives a decodable message yields it if it passes the filter, sends
      nothing, and the loop goes on from the next receive. */
  lemma MessageUnfolds(peer: Peer, r: nat, s: nat, fuel: nat, m: Msg)
    requires fuel > 0 && peer.recv(r) == Text(Some(m))
    ensures Loop(peer, r, s, fuel) == Prepend(if Yieldable(m) then [m] else [], [], Loop(peer, r + 1, s, fuel - 1))
  {
    ContinueUnfolds(peer, r, s, fuel);
    assert Outs(LoopStep(peer, r, s).out) == (if Yieldable(m) then [m] else []);
  }

  /** A time-out answered by a reply to the ping keeps the stream going, one "ping" sent. */
  lemma PingKeepsAlive(peer: Peer, r: nat, s: nat, fuel: nat)
    requires fuel > 0 && !peer.recv(r).Text? && peer.sendOk(s) && peer.recv(r + 1).Text?
    ensures var rest := Loop(peer, r + 2, s + 1, fuel - 1);
            Loop(peer, r, s, fuel) == LoopRun(rest.yielded, rest.end, [PingText] + rest.sent, rest.next)
  {
  }

  /** A time-out whose ping cannot be sent, or gets no reply, ends the loop. */
  lemma PingFailureBreaks(peer: Peer, r: nat, s: nat, fuel: nat)
    requires fuel > 0 && !peer.recv(r).Text? && !(peer.sendOk(s) && peer.recv(r + 1).Text?)
    ensures Loop(peer, r, s, fuel) == LoopRun([], Broke, [PingText], if peer.sendOk(s) then r + 2 else r + 1)
  {
  }

  // ---------------------------------------------------------------- teardown

  /** How many of the `n` receives from `r` return before the first that raises. */
  function Replies(peer: Peer, r: nat, n: nat): (k: nat)
    ensures k <= n
    decreases n
  {
    if n == 0 then 0 else if peer.recv(r).Text? then 1 + Replies(peer, r + 1, n - 1) else 0
  }

  /** A peer that answers all `n` receives lets all `n` return. */
  lemma {:induction false} RepliesAll(peer: Peer, r: nat, n: nat)
    requires forall j :: r <= j < r + n ==> peer.recv(j).Text?
    ensures Replies(peer, r, n) == n
    decreases n
  {
    if n > 0 {
      RepliesAll(peer, r + 1, n - 1);
    }
  }

  /** The error, the index of the next receive, and whether the socket was closed. */
  datatype Teardown = Teardown(error: Option<Raised>, next: nat, closes: bool)

  /** `unsubscribe()` on an open socket, for `n` channels, from receive `r` and send `s`:
      the unsubscribe frame, `n` receives, then `close`; the first failure raises. */
  function UnsubscribeRun(peer: Peer, n: nat, r: nat, s: nat): (t: Teardown)
    ensures t.closes <==> t.error.None?
  {
    if !peer.sendOk(s) then Teardown(Some(ConnectionClosed), r, false)
    else
      var k := Replies(peer, r, n);
      if k == n then Teardown(None, r + n, true) else Teardown(Some(ConnectionClosed), r + k + 1, false)
  }

  /** How the stream ends for the consumer: it stopped asking, the generator finished
      (after unsubscribing), or an exception reached the consumer. */
  datatype StreamEnd = Paused | Ended | Raising(error: Raised)

  /** What `async for` over the subscription observes and sends, in total. */
  datatype StreamOutcome = StreamOutcome(yielded: seq<Msg>, end: StreamEnd, frames: seq<Frame>, next: nat, closes: bool)

  /** `__aiter__` for at most `fuel` passes: the loop and, once it breaks, `unsubscribe`.
      Without a socket (`connect` failed in `subscribe`) the first receive raises
      AttributeError. */
  function StreamRun(peer: Peer, channels: seq<Channel>, connected: bool, r: nat, s: nat, fuel: nat)
    : (o: StreamOutcome)
    ensures o.end == Ended <==> o.closes
    ensures o.end == Ended ==> |o.frames| > 0 && o.frames[|o.frames| - 1] == Request("unsubscribe", channels)
  {
    if fuel == 0 then StreamOutcome([], Paused, [], r, false)
    else if !connected then StreamOutcome([], Raising(AttributeError("recv")), [], r, false)
    else
      var run := Loop(peer, r, s, fuel);
      match run.end
      case Suspended => StreamOutcome(run.yielded, Paused, run.sent, run.next, false)
      case Threw(e) => StreamOutcome(run.yielded, Raising(e), run.sent, run.next, false)
      case Broke =>
        var t := UnsubscribeRun(peer, |channels|, run.next, s + |run.sent|);
        StreamOutcome(run.yielded, if t.error.None? then Ended else Raising(t.error.value),
                      run.sent + [Request("unsubscribe", channels)], t.next, t.closes)
  }

  /** Once the loop breaks, exactly one unsubscribe frame with the subscription's channels
      follows the pings; a peer that takes it and answers once per channel sees the
      socket closed after exactly `len(channels)` more receives. */
  lemma StreamTeardown(peer: Peer, channels: seq<Channel>, r: nat, s: nat, fuel: nat)
    requires fuel > 0 && Loop(peer, r, s, fuel).end.Broke?
    ensures var run := Loop(peer, r, s, fuel);
            var o := StreamRun(peer, channels, true, r, s, fuel);
            o.yielded == run.yielded && o.frames == run.sent + [Request("unsubscribe", channels)]
    ensures var run := Loop(peer, r, s, fuel);
            var o := StreamRun(peer, channels, true, r, s, fuel);
            peer.sendOk(s + |run.sent|) && (forall j :: run.next <= j < run.next + |channels| ==> peer.recv(j).Text?) ==>
              o.end == Ended && o.closes && o.next == run.next + |channels|
  {
    var run := Loop(peer, r, s, fuel);
    if forall j :: run.next <= j < run.next + |channels| ==> peer.recv(j).Text? {
      RepliesAll(peer, run.next, |channels|);
    }
  }

  /** A frame that is not JSON ends the stream with its decoding error: the generator
      never reaches `unsubscribe`. */
  lemma UndecodableFrameSkipsTeardown(peer: Peer, channels: seq<Channel>, r: nat, s: nat, fuel: nat)
    requires fuel > 0 && peer.recv(r) == Text(None)
    ensures StreamRun(peer, channels, true, r, s, fuel) == StreamOutcome([], Raising(ValueError), [], r + 1, false)
  {
  }

  // ---------------------------------------------------------------- private handshake

  /** The frames a private `subscribe` sends on an open socket, the replies it reads, the
      error it logs, and whether it reached the subscription limiter. */
  datatype Handshake = Handshake(frames: seq<Frame>, replies: nat, logged: Option<Raised>, reachedSubscribe: bool)

  /** The private handshake from receive `r` and send `s`, given how the login limiter and
      the subscription limiter admit it: the login frame, one reply, the subscribe frame;
      the first failure is logged and ends it. */
  function PrivateHandshake(peer: Peer, r: nat, s: nat, login: Frame, channels: seq<Channel>,
                            loginAdmission: Admission, subAdmission: Admission): (h: Handshake)
    ensures h.replies <= 1
  {
    if loginAdmission.Wait? then Handshake([], 0, None, false)
    else if !peer.sendOk(s) then Handshake([login], 0, Some(ConnectionClosed), false)
    else if !peer.recv(r).Text? then Handshake([login], 1, Some(ConnectionClosed), false)
    else if subAdmission.Wait? then Handshake([login], 1, None, true)
    else Handshake([login, Request("subscribe", channels)], 1,
                   if peer.sendOk(s + 1) then None else Some(ConnectionClosed), true)
  }

  /** The login frame always goes first and the subscribe frame only after exactly one
      reply; with both limiters admitting and a cooperative peer, those two frames are all
      that is sent and nothing is logged. */
  lemma HandshakeOrder(peer: Peer, r: nat, s: nat, login: Frame, channels: seq<Channel>,
                       loginAdmission: Admission, subAdmission: Admission)
    ensures var h := PrivateHandshake(peer, r, s, login, channels, loginAdmission, subAdmission);
            h.frames == [login, Request("subscribe", channels)][..|h.frames|] &&
            (|h.frames| == 2 ==> h.replies == 1) && (h.reachedSubscribe ==> h.replies == 1)
    ensures loginAdmission.Granted? && subAdmission.Granted? && peer.sendOk(s) && peer.sendOk(s + 1) &&
            peer.recv(r).Text? ==>
              PrivateHandshake(peer, r, s, login, channels, loginAdmission, subAdmission) ==
                Handshake([login, Request("subscribe", channels)], 1, None, true)
  {
    var h := PrivateHandshake(peer, r, s, login, channels, loginAdmission, subAdmission);
    assert [login, Request("subscribe", channels)][..1] == [login];
    assert [login, Request("subscribe", channels)][..2] == [login, Request("subscribe", channels)];
  }

  // ---------------------------------------------------------------- the subscription object

  /** `PublicSubscription` / `PrivateSubscription`: the URI and channels are fixed at
      construction; `subscribe` opens the socket, and the socket's traffic is recorded as
      the frames handed to `send`, the number of `recv` calls made, and whether it was
      closed. */
  class Subscription {
    const uri: string
    const channels: seq<Channel>
    const peer: Peer
    var connected: bool
    var sent: seq<Frame>
    var recvCalls: nat
    var closed: bool

    /** `PublicSubscription(uri, channels)`; its logger name reads every channel's
        "channel" key, so the channels are named. */
    constructor (uri: string, channels: seq<Channel>, peer: Peer)
      requires Named(channels)
      ensures this.uri == uri && this.channels == channels && this.peer == peer
      ensures !connected && sent == [] && recvCalls == 0 && !closed
    {
      this.uri := uri;
      this.channels := channels;
      this.peer := peer;
      connected := false;
      sent := [];
      recvCalls := 0;
      closed := false;
    }

    /** `async with limiter: await self.ws.send(frame)` entered at `now` and left at
        `done`: once admitted, the frame is handed to the socket and the permit given
        back; `ok` says whether the send went through. A call held back sends nothing. */
    method SendUnder(limiter: RateLimiter, frame: Frame, now: real, done: real) returns (admission: Admission, ok: bool)
      requires limiter.Valid()
      modifies this, limiter
      ensures limiter.Valid() && admission == AcquireStep(old(limiter.State()), now).0
      ensures recvCalls == old(recvCalls) && connected == old(connected) && closed == old(closed)
      ensures admission.Wait? ==> sent == old(sent) && limiter.State() == AcquireStep(old(limiter.State()), now).1
      ensures admission.Granted? ==>
                sent == old(sent) + [frame] && ok == peer.sendOk(|old(sent)|) &&
                limiter.State() == ReleaseStep(AcquireStep(old(limiter.State()), now).1, done)
    {
      admission := limiter.Acquire(now);
      if admission.Wait? {
        return admission, false;
      }
      sent := sent + [frame];
      ok := peer.sendOk(|sent| - 1);
      limiter.Release(done);
    }

    /** `PublicSubscription.subscribe()` with the class-level `RateLimiter(240, 3600)`
        entered at `now` and left at `done`: connect, then one subscribe frame with the
        channels under the limiter. Every failure is logged, never raised. */
    method Subscribe(limiter: RateLimiter, now: real, done: real) returns (admission: Option<Admission>, logged: Option<Raised>)
      requires limiter.Valid()
      modifies this, limiter
      ensures limiter.Valid() && recvCalls == old(recvCalls)
      ensures !peer.connects ==>
                admission == None && logged == Some(ConnectFailed) && connected == old(connected) &&
                sent == old(sent) && closed == old(closed) && limiter.State() == old(limiter.State())
      ensures peer.connects ==>
                connected && !closed && admission == Some(AcquireStep(old(limiter.State()), now).0)
      ensures peer.connects && admission.value.Wait? ==>
                sent == old(sent) && logged == None && limiter.State() == AcquireStep(old(limiter.State()), now).1
      ensures peer.connects && admission.value.Granted? ==>
                sent == old(sent) + [Request("subscribe", channels)] &&
                logged == (if peer.sendOk(|old(sent)|) then None else Some(ConnectionClosed)) &&
                limiter.State() == ReleaseStep(AcquireStep(old(limiter.State()), now).1, done)
    {
      if !peer.connects {
        return None, Some(ConnectFailed);
      }
      connected := true;
      closed := false;
      var a, ok := SendUnder(limiter, Request("subscribe", channels), now, done);
      admission := Some(a);
      logged := if a.Granted? && !ok then Some(ConnectionClosed) else None;
    }

    /** `PrivateSubscription.subscribe()`: connect; the login frame under the class-level
        `RateLimiter(1, 1)` entered at `loginAt` and left at `loginDone`; one reply read;
        then the subscribe frame under the subscription limiter entered at `subAt` and
        left at `subDone`. Every failure is logged, never raised. */
    method SubscribePrivate(loginLimiter: RateLimiter, subLimiter: RateLimiter,
                            apiKey: string, secretKey: string, passphrase: string, timestamp: int, mac: Mac,
                            loginAt: real, loginDone: real, subAt: real, subDone: real)
      returns (h: Handshake)
      requires loginLimiter != subLimiter && loginLimiter.Valid() && subLimiter.Valid()
      modifies this, loginLimiter, subLimiter
      ensures loginLimiter.Valid() && subLimiter.Valid()
      ensures !peer.connects ==>
                h == Handshake([], 0, Some(ConnectFailed), false) && connected == old(connected) &&
                sent == old(sent) && recvCalls == old(recvCalls) && closed == old(closed) &&
                loginLimiter.State() == old(loginLimiter.State()) && subLimiter.State() == old(subLimiter.State())
      ensures peer.connects ==>
                var login := AcquireStep(old(loginLimiter.State()), loginAt);
                var sub := AcquireStep(old(subLimiter.State()), subAt);
                h == PrivateHandshake(peer, old(recvCalls), |old(sent)|,
                                      LoginFrame(apiKey, secretKey, passphrase, timestamp, mac), channels,
                                      login.0, sub.0) &&
                connected && !closed && sent == old(sent) + h.frames && recvCalls == old(recvCalls) + h.replies &&
                loginLimiter.State() == (if login.0.Wait? then login.1 else ReleaseStep(login.1, loginDone)) &&
                subLimiter.State() == (if !h.reachedSubscribe then old(subLimiter.State())
                                       else if sub.0.Wait? then sub.1 else ReleaseStep(sub.1, subDone))
    {
      if !peer.connects {
        return Handshake([], 0, Some(ConnectFailed), false);
      }
      connected := true;
      closed := false;
      var login := LoginFrame(apiKey, secretKey, passphrase, timestamp, mac);
      var loginAdmission, sendOk := SendUnder(loginLimiter, login, loginAt, loginDone);
      if loginAdmission.Wait? {
        return Handshake([], 0, None, false);
      }
      if !sendOk {
        return Handshake([login], 0, Some(ConnectionClosed), false);
      }
      var reply := peer.recv(recvCalls);
      recvCalls := recvCalls + 1;
      if !reply.Text? {
        return Handshake([login], 1, Some(ConnectionClosed), false);
      }
      var subAdmission, subOk := SendUnder(subLimiter, Request("subscribe", channels), subAt, subDone);
      if subAdmission.Wait? {
        return Handshake([login], 1, None, true);
      }
      h := Handshake([login, Request("subscribe", channels)], 1, if subOk then None else Some(ConnectionClosed), true);
    }

    /** `unsubscribe()`: one unsubscribe frame with the same channels, `len(channels)`
        receives, then `close`; a failure raises. Without a socket, `send` raises
        AttributeError. */
    method Unsubscribe() returns (error: Option<Raised>)
      modifies this
      ensures connected == old(connected)
      ensures !old(connected) ==>
                error == Some(AttributeError("send")) && sent == old(sent) && recvCalls == old(recvCalls) &&
                closed == old(closed)
      ensures old(connected) ==>
                var t := UnsubscribeRun(peer, |channels|, old(recvCalls), |old(sent)|);
                sent == old(sent) + [Request("unsubscribe", channels)] && error == t.error &&
                recvCalls == t.next && closed == (old(closed) || t.closes)
    {
      if !connected {
        return Some(AttributeError("send"));
      }
      sent := sent + [Request("unsubscribe", channels)];
      if !peer.sendOk(|sent| - 1) {
        return Some(ConnectionClosed);
      }
      var i := 0;
      while i < |channels|
        invariant 0 <= i <= |channels|
        invariant recvCalls == old(recvCalls) + i
        invariant Replies(peer, old(recvCalls), |channels|) == i + Replies(peer, recvCalls, |channels| - i)
        invariant sent == old(sent) + [Request("unsubscribe", channels)] && closed == old(closed)
        invariant connected == old(connected)
      {
        var reply := peer.recv(recvCalls);
        recvCalls := recvCalls + 1;
        if !reply.Text? {
          return Some(ConnectionClosed);
        }
        i := i + 1;
      }
      closed := true;
      error := None;
    }

    /** One pass of the `while True` loop on an open socket: the receive under
        `wait_for`, and after a time-out or a closed connection the "ping" and the one
        receive for its reply. */
    method Pass() returns (step: Step)
      modifies this
      ensures step == LoopStep(peer, old(recvCalls), |old(sent)|)
      ensures recvCalls == step.next && sent == old(sent) + Pings(step.pinged)
      ensures connected == old(connected) && closed == old(closed)
    {
      var incoming := peer.recv(recvCalls);
      recvCalls := recvCalls + 1;
      if incoming.Text? {
        if incoming.decoded.None? {
          return Stop(Threw(ValueError), false, recvCalls);
        }
        var res := ProcessResult(incoming.decoded.value);
        return Continue(if res.Some? && res.value != map[] then res else None, false, recvCalls);
      }
      sent := sent + [PingText];
      if !peer.sendOk(|sent| - 1) {
        return Stop(Broke, true, recvCalls);
      }
      var reply := peer.recv(recvCalls);
      recvCalls := recvCalls + 1;
      if !reply.Text? {
        return Stop(Broke, true, recvCalls);
      }
      step := Continue(None, true, recvCalls);
    }

    /** One pass with the loop's books kept: `run` is the whole loop, `ys` and `fs` what
        it has yielded and sent so far. */
    method Advance(left: nat, ghost run: LoopRun, ghost ys: seq<Msg>, ghost fs: seq<Frame>)
      returns (out: seq<Msg>, stop: Option<LoopEnd>, ghost ping: seq<Frame>)
      requires left > 0 && Tracks(peer, recvCalls, |sent|, left, run, ys, fs)
      modifies this
      ensures sent == old(sent) + ping && connected == old(connected) && closed == old(closed)
      ensures stop.None? ==> Tracks(peer, recvCalls, |sent|, left - 1, run, ys + out, fs + ping)
      ensures stop.Some? ==> run == LoopRun(ys, stop.value, fs + ping, recvCalls)
    {
      ghost var r, s := recvCalls, |sent|;
      var step := Pass();
      ping := Pings(step.pinged);
      if step.Stop? {
        StopTracks(peer, r, s, left, run, ys, fs);
        return [], Some(step.end), ping;
      }
      ContinueTracks(peer, r, s, left, run, ys, fs);
      out := Outs(step.out);
      stop := None;
    }

    /** The `while True` loop on an open socket for at most `fuel` passes. */
    method Drive(fuel: nat) returns (yielded: seq<Msg>, end: LoopEnd)
      modifies this
      ensures var run := Loop(peer, old(recvCalls), |old(sent)|, fuel);
              yielded == run.yielded && end == run.end && sent == old(sent) + run.sent && recvCalls == run.next
      ensures connected == old(connected) && closed == old(closed)
    {
      ghost var run := Loop(peer, recvCalls, |sent|, fuel);
      ghost var sent0 := sent;
      ghost var pings: seq<Frame> := [];
      yielded := [];
      assert [] + run.yielded == run.yielded && [] + run.sent == run.sent;
      assert sent == sent0 + pings;
      var left: nat := fuel;
      while left > 0
        invariant left <= fuel && connected == old(connected) && closed == old(closed)
        invariant sent == sent0 + pings
        invariant Tracks(peer, recvCalls, |sent|, left, run, yielded, pings)
        decreases left
      {
        var out, stop, ping := Advance(left, run, yielded, pings);
        assert sent == sent0 + (pings + ping) by {
          assert (sent0 + pings) + ping == sent0 + (pings + ping);
        }
        pings := pings + ping;
        if stop.Some? {
          return yielded, stop.value;
        }
        yielded := yielded + out;
        left := left - 1;
      }
      assert Loop(peer, recvCalls, |sent|, 0) == LoopRun([], Suspended, [], recvCalls);
      assert yielded + [] == yielded && pings + [] == pings;
      end := Suspended;
    }

    /** `async for res in subscription`, the consumer asking for at most `fuel` passes of
        the loop: the messages yielded, in order, and how the stream ended. Once the loop
        breaks, `unsubscribe` runs. */
    method Stream(fuel: nat) returns (yielded: seq<Msg>, end: StreamEnd)
      modifies this
      ensures var o := StreamRun(peer, channels, old(connected), old(recvCalls), |old(sent)|, fuel);
              yielded == o.yielded && end == o.end && sent == old(sent) + o.frames &&
              recvCalls == o.next && closed == (old(closed) || o.closes) && connected == old(connected)
    {
      if fuel == 0 {
        return [], Paused;
      }
      if !connected {
        return [], Raising(AttributeError("recv"));
      }
      var loopEnd;
      yielded, loopEnd := Drive(fuel);
      match loopEnd
      case Suspended => end := Paused;
      case Threw(e) => end := Raising(e);
      case Broke =>
        var error := Unsubscribe();
        end := if error.None? then Ended else Raising(error.value);
    }
  }

  // ---------------------------------------------------------------- OkxWebsocket

  /** `OkxWebsocket.subscribe_public(channels)`: the URI is chosen, the subscription built
      (its logger name reads every "channel" key) and subscribed. */
  method SubscribePublic(test: bool, channels: seq<Channel>, peer: Peer, limiter: RateLimiter, now: real, done: real)
    returns (r: Py<Subscription>)
    requires limiter.Valid() && IsSubscriptionLimiter(limiter)
    modifies limiter
    ensures limiter.Valid()
    ensures r.Err? <==> !Named(channels)
    ensures r.Err? ==> r.error == KeyError("channel") && limiter.State() == old(limiter.State())
    ensures r.Ok? ==> fresh(r.value) && PublicUri(test, channels) == Ok(r.value.uri) &&
                      r.value.channels == channels && r.value.connected == peer.connects
    // the subscribe frame goes out only when connected and admitted; the limiter is left
    // as the admission and its release leave it
    ensures r.Ok? ==>
              var a := AcquireStep(old(limiter.State()), now);
              !r.value.closed && r.value.recvCalls == 0 &&
              r.value.sent == (if peer.connects && a.0.Granted? then [Request("subscribe", channels)] else []) &&
              limiter.State() == (if !peer.connects then old(limiter.State())
                                  else if a.0.Wait? then a.1 else ReleaseStep(a.1, done))
  {
    var uri := PublicUri(test, channels);
    if uri.Err? {
      AnyBusinessNamedOrRaises(channels);
      return Err(uri.error);
    }
    if !Named(channels) {
      return Err(KeyError("channel"));
    }
    var ps := new Subscription(uri.value, channels, peer);
    var admission, logged := ps.Subscribe(limiter, now, done);
    r := Ok(ps);
  }

  /** `OkxWebsocket.subscribe_private(channels)`, with the credentials of the client and the
      local clock `timestamp`. */
  method SubscribePrivateChannels(test: bool, channels: seq<Channel>, peer: Peer,
                                  loginLimiter: RateLimiter, subLimiter: RateLimiter,
                                  apiKey: string, secretKey: string, passphrase: string, timestamp: int, mac: Mac,
                                  loginAt: real, loginDone: real, subAt: real, subDone: real)
    returns (r: Py<Subscription>)
    requires loginLimiter != subLimiter && loginLimiter.Valid() && subLimiter.Valid()
    requires IsLoginLimiter(loginLimiter) && IsSubscriptionLimiter(subLimiter)
    modifies loginLimiter, subLimiter
    ensures loginLimiter.Valid() && subLimiter.Valid()
    ensures r.Err? <==> !Named(channels)
    ensures r.Err? ==> r.error == KeyError("channel") &&
                       loginLimiter.State() == old(loginLimiter.State()) && subLimiter.State() == old(subLimiter.State())
    ensures r.Ok? ==> fresh(r.value) && PrivateUri(test, channels) == Ok(r.value.uri) &&
                      r.value.channels == channels && r.value.connected == peer.connects
    // when connected, the frames sent, the replies read and both limiters are those of the
    // login-then-subscribe handshake; otherwise nothing is sent and no limiter is touched
    ensures r.Ok? && peer.connects ==>
              var login := AcquireStep(old(loginLimiter.State()), loginAt);
              var sub := AcquireStep(old(subLimiter.State()), subAt);
              var h := PrivateHandshake(peer, 0, 0, LoginFrame(apiKey, secretKey, passphrase, timestamp, mac),
                                        channels, login.0, sub.0);
              !r.value.closed && r.value.sent == h.frames && r.value.recvCalls == h.replies &&
              loginLimiter.State() == (if login.0.Wait? then login.1 else ReleaseStep(login.1, loginDone)) &&
              subLimiter.State() == (if !h.reachedSubscribe then old(subLimiter.State())
                                     else if sub.0.Wait? then sub.1 else ReleaseStep(sub.1, subDone))
    ensures r.Ok? && !peer.connects ==>
              !r.value.closed && r.value.sent == [] && r.value.recvCalls == 0 &&
              loginLimiter.State() == old(loginLimiter.State()) && subLimiter.State() == old(subLimiter.State())
  {
    var uri := PrivateUri(test, channels);
    if uri.Err? {
      AnyBusinessNamedOrRaises(channels);
      return Err(uri.error);
    }
    if !Named(channels) {
      return Err(KeyError("channel"));
    }
    var ps := new Subscription(uri.value, channels, peer);
    var h := ps.SubscribePrivate(loginLimiter, subLimiter, apiKey, secretKey, passphrase, timestamp, mac,
                                 loginAt, loginDone, subAt, subDone);
    r := Ok(ps);
  }

  /** `any` over named channels never raises. */
  lemma AnyBusinessNamedOrRaises(channels: seq<Channel>)
    ensures AnyBusiness(channels).Err? ==> !Named(channels)
  {
    if Named(channels) {
      AnyBusinessNamed(channels);
    }
  }
}
