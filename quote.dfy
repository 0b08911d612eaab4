/** onetoken/quote.py: the market-data session.

    `Quote` keeps the subscription registry (`data_queue`, one FIFO of parsed
    data per subscription key, and `queue_handlers`, the `on_update` callbacks
    of each key), the connection flags `connected` and `authorized`, and the
    time of the last pong. The socket is the flag `wsOpen`; frames written to
    it are appended to `sent`. The work the source spreads over threads (the
    connect loop, the receive loop, the heartbeat loop) is given here as the
    steps each of them takes, each run on its own. */
module Quote {
  import opened Wrappers
  import opened Json

  type HandlerId = nat

  /** A subscription key: the dict `json.dumps(..., sort_keys=True)` writes.
      Sorting the keys makes the written text depend on the entries only, so
      the key is modelled as a map from field name to value. */
  type SubKey = map<string, JsonValue>

  const CandleSub: string := "subscribe-single-candle"
  const CandleKeyUri: string := "single-candle"

  /** Frames the session writes: `{'uri': 'auth'}`, `{'uri': 'ping'}`, and a
      subscription message with its fields. */
  datatype Outbound = Auth | Ping | Subscribe(message: map<string, JsonValue>)

  lemma AppendAssoc<T>(a: seq<T>, b: seq<T>, c: seq<T>)
    ensures (a + b) + c == a + (b + c)
  {
  }

  /** The uri a key records: a single-candle subscription is filed under
      'single-candle'. */
  function KeyUri(uri: string): (r: string)
    ensures r != CandleSub
    ensures uri == CandleSub ==> r == CandleKeyUri
    ensures uri != CandleSub ==> r == uri
  {
    if uri == CandleSub then CandleKeyUri else uri
  }

  /** `{'uri': uri, **kwargs}`: the subscription message as sent. */
  function Message(uri: string, args: map<string, JsonValue>): (m: map<string, JsonValue>)
    requires "uri" !in args
    ensures m.Keys == args.Keys + {"uri"} && m["uri"] == JStr(uri)
    ensures m - {"uri"} == args
  {
    var m := args["uri" := JStr(uri)];
    assert m - {"uri"} == args;
    m
  }

  /** The key `subscribe_data` files a subscription under: the message with
      the uri replaced by `KeyUri(uri)`. */
  function SubscriptionKey(uri: string, args: map<string, JsonValue>): (k: SubKey)
    requires "uri" !in args
    ensures k.Keys == args.Keys + {"uri"} && k["uri"] == JStr(KeyUri(uri))
    ensures k - {"uri"} == args
    ensures uri != CandleSub ==> k == Message(uri, args)
  {
    Message(KeyUri(uri), args)
  }

  /** The shape of every key `subscribe_data` makes. */
  predicate KeyShaped(k: SubKey) {
    "uri" in k && k["uri"].JStr? && k["uri"].s != CandleSub
  }

  /** Two subscriptions share a key exactly when their arguments agree and
      their uris agree once a single-candle uri is renamed. */
  lemma SameKeyIff(u1: string, a1: map<string, JsonValue>, u2: string, a2: map<string, JsonValue>)
    requires "uri" !in a1 && "uri" !in a2
    ensures SubscriptionKey(u1, a1) == SubscriptionKey(u2, a2) <==> a1 == a2 && KeyUri(u1) == KeyUri(u2)
  {
    var k1, k2 := SubscriptionKey(u1, a1), SubscriptionKey(u2, a2);
    if k1 == k2 {
      assert k1["uri"] == k2["uri"];
      assert k1 - {"uri"} == k2 - {"uri"};
    }
  }

  /** 'subscribe-single-candle' and 'single-candle' subscriptions with the
      same arguments share one queue, while the message keeps the uri given. */
  lemma CandleAlias(args: map<string, JsonValue>)
    requires "uri" !in args
    ensures SubscriptionKey(CandleSub, args) == SubscriptionKey(CandleKeyUri, args)
    ensures Message(CandleSub, args)["uri"] == JStr(CandleSub)
    ensures SubscriptionKey(CandleSub, args) != Message(CandleSub, args)
  {
    SameKeyIff(CandleSub, args, CandleKeyUri, args);
    assert Message(CandleSub, args)["uri"] != SubscriptionKey(CandleSub, args)["uri"];
  }

  /** The uri and arguments `subscribe_data(**json.loads(q_key))` is called
      with when a key is replayed. */
  function ReplayUri(k: SubKey): string
    requires KeyShaped(k)
  {
    k["uri"].s
  }

  /** Replaying a key subscribes under that same key and sends the key's own
      fields: for a single-candle key, that is the uri 'single-candle'. */
  lemma {:induction false} ReplayKeyIsStable(k: SubKey)
    requires KeyShaped(k)
    ensures "uri" !in k - {"uri"}
    ensures SubscriptionKey(ReplayUri(k), k - {"uri"}) == k
    ensures Message(ReplayUri(k), k - {"uri"}) == k
  {
    var args := k - {"uri"};
    var m := Message(ReplayUri(k), args);
    assert m.Keys == k.Keys;
    assert forall f :: f in k ==> m[f] == k[f];
  }

  // ---------------------------------------------------------------------------
  // Received frames

  /** What `recv_data` returns: a text or binary frame with what `json.loads`
      (after `gzip.decompress` for binary) made of it, None when that raised;
      a close frame; any other opcode. */
  datatype Frame = DataFrame(decoded: Option<JsonValue>) | CloseFrame | OtherFrame

  /** A frame and the clock reading `arrow.now().timestamp` when it was read. */
  datatype Received = Received(frame: Frame, at: int)

  /** What `data_parser(data)` does: raise, return a None key, or return a
      key and the parsed object. */
  datatype Parsed = ParserRaised | UnknownMessage | ParsedData(key: SubKey, datum: JsonValue)

  /** The effect of one frame on the receive loop. */
  datatype Effect = Ignore | RecordPong | Authorize | Enqueue(key: SubKey, datum: JsonValue) | Stop

  /** `data.get('uri', 'data')`. */
  function UriOf(d: Dict): (u: JsonValue)
    ensures "uri" !in KeysOf(d) ==> u == JStr("data")
  {
    Lookup(d, "uri").GetOr(JStr("data"))
  }

  /** The uris the receive loop handles itself. */
  predicate ControlUri(u: JsonValue) {
    u == JStr("pong") || u == JStr("auth") || u == JStr("subscribe-single-tick-verbose") || u == JStr(CandleSub)
  }

  /** The per-frame branch of the receive loop. Close and other opcodes end
      the loop; a frame that failed to decode, or whose value is not an
      object (so `.get` raises), is dropped by the loop's `except`; 'pong'
      and 'auth' are handled; the two subscription acks are only logged;
      everything else, a frame without uri included, goes to the parser. */
  function Classify(frame: Frame, parser: JsonValue -> Parsed): (e: Effect)
    ensures e == Stop <==> !frame.DataFrame?
    ensures e == RecordPong <==> (frame.DataFrame? && frame.decoded.Some? && frame.decoded.value.JObject?
                                 && UriOf(frame.decoded.value.fields) == JStr("pong"))
    ensures e == Authorize <==> (frame.DataFrame? && frame.decoded.Some? && frame.decoded.value.JObject?
                                 && UriOf(frame.decoded.value.fields) == JStr("auth"))
    ensures e.Enqueue? <==> (frame.DataFrame? && frame.decoded.Some? && frame.decoded.value.JObject?
                             && !ControlUri(UriOf(frame.decoded.value.fields))
                             && parser(frame.decoded.value).ParsedData?)
    ensures e.Enqueue? ==> parser(frame.decoded.value) == ParsedData(e.key, e.datum)
  {
    match frame
    case CloseFrame => Stop
    case OtherFrame => Stop
    case DataFrame(decoded) =>
      match decoded
      case None => Ignore
      case Some(data) =>
        if !data.JObject? then Ignore
        else
          var uri := UriOf(data.fields);
          if uri == JStr("pong") then RecordPong
          else if uri == JStr("auth") then Authorize
          else if ControlUri(uri) then Ignore
          else match parser(data)
            case ParsedData(k, datum) => Enqueue(k, datum)
            case _ => Ignore
  }

  /** A frame without a uri is a data frame: it goes to the parser. */
  lemma NoUriGoesToParser(d: Dict, parser: JsonValue -> Parsed)
    requires "uri" !in KeysOf(d)
    ensures Classify(DataFrame(Some(JObject(d))), parser)
         == match parser(JObject(d)) case ParsedData(k, x) => Enqueue(k, x) case _ => Ignore
  {
  }

  /** The part of the session the receive loop changes. */
  datatype Feed = Feed(pong: int, authorized: bool, queues: map<SubKey, seq<JsonValue>>)

  /** One effect at clock reading `now`: parsed data joins its queue only
      when that key is already subscribed. */
  function Apply(f: Feed, e: Effect, now: int): Feed {
    match e
    case RecordPong => f.(pong := now)
    case Authorize => f.(authorized := true)
    case Enqueue(k, x) => if k in f.queues then f.(queues := f.queues[k := f.queues[k] + [x]]) else f
    case _ => f
  }

  /** The receive loop over `frames`, up to the first frame that ends it. */
  function Absorb(f: Feed, frames: seq<Received>, parser: JsonValue -> Parsed): Feed
    decreases |frames|
  {
    if frames == [] then f
    else
      var e := Classify(frames[0].frame, parser);
      if e == Stop then f else Absorb(Apply(f, e, frames[0].at), frames[1..], parser)
  }

  /** The data the loop enqueues for key `k`, in arrival order. */
  function Arrivals(frames: seq<Received>, parser: JsonValue -> Parsed, k: SubKey): seq<JsonValue>
    decreases |frames|
  {
    if frames == [] then []
    else
      var e := Classify(frames[0].frame, parser);
      if e == Stop then []
      else (if e.Enqueue? && e.key == k then [e.datum] else []) + Arrivals(frames[1..], parser, k)
  }

  /** One effect never creates a queue and adds at most its own datum to its
      own key's queue. */
  lemma ApplyQueues(f: Feed, e: Effect, now: int, k: SubKey)
    ensures Apply(f, e, now).queues.Keys == f.queues.Keys
    ensures k in f.queues ==>
      Apply(f, e, now).queues[k] == f.queues[k] + (if e.Enqueue? && e.key == k then [e.datum] else [])
  {
  }

  /** The receive loop never creates a queue, and each subscribed queue gets
      exactly its key's data, in arrival order, after what it held. */
  lemma {:induction false} AbsorbAppends(f: Feed, frames: seq<Received>, parser: JsonValue -> Parsed, k: SubKey)
    ensures Absorb(f, frames, parser).queues.Keys == f.queues.Keys
    ensures k in f.queues ==> Absorb(f, frames, parser).queues[k] == f.queues[k] + Arrivals(frames, parser, k)
    decreases |frames|
  {
    if frames != [] {
      var e := Classify(frames[0].frame, parser);
      if e != Stop {
        var g := Apply(f, e, frames[0].at);
        ApplyQueues(f, e, frames[0].at, k);
        AbsorbAppends(g, frames[1..], parser, k);
        if k in f.queues {
          var mine: seq<JsonValue> := if e.Enqueue? && e.key == k then [e.datum] else [];
          assert Arrivals(frames, parser, k) == mine + Arrivals(frames[1..], parser, k);
          AppendAssoc(f.queues[k], mine, Arrivals(frames[1..], parser, k));
        }
      }
    }
  }

  /** The last pong time is that of the last pong frame before the loop
      ends, or the old one when there was none. */
  lemma {:induction false} AbsorbPongIsLatest(f: Feed, frames: seq<Received>, parser: JsonValue -> Parsed)
    ensures var p := Absorb(f, frames, parser).pong;
      p == f.pong || exists i :: 0 <= i < |frames| && Classify(frames[i].frame, parser) == RecordPong && p == frames[i].at
    decreases |frames|
  {
    if frames != [] {
      var e := Classify(frames[0].frame, parser);
      if e != Stop {
        var g := Apply(f, e, frames[0].at);
        AbsorbPongIsLatest(g, frames[1..], parser);
        var p := Absorb(g, frames[1..], parser).pong;
        if p != g.pong {
          var i :| 0 <= i < |frames[1..]| && Classify(frames[1..][i].frame, parser) == RecordPong && p == frames[1..][i].at;
          assert frames[i + 1] == frames[1..][i];
        } else if e == RecordPong {
          assert p == frames[0].at;
        }
      }
    }
  }

  /** Whether some frame ends the loop (a close frame or another opcode), as
      opposed to the frames running out. */
  predicate Stopped(frames: seq<Received>, parser: JsonValue -> Parsed)
    decreases |frames|
  {
    frames != [] && (Classify(frames[0].frame, parser) == Stop || Stopped(frames[1..], parser))
  }

  /** The loop stops exactly at a frame of another opcode than text or binary. */
  lemma {:induction false} StoppedIff(frames: seq<Received>, parser: JsonValue -> Parsed)
    ensures Stopped(frames, parser) <==> exists i :: 0 <= i < |frames| && !frames[i].frame.DataFrame?
    decreases |frames|
  {
    if frames != [] {
      StoppedIff(frames[1..], parser);
      if Stopped(frames[1..], parser) {
        var i :| 0 <= i < |frames[1..]| && !frames[1..][i].frame.DataFrame?;
        assert frames[i + 1] == frames[1..][i];
      }
      if exists i :: 0 <= i < |frames| && !frames[i].frame.DataFrame? {
        var i :| 0 <= i < |frames| && !frames[i].frame.DataFrame?;
        if i > 0 {
          assert frames[1..][i - 1] == frames[i];
        }
      }
    }
  }

  /** `Stopped` from position `i`, one frame at a time. */
  lemma StoppedFrom(frames: seq<Received>, i: nat, parser: JsonValue -> Parsed)
    requires i < |frames|
    ensures Stopped(frames[i..], parser)
        == (Classify(frames[i].frame, parser) == Stop || Stopped(frames[i + 1..], parser))
  {
    assert frames[i..][0] == frames[i] && frames[i..][1..] == frames[i + 1..];
  }

  /** `Absorb` from position `i`, one frame at a time. */
  lemma AbsorbFrom(f: Feed, frames: seq<Received>, i: nat, parser: JsonValue -> Parsed)
    requires i < |frames|
    ensures var e := Classify(frames[i].frame, parser);
      Absorb(f, frames[i..], parser)
        == if e == Stop then f else Absorb(Apply(f, e, frames[i].at), frames[i + 1..], parser)
  {
    assert frames[i..][0] == frames[i] && frames[i..][1..] == frames[i + 1..];
  }

  // ---------------------------------------------------------------------------
  // Heartbeat and reconnect back-off

  /** The heartbeat's choice while the socket is open: a pong older than 20
      seconds closes the socket, otherwise a ping is sent. */
  predicate HeartBeatLost(now: int, pong: int) {
    now - pong > 20
  }

  /** `sleep_seconds` after an attempt: reset to 2 after a success, doubled
      up to 64 after a failure. */
  function NextDelay(delay: nat, ok: bool): (d: nat)
    requires 2 <= delay <= 64
    ensures 2 <= d <= 64
    ensures ok ==> d == 2
    ensures !ok ==> d >= delay && (delay <= 32 ==> d == 2 * delay)
  {
    if ok then 2 else if delay * 2 < 64 then delay * 2 else 64
  }

  /** The sleeps of the connect loop for the attempt outcomes `outcomes`
      (true: connected), from the delay `delay`: a failure sleeps the current
      delay. */
  function Delays(outcomes: seq<bool>, delay: nat): seq<nat>
    requires 2 <= delay <= 64
    decreases |outcomes|
  {
    if outcomes == [] then []
    else (if outcomes[0] then [] else [delay]) + Delays(outcomes[1..], NextDelay(delay, outcomes[0]))
  }

  /** Every sleep lasts between 2 and 64 seconds. */
  lemma {:induction false} DelaysBounded(outcomes: seq<bool>, delay: nat)
    requires 2 <= delay <= 64
    ensures forall i :: 0 <= i < |Delays(outcomes, delay)| ==> 2 <= Delays(outcomes, delay)[i] <= 64
    ensures |Delays(outcomes, delay)| <= |outcomes|
    decreases |outcomes|
  {
    if outcomes != [] {
      DelaysBounded(outcomes[1..], NextDelay(delay, outcomes[0]));
    }
  }

  /** The delay before the `j`-th failure in a row (from 0): 2, 4, ..., 32,
      then 64 for good. */
  function Capped(j: nat): (d: nat)
    ensures 2 <= d <= 64
  {
    if j >= 5 then 64 else [2, 4, 8, 16, 32][j]
  }

  lemma CappedStep(j: nat)
    ensures NextDelay(Capped(j), false) == Capped(j + 1)
  {
  }

  /** After `j` failures in a row, `n` more failures sleep Capped(j),
      Capped(j + 1), ... */
  lemma {:induction false} FailureRun(j: nat, n: nat)
    ensures Delays(seq(n, _ => false), Capped(j)) == seq(n, i requires 0 <= i < n => Capped(j + i))
    decreases n
  {
    var fails := seq(n, _ => false);
    if n > 0 {
      CappedStep(j);
      assert fails[1..] == seq(n - 1, _ => false);
      FailureRun(j + 1, n - 1);
      var tail := seq(n - 1, i requires 0 <= i < n - 1 => Capped(j + 1 + i));
      assert seq(n, i requires 0 <= i < n => Capped(j + i)) == [Capped(j)] + tail;
    }
  }

  /** A success resets the back-off: whatever came before, the sleeps after a
      success are those of a fresh start. */
  lemma {:induction false} SuccessResets(before: seq<bool>, after: seq<bool>, delay: nat)
    requires 2 <= delay <= 64
    ensures exists pre :: Delays(before + [true] + after, delay) == pre + Delays(after, 2)
    decreases |before|
  {
    if before == [] {
      assert [true] + after == before + [true] + after;
      assert ([true] + after)[1..] == after;
      assert Delays(before + [true] + after, delay) == [] + Delays(after, 2);
    } else {
      var d := NextDelay(delay, before[0]);
      SuccessResets(before[1..], after, d);
      var pre :| Delays(before[1..] + [true] + after, d) == pre + Delays(after, 2);
      assert (before + [true] + after)[1..] == before[1..] + [true] + after;
      var head: seq<nat> := if before[0] then [] else [delay];
      assert Delays(before + [true] + after, delay) == (head + pre) + Delays(after, 2);
    }
  }

  /** `Delays` from position `i`, one attempt at a time: what was slept so
      far, followed by the sleeps still to come. */
  lemma DelaysFrom(outcomes: seq<bool>, i: nat, delay: nat, slept: seq<nat>)
    requires i < |outcomes| && 2 <= delay <= 64
    requires slept + Delays(outcomes[i..], delay) == Delays(outcomes, 2)
    ensures (slept + (if outcomes[i] then [] else [delay])) + Delays(outcomes[i + 1..], NextDelay(delay, outcomes[i]))
         == Delays(outcomes, 2)
  {
    assert outcomes[i..][0] == outcomes[i] && outcomes[i..][1..] == outcomes[i + 1..];
    AppendAssoc(slept, if outcomes[i] then [] else [delay], Delays(outcomes[i + 1..], NextDelay(delay, outcomes[i])));
  }

  /** The `sleep_seconds` variable of `ensure_connected` over successive
      connect attempts: the sleeps taken after failures. */
  method ReconnectDelays(outcomes: seq<bool>) returns (slept: seq<nat>)
    ensures slept == Delays(outcomes, 2)
  {
    slept := [];
    var delay: nat := 2;
    var i := 0;
    while i < |outcomes|
      invariant 0 <= i <= |outcomes| && 2 <= delay <= 64
      invariant slept + Delays(outcomes[i..], delay) == Delays(outcomes, 2)
      decreases |outcomes| - i
    {
      DelaysFrom(outcomes, i, delay, slept);
      ghost var next := NextDelay(delay, outcomes[i]);
      if !outcomes[i] {
        slept := slept + [delay];
        delay := if delay * 2 < 64 then delay * 2 else 64;
      } else {
        delay := 2;
      }
      assert delay == next;
      i := i + 1;
    }
    assert outcomes[i..] == [];
  }

  // ---------------------------------------------------------------------------
  // Replay

  /** The frames replaying `keys` writes, in order, with `sendFails(k)`
      telling whether writing the message of `k` raises. */
  function ReplayFrames(keys: seq<SubKey>, sendFails: SubKey -> bool): seq<Outbound>
    decreases |keys|
  {
    if keys == [] then []
    else
      var last := keys[|keys| - 1];
      ReplayFrames(keys[..|keys| - 1], sendFails) + (if sendFails(last) then [] else [Subscribe(last)])
  }

  lemma ReplayFramesSnoc(keys: seq<SubKey>, i: nat, sendFails: SubKey -> bool)
    requires i < |keys|
    ensures ReplayFrames(keys[..i + 1], sendFails)
         == ReplayFrames(keys[..i], sendFails) + (if sendFails(keys[i]) then [] else [Subscribe(keys[i])])
  {
    assert keys[..i + 1][..i] == keys[..i];
  }

  /** Replay resends every key whose write goes through, and nothing else. */
  lemma {:induction false} ReplayCovers(keys: seq<SubKey>, sendFails: SubKey -> bool, m: map<string, JsonValue>)
    ensures Subscribe(m) in ReplayFrames(keys, sendFails) <==> m in keys && !sendFails(m)
    ensures |ReplayFrames(keys, sendFails)| <= |keys|
    decreases |keys|
  {
    if keys != [] {
      var init := keys[..|keys| - 1];
      var last := keys[|keys| - 1];
      ReplayCovers(init, sendFails, m);
      assert keys == init + [last];
      assert m in keys <==> m in init || m == last;
    }
  }

  // ---------------------------------------------------------------------------
  // The registry

  /** Every handler key is listed once and has a queue and at least one
      handler; every queue's key is one `subscribe_data` makes. */
  ghost predicate Registry(keys: seq<SubKey>, handlers: map<SubKey, seq<HandlerId>>, queues: map<SubKey, seq<JsonValue>>) {
    && (forall i, j :: 0 <= i < j < |keys| ==> keys[i] != keys[j])
    && (forall k :: k in keys <==> k in handlers)
    && (forall k :: k in handlers ==> k in queues && handlers[k] != [])
    && (forall k :: k in queues ==> KeyShaped(k))
  }

  /** Registering key `k` (and the handler `h`, when given) keeps the
      registry well formed. */
  lemma RegistryAdd(keys: seq<SubKey>, handlers: map<SubKey, seq<HandlerId>>, queues: map<SubKey, seq<JsonValue>>,
                    k: SubKey, h: Option<HandlerId>)
    requires Registry(keys, handlers, queues) && KeyShaped(k)
    ensures Registry(
      if h.Some? && k !in handlers then keys + [k] else keys,
      if h.None? then handlers else handlers[k := (if k in handlers then handlers[k] else []) + [h.value]],
      if k in queues then queues else queues[k := []])
  {
    var keys' := if h.Some? && k !in handlers then keys + [k] else keys;
    forall i, j | 0 <= i < j < |keys'| ensures keys'[i] != keys'[j] {
      if j == |keys| { assert keys'[i] == keys[i]; }
    }
  }

  // ---------------------------------------------------------------------------
  // The session

  class Quote {
    const key: string
    const wsUrl: string
    /** `data_parser`. */
    const dataParser: JsonValue -> Parsed
    /** `self.ws` is set and not closed. */
    var wsOpen: bool
    /** `queue_handlers`, and its keys in insertion order. */
    var queueHandlers: map<SubKey, seq<HandlerId>>
    var handlerKeys: seq<SubKey>
    /** `data_queue`: the contents of each key's queue. */
    var dataQueue: map<SubKey, seq<JsonValue>>
    var connected: bool
    var authorized: bool
    var ensureConnection: bool
    var pong: int
    var sent: seq<Outbound>

    ghost predicate Valid()
      reads this
    {
      Registry(handlerKeys, queueHandlers, dataQueue)
    }

    /** The fields the receive loop changes. */
    function Snapshot(): Feed
      reads this
    {
      Feed(pong, authorized, dataQueue)
    }

    /** `__init__`: no socket, nothing subscribed, not connected. */
    constructor (key: string, wsUrl: string, dataParser: JsonValue -> Parsed)
      ensures Valid()
      ensures this.key == key && this.wsUrl == wsUrl && this.dataParser == dataParser
      ensures !wsOpen && queueHandlers == map[] && handlerKeys == [] && dataQueue == map[]
      ensures !connected && !authorized && ensureConnection && pong == 0 && sent == []
    {
      this.key := key;
      this.wsUrl := wsUrl;
      this.dataParser := dataParser;
      wsOpen := false;
      queueHandlers := map[];
      handlerKeys := [];
      dataQueue := map[];
      connected := false;
      authorized := false;
      ensureConnection := true;
      pong := 0;
      sent := [];
    }

    /** `subscribe_data(uri, on_update, **args)`. The call waits until the
        session is connected and authorized (`blocked`: it has not got past
        that wait, and nothing has changed). Then the message is written; if
        writing raises (`sendFails`) nothing else happens. Otherwise the key's
        queue is created when absent, and `on_update`, when given, is added
        to the key's handlers. */
    method SubscribeData(uri: string, onUpdate: Option<HandlerId>, args: map<string, JsonValue>, sendFails: bool)
      returns (blocked: bool)
      requires Valid() && "uri" !in args
      modifies this
      ensures Valid()
      ensures blocked <==> !(old(connected) && old(authorized))
      ensures blocked || sendFails ==> unchanged(this)
      ensures wsOpen == old(wsOpen) && connected == old(connected) && authorized == old(authorized)
      ensures ensureConnection == old(ensureConnection) && pong == old(pong)
      ensures !blocked && !sendFails ==>
        var k := SubscriptionKey(uri, args);
        && sent == old(sent) + [Subscribe(Message(uri, args))]
        && dataQueue == (if k in old(dataQueue) then old(dataQueue) else old(dataQueue)[k := []])
        && queueHandlers == (if onUpdate.None? then old(queueHandlers)
                             else old(queueHandlers)[k := (if k in old(queueHandlers) then old(queueHandlers)[k] else []) + [onUpdate.value]])
        && handlerKeys == (if onUpdate.Some? && k !in old(queueHandlers) then old(handlerKeys) + [k] else old(handlerKeys))
    {
      if !connected || !authorized {
        return true;
      }
      blocked := false;
      var k := SubscriptionKey(uri, args);
      if sendFails {
        return;
      }
      sent := sent + [Subscribe(Message(uri, args))];
      Register(k, onUpdate);
    }

    /** The part of `subscribe_data` after a successful write: the queue of
        `k` is created when absent and the handler, when given, is added to
        the handlers of `k`. */
    method Register(k: SubKey, onUpdate: Option<HandlerId>)
      requires Valid() && KeyShaped(k)
      modifies this
      ensures Valid()
      ensures dataQueue == (if k in old(dataQueue) then old(dataQueue) else old(dataQueue)[k := []])
      ensures queueHandlers == (if onUpdate.None? then old(queueHandlers)
                                else old(queueHandlers)[k := (if k in old(queueHandlers) then old(queueHandlers)[k] else []) + [onUpdate.value]])
      ensures handlerKeys == (if onUpdate.Some? && k !in old(queueHandlers) then old(handlerKeys) + [k] else old(handlerKeys))
      ensures wsOpen == old(wsOpen) && connected == old(connected) && authorized == old(authorized)
      ensures ensureConnection == old(ensureConnection) && pong == old(pong) && sent == old(sent)
    {
      RegistryAdd(handlerKeys, queueHandlers, dataQueue, k, onUpdate);
      if k !in dataQueue {
        dataQueue := dataQueue[k := []];
      }
      if onUpdate.Some? {
        var handlers := if k in queueHandlers then queueHandlers[k] else [];
        if k !in queueHandlers {
          handlerKeys := handlerKeys + [k];
        }
        queueHandlers := queueHandlers[k := handlers + [onUpdate.value]];
      }
    }

    /** The recovery step of `ensure_connected`: every key with handlers, in
        order, is subscribed again with its own fields and no handler. The
        registry is unchanged, and the frames written are those of the keys
        whose write goes through. While the session is not connected and
        authorized, the first replayed call is still waiting. */
    method ReplaySubscriptions(sendFails: SubKey -> bool)
      requires Valid()
      modifies this
      ensures Valid()
      ensures sent == old(sent) + (if old(connected) && old(authorized) then ReplayFrames(old(handlerKeys), sendFails) else [])
      ensures wsOpen == old(wsOpen) && connected == old(connected) && authorized == old(authorized)
      ensures ensureConnection == old(ensureConnection) && pong == old(pong)
      ensures queueHandlers == old(queueHandlers) && handlerKeys == old(handlerKeys) && dataQueue == old(dataQueue)
    {
      var keys := handlerKeys;
      ghost var sent0 := sent;
      var i := 0;
      while i < |keys|
        invariant 0 <= i <= |keys| && Valid()
        invariant keys == old(handlerKeys) && handlerKeys == keys
        invariant queueHandlers == old(queueHandlers) && dataQueue == old(dataQueue)
        invariant wsOpen == old(wsOpen) && connected == old(connected) && authorized == old(authorized)
        invariant ensureConnection == old(ensureConnection) && pong == old(pong)
        invariant sent == old(sent) + (if connected && authorized then ReplayFrames(keys[..i], sendFails) else [])
        decreases |keys| - i
      {
        var k := keys[i];
        assert k in queueHandlers;
        ReplayKeyIsStable(k);
        var blocked := SubscribeData(ReplayUri(k), None, k - {"uri"}, sendFails(k));
        if blocked {
          assert sent == sent0;
          return;
        }
        ReplayFramesSnoc(keys, i, sendFails);
        AppendAssoc(old(sent), ReplayFrames(keys[..i], sendFails), if sendFails(k) then [] else [Subscribe(k)]);
        i := i + 1;
      }
      assert keys[..i] == keys;
    }

    /** One attempt of `ensure_connected` while not connected: on success
        (`ok`: the socket opened and `{'uri': 'auth'}` was written) the
        session is connected with a fresh pong time; on failure the socket is
        dropped. */
    method ConnectAttempt(ok: bool, now: int)
      modifies this
      ensures wsOpen == ok && connected == (old(connected) || ok)
      ensures sent == old(sent) + (if ok then [Auth] else [])
      ensures pong == (if ok then now else old(pong))
      ensures authorized == old(authorized) && ensureConnection == old(ensureConnection)
      ensures queueHandlers == old(queueHandlers) && handlerKeys == old(handlerKeys) && dataQueue == old(dataQueue)
    {
      if ok {
        wsOpen := true;
        sent := sent + [Auth];
        connected := true;
        pong := now;
      } else {
        wsOpen := false;
      }
    }

    /** The end of the authorization wait: a session still not authorized
        closes its socket. */
    method AwaitAuth()
      modifies this
      ensures wsOpen == (old(wsOpen) && old(authorized))
      ensures connected == old(connected) && authorized == old(authorized) && pong == old(pong) && sent == old(sent)
      ensures ensureConnection == old(ensureConnection)
      ensures queueHandlers == old(queueHandlers) && handlerKeys == old(handlerKeys) && dataQueue == old(dataQueue)
    {
      if !authorized {
        wsOpen := false;
      }
    }

    /** One frame of the receive loop, read at clock reading `now`; `stop`
        when the frame ends the loop. */
    method OnFrame(frame: Frame, now: int) returns (stop: bool)
      requires Valid()
      modifies this
      ensures Valid()
      ensures var e := Classify(frame, dataParser);
        && stop == (e == Stop)
        && Snapshot() == Apply(old(Snapshot()), e, now)
      ensures wsOpen == old(wsOpen) && connected == old(connected) && sent == old(sent)
      ensures ensureConnection == old(ensureConnection)
      ensures queueHandlers == old(queueHandlers) && handlerKeys == old(handlerKeys)
    {
      stop := false;
      var e := Classify(frame, dataParser);
      match e
      case Ignore =>
      case RecordPong =>
        pong := now;
      case Authorize =>
        authorized := true;
      case Enqueue(k, x) =>
        if k in dataQueue {
          dataQueue := dataQueue[k := dataQueue[k] + [x]];
        }
      case Stop =>
        stop := true;
    }

    /** The receive loop over `frames`, the frames read before the socket
        closed or before a read raised (`recvRaises`): each is handled in
        turn until one ends the loop. A loop that ends, by such a frame or
        by the socket closing, closes the socket and leaves the session
        neither connected nor authorized. A read that raises is outside the
        loop's `try`, so the thread ends there and the session keeps its
        connected and authorized flags. */
    method ReceiveLoop(frames: seq<Received>, recvRaises: bool)
      requires Valid()
      modifies this
      ensures Valid()
      ensures var f := Absorb(old(Snapshot()), frames, dataParser);
        dataQueue == f.queues && pong == f.pong
      ensures Stopped(frames, dataParser) || !recvRaises ==> !wsOpen && !connected && !authorized
      ensures !Stopped(frames, dataParser) && recvRaises
              ==> wsOpen == old(wsOpen) && connected == old(connected)
                  && authorized == Absorb(old(Snapshot()), frames, dataParser).authorized
      ensures sent == old(sent) && ensureConnection == old(ensureConnection)
      ensures queueHandlers == old(queueHandlers) && handlerKeys == old(handlerKeys)
    {
      var i := 0;
      var stop := false;
      while i < |frames| && !stop
        invariant 0 <= i <= |frames| && Valid()
        invariant !stop ==> Absorb(Snapshot(), frames[i..], dataParser) == Absorb(old(Snapshot()), frames, dataParser)
        invariant !stop ==> Stopped(frames[i..], dataParser) == Stopped(frames, dataParser)
        invariant stop ==> Snapshot() == Absorb(old(Snapshot()), frames, dataParser) && Stopped(frames, dataParser)
        invariant wsOpen == old(wsOpen) && connected == old(connected)
        invariant sent == old(sent) && ensureConnection == old(ensureConnection)
        invariant queueHandlers == old(queueHandlers) && handlerKeys == old(handlerKeys)
        decreases |frames| - i
      {
        AbsorbFrom(Snapshot(), frames, i, dataParser);
        StoppedFrom(frames, i, dataParser);
        stop := OnFrame(frames[i].frame, frames[i].at);
        i := i + 1;
      }
      if !stop {
        assert frames[i..] == [];
      }
      if stop || !recvRaises {
        Disconnected();
      }
    }

    /** The end of the receive loop: the socket is closed and the session is
        neither connected nor authorized. */
    method Disconnected()
      requires Valid()
      modifies this
      ensures Valid()
      ensures !wsOpen && !connected && !authorized
      ensures pong == old(pong) && sent == old(sent) && ensureConnection == old(ensureConnection)
      ensures queueHandlers == old(queueHandlers) && handlerKeys == old(handlerKeys) && dataQueue == old(dataQueue)
    {
      wsOpen := false;
      connected := false;
      authorized := false;
    }

    /** One round of `heart_beat_loop`. With the socket open, a pong older
        than 20 seconds closes it and no ping is sent; otherwise a ping is
        written, and a write that raises (`sendFails`) ends the loop
        (`loopEnds`), as the `try` there has no `except`. */
    method HeartBeatStep(now: int, sendFails: bool) returns (loopEnds: bool)
      modifies this
      ensures loopEnds <==> old(wsOpen) && !HeartBeatLost(now, old(pong)) && sendFails
      ensures wsOpen == (old(wsOpen) && !HeartBeatLost(now, old(pong)))
      ensures sent == old(sent) + (if old(wsOpen) && !HeartBeatLost(now, old(pong)) && !sendFails then [Ping] else [])
      ensures connected == old(connected) && authorized == old(authorized) && pong == old(pong)
      ensures ensureConnection == old(ensureConnection)
      ensures queueHandlers == old(queueHandlers) && handlerKeys == old(handlerKeys) && dataQueue == old(dataQueue)
    {
      loopEnds := false;
      if wsOpen {
        if HeartBeatLost(now, pong) {
          wsOpen := false;
        } else if sendFails {
          loopEnds := true;
        } else {
          sent := sent + [Ping];
        }
      }
    }

    /** `close`: stop reconnecting and close the socket. */
    method Close()
      modifies this
      ensures !ensureConnection && !wsOpen
      ensures connected == old(connected) && authorized == old(authorized) && pong == old(pong) && sent == old(sent)
      ensures queueHandlers == old(queueHandlers) && handlerKeys == old(handlerKeys) && dataQueue == old(dataQueue)
    {
      ensureConnection := false;
      wsOpen := false;
    }
  }
}
