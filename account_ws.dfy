/** onetoken_sync/account_ws.py: the account push session of one account.

    `AccountWs` keeps the connection state machine, whether the exchange
    supports pushes, the time of the last pong and `sub_queue`, the registry of
    subscriptions. That registry holds up to two topics in insertion order:
    'info' maps a handler name to a handler, and 'order' maps '*' to the order
    handler and every exchange oid seen to a FIFO queue of its updates. Frames
    sent over the socket are appended to `sent`, and handler calls to
    `delivered`. Handlers are opaque ids. A received frame is the JSON value
    `json.loads` produced, or None when decoding failed. */
module AccountWs {
  import opened Wrappers
  import opened Json

  datatype WsState = Idle | GoingToConnect | Connecting | Ready | GoingToDisconnect

  /** The keys of `sub_queue`. */
  datatype Topic = InfoTopic | OrderTopic

  type HandlerId = nat

  /** An entry of `sub_queue['order']`: the '*' handler, or the queue of one
      exchange oid. The key '*' can also name a queue, when an order arrives
      whose exchange oid is '*'. */
  datatype OrderSlot = Callback(handler: HandlerId) | Pending(queue: seq<JsonValue>)

  type Slots = map<JsonValue, OrderSlot>

  /** Frames the session sends: `{'uri': 'sub-info'}` and the like. */
  datatype Outbound = Sub(topic: Topic) | Unsub(unsubTopic: Topic)

  /** One call of a registered handler. */
  datatype Delivery = InfoCall(name: string, infoHandler: HandlerId, info: JsonValue)
                    | OrderCall(orderHandler: HandlerId, order: JsonValue)

  const Star: JsonValue := JStr("*")

  /** The handler name used when none is given. */
  function NameOrDefault(name: Option<string>): string {
    name.GetOr("default")
  }

  /** `{'uri': 'sub-<key>'}` for each key, in order. */
  function SubFrames(topics: seq<Topic>): (r: seq<Outbound>)
    ensures |r| == |topics|
    ensures forall i :: 0 <= i < |topics| ==> r[i] == Sub(topics[i])
  {
    seq(|topics|, i requires 0 <= i < |topics| => Sub(topics[i]))
  }

  predicate Distinct(ts: seq<Topic>) {
    forall i, j :: 0 <= i < j < |ts| ==> ts[i] != ts[j]
  }

  /** `del sub_queue[t]` on the key sequence. */
  function Without(ts: seq<Topic>, t: Topic): (r: seq<Topic>)
    ensures forall u :: u in r <==> u in ts && u != t
    ensures Distinct(ts) ==> Distinct(r)
    ensures t !in ts ==> r == ts
  {
    if ts == [] then []
    else if ts[0] == t then Without(ts[1..], t)
    else [ts[0]] + Without(ts[1..], t)
  }

  // ---------------------------------------------------------------------------
  // Reading a frame

  /** What `on_message` does with a frame, once the frame has been read. */
  datatype Action =
    | NoChange                          // undecodable, unexpected, logged only, or a KeyError before any change
    | DisableSupport                    // no 'uri', code 'no-router-found'
    | RecordPong                        // uri 'pong'
    | Connected                         // uri 'connection'/'status' with code (else status) 'ok'/'connected'
    | Reconnect                         // the same uris with any other value, and a 'message'
    | DeliverInfo(payload: JsonValue)   // uri 'info', status ok, 'info' subscribed
    | UpdateOrders(orders: seq<JsonValue>)  // uri 'order' with 'order' subscribed, status ok

  /** `data.get('status', 'ok') == 'ok'`. */
  predicate StatusOk(d: Dict) {
    Lookup(d, "status").None? || Lookup(d, "status") == Some(JStr("ok"))
  }

  /** `data.get('code', data.get('status', None))`. */
  function CodeOrStatus(d: Dict): JsonValue {
    match Lookup(d, "code")
    case Some(c) => c
    case None => Lookup(d, "status").GetOr(JNull)
  }

  /** The branch of `on_message` a frame takes. A decoded value that is not an
      object ends in a TypeError or in the 'unexpected msg' branch: no change.
      A failure frame without 'message' raises KeyError before the state is
      set. An order list that is not a list changes nothing: iterating it is
      empty or fails on its first element. */
  function Route(frame: Option<JsonValue>, hasInfo: bool, hasOrder: bool): (a: Action)
    ensures a.DeliverInfo? ==> hasInfo
    ensures a.UpdateOrders? ==> hasOrder
    ensures a.DeliverInfo? ==> frame.Some? && frame.value.JObject?
                               && Lookup(frame.value.fields, "uri") == Some(JStr("info"))
                               && StatusOk(frame.value.fields) && Lookup(frame.value.fields, "data") == Some(a.payload)
    ensures a.UpdateOrders? ==> frame.Some? && frame.value.JObject?
                                && Lookup(frame.value.fields, "uri") == Some(JStr("order"))
                                && StatusOk(frame.value.fields) && Lookup(frame.value.fields, "data") == Some(JArray(a.orders))
    ensures frame.Some? && frame.value.JObject? && Lookup(frame.value.fields, "uri") == Some(JStr("info"))
            && StatusOk(frame.value.fields) && hasInfo && Lookup(frame.value.fields, "data").Some?
            ==> a == DeliverInfo(Lookup(frame.value.fields, "data").value)
    ensures frame.Some? && frame.value.JObject? && Lookup(frame.value.fields, "uri") == Some(JStr("order"))
            && StatusOk(frame.value.fields) && hasOrder
            && Lookup(frame.value.fields, "data").Some? && Lookup(frame.value.fields, "data").value.JArray?
            ==> a == UpdateOrders(Lookup(frame.value.fields, "data").value.items)
    ensures a == Reconnect <==> frame.Some? && frame.value.JObject?
                                && Lookup(frame.value.fields, "uri") in {Some(JStr("connection")), Some(JStr("status"))}
                                && CodeOrStatus(frame.value.fields) !in {JStr("ok"), JStr("connected")}
                                && Lookup(frame.value.fields, "message").Some?
    ensures a == DisableSupport <==> frame.Some? && frame.value.JObject? && Lookup(frame.value.fields, "uri").None?
                                     && Lookup(frame.value.fields, "code") == Some(JStr("no-router-found"))
    ensures a == RecordPong <==> frame.Some? && frame.value.JObject? && Lookup(frame.value.fields, "uri") == Some(JStr("pong"))
    ensures a == Connected <==> frame.Some? && frame.value.JObject?
                                && Lookup(frame.value.fields, "uri") in {Some(JStr("connection")), Some(JStr("status"))}
                                && CodeOrStatus(frame.value.fields) in {JStr("ok"), JStr("connected")}
  {
    match frame
    case None => NoChange
    case Some(v) =>
      if !v.JObject? then NoChange
      else
        var d := v.fields;
        match Lookup(d, "uri")
        case None =>
          if Lookup(d, "code") == Some(JStr("no-router-found")) then DisableSupport else NoChange
        case Some(uri) =>
          if uri == JStr("pong") then RecordPong
          else if uri == JStr("connection") || uri == JStr("status") then
            var c := CodeOrStatus(d);
            if c == JStr("ok") || c == JStr("connected") then Connected
            else if Lookup(d, "message").Some? then Reconnect
            else NoChange
          else if uri == JStr("info") then
            if !StatusOk(d) || !hasInfo then NoChange
            else match Lookup(d, "data")
              case None => NoChange
              case Some(info) => DeliverInfo(info)
          else if uri == JStr("order") && hasOrder then
            if !StatusOk(d) then NoChange
            else match Lookup(d, "data")
              case Some(JArray(items)) => UpdateOrders(items)
              case _ => NoChange
          else NoChange
  }

  // ---------------------------------------------------------------------------
  // Order updates

  /** `order['exchange_oid']` as a dict key, provided `order['status']` can be
      read too (the debug log reads it); None when either lookup raises or
      the oid is a list or object (unhashable). */
  function OrderKey(o: JsonValue): Option<JsonValue> {
    if !o.JObject? then None
    else match Lookup(o.fields, "exchange_oid")
      case None => None
      case Some(k) =>
        if Lookup(o.fields, "status").None? || k.JArray? || k.JObject? then None else Some(k)
  }

  /** The registry after some orders, the handler calls made, and whether an
      exception ended the loop. */
  datatype Progress = Progress(slots: Slots, calls: seq<Delivery>, stopped: bool)

  /** One turn of the order loop: look up the key, create its queue when
      absent, put the order, hand it to '*'. Putting into a handler or
      calling a queue raises and ends the loop, as does a raising handler. */
  function OrderStep(slots: Slots, o: JsonValue, raises: (HandlerId, JsonValue) -> bool): Progress {
    match OrderKey(o)
    case None => Progress(slots, [], true)
    case Some(k) =>
      var s1 := if k in slots then slots else slots[k := Pending([])];
      match s1[k]
      case Callback(_) => Progress(s1, [], true)
      case Pending(q) =>
        var s2 := s1[k := Pending(q + [o])];
        if Star !in s2 then Progress(s2, [], false)
        else match s2[Star]
          case Pending(_) => Progress(s2, [], true)
          case Callback(h) => Progress(s2, [OrderCall(h, o)], raises(h, o))
  }

  /** The order loop of `on_message` over `orders`. */
  function RunOrders(slots: Slots, orders: seq<JsonValue>, raises: (HandlerId, JsonValue) -> bool): Progress
    decreases |orders|
  {
    if orders == [] then Progress(slots, [], false)
    else
      var p := OrderStep(slots, orders[0], raises);
      if p.stopped then p
      else
        var q := RunOrders(p.slots, orders[1..], raises);
        Progress(q.slots, p.calls + q.calls, q.stopped)
  }

  /** The exchange oid of each order, as `OrderKey` reads it. */
  function OrderKeys(orders: seq<JsonValue>): seq<Option<JsonValue>>
    decreases |orders|
  {
    if orders == [] then [] else [OrderKey(orders[0])] + OrderKeys(orders[1..])
  }

  /** Some order carries the exchange oid `k`. */
  predicate HasKey(orders: seq<JsonValue>, k: JsonValue) {
    Some(k) in OrderKeys(orders)
  }

  /** The orders whose exchange oid is `k`, in arrival order. */
  function WithKey(orders: seq<JsonValue>, k: JsonValue): seq<JsonValue> {
    if orders == [] then []
    else (if OrderKey(orders[0]) == Some(k) then [orders[0]] else []) + WithKey(orders[1..], k)
  }

  /** What the queue of `k` holds: nothing when there is none yet. */
  function QueueOf(slots: Slots, k: JsonValue): seq<JsonValue> {
    if k in slots && slots[k].Pending? then slots[k].queue else []
  }

  /** Orders the loop handles without an exception: each has a readable,
      hashable exchange oid other than '*', whose entry (if any) is a queue. */
  predicate WellFormedOrders(slots: Slots, orders: seq<JsonValue>) {
    forall j :: 0 <= j < |orders| ==>
      && OrderKey(orders[j]).Some? && OrderKey(orders[j]).value != Star
      && (OrderKey(orders[j]).value in slots ==> slots[OrderKey(orders[j]).value].Pending?)
  }

  /** '*' is absent, or a handler that does not raise on these orders. */
  predicate QuietStar(slots: Slots, orders: seq<JsonValue>, raises: (HandlerId, JsonValue) -> bool) {
    Star !in slots || (slots[Star].Callback? && forall j :: 0 <= j < |orders| ==> !raises(slots[Star].handler, orders[j]))
  }

  /** The '*' handler's calls for `orders`: one per order, in order. */
  function StarCalls(slots: Slots, orders: seq<JsonValue>): seq<Delivery>
    requires Star in slots ==> slots[Star].Callback?
  {
    if Star in slots then seq(|orders|, j requires 0 <= j < |orders| => OrderCall(slots[Star].handler, orders[j])) else []
  }

  /** One order touches only its own key (and reads '*'). */
  lemma StepKeepsOtherKeys(slots: Slots, o: JsonValue, raises: (HandlerId, JsonValue) -> bool, k: JsonValue)
    requires OrderKey(o) != Some(k)
    ensures var p := OrderStep(slots, o, raises);
      (k in p.slots <==> k in slots) && (k in slots ==> p.slots[k] == slots[k])
  {
  }

  /** Entries of keys no order carries are left as they were, whatever
      happens to the loop. */
  lemma {:induction false} RunOrdersKeepsOtherKeys(slots: Slots, orders: seq<JsonValue>,
                                                  raises: (HandlerId, JsonValue) -> bool, k: JsonValue)
    requires !HasKey(orders, k)
    ensures var p := RunOrders(slots, orders, raises);
      (k in p.slots <==> k in slots) && (k in slots ==> p.slots[k] == slots[k])
    decreases |orders|
  {
    if orders != [] {
      HasKeyCons(orders, k);
      var p := OrderStep(slots, orders[0], raises);
      StepKeepsOtherKeys(slots, orders[0], raises, k);
      if !p.stopped {
        RunOrdersKeepsOtherKeys(p.slots, orders[1..], raises, k);
      }
    }
  }

  lemma HasKeyCons(orders: seq<JsonValue>, k: JsonValue)
    requires orders != []
    ensures HasKey(orders, k) <==> OrderKey(orders[0]) == Some(k) || HasKey(orders[1..], k)
  {
    assert OrderKeys(orders) == [OrderKey(orders[0])] + OrderKeys(orders[1..]);
  }

  /** A well-formed order with a quiet '*' goes to the back of its queue. */
  lemma QuietStep(slots: Slots, o: JsonValue, raises: (HandlerId, JsonValue) -> bool)
    requires OrderKey(o).Some? && OrderKey(o).value != Star
    requires OrderKey(o).value in slots ==> slots[OrderKey(o).value].Pending?
    requires Star in slots ==> slots[Star].Callback? && !raises(slots[Star].handler, o)
    ensures var key := OrderKey(o).value;
      OrderStep(slots, o, raises)
        == Progress(slots[key := Pending(QueueOf(slots, key) + [o])], StarCalls(slots, [o]), false)
  {
  }

  /** What holds of the orders holds of the rest after one quiet step. */
  lemma QuietTail(slots: Slots, orders: seq<JsonValue>, raises: (HandlerId, JsonValue) -> bool)
    requires orders != [] && WellFormedOrders(slots, orders) && QuietStar(slots, orders, raises)
    ensures OrderKey(orders[0]).Some? && OrderKey(orders[0]).value != Star
    ensures OrderKey(orders[0]).value in slots ==> slots[OrderKey(orders[0]).value].Pending?
    ensures Star in slots ==> slots[Star].Callback? && !raises(slots[Star].handler, orders[0])
    ensures var key := OrderKey(orders[0]).value;
      var s2 := slots[key := Pending(QueueOf(slots, key) + [orders[0]])];
      && WellFormedOrders(s2, orders[1..]) && QuietStar(s2, orders[1..], raises)
      && (Star in s2 <==> Star in slots) && (Star in slots ==> s2[Star] == slots[Star])
      && StarCalls(slots, orders) == StarCalls(slots, [orders[0]]) + StarCalls(s2, orders[1..])
  {
    var key := OrderKey(orders[0]).value;
    var s2 := slots[key := Pending(QueueOf(slots, key) + [orders[0]])];
    WellFormedTail(slots, orders, s2);
    QuietStarTail(slots, orders, raises, s2);
    StarCallsSplit(slots, orders, s2);
  }

  lemma WellFormedTail(slots: Slots, orders: seq<JsonValue>, s2: Slots)
    requires orders != [] && WellFormedOrders(slots, orders)
    requires s2.Keys == slots.Keys + {OrderKey(orders[0]).value}
    requires forall k :: k in s2 && k != OrderKey(orders[0]).value ==> s2[k] == slots[k]
    requires s2[OrderKey(orders[0]).value].Pending?
    ensures WellFormedOrders(s2, orders[1..])
  {
    var rest := orders[1..];
    forall j | 0 <= j < |rest|
      ensures OrderKey(rest[j]).Some? && OrderKey(rest[j]).value != Star
      ensures OrderKey(rest[j]).value in s2 ==> s2[OrderKey(rest[j]).value].Pending?
    {
      assert rest[j] == orders[j + 1];
    }
  }

  lemma QuietStarTail(slots: Slots, orders: seq<JsonValue>, raises: (HandlerId, JsonValue) -> bool, s2: Slots)
    requires orders != [] && QuietStar(slots, orders, raises)
    requires Star in s2 <==> Star in slots
    requires Star in slots ==> s2[Star] == slots[Star]
    ensures QuietStar(s2, orders[1..], raises)
    ensures Star in slots ==> !raises(slots[Star].handler, orders[0])
  {
    if Star in slots {
      var rest := orders[1..];
      forall j | 0 <= j < |rest| ensures !raises(s2[Star].handler, rest[j]) {
        assert rest[j] == orders[j + 1];
      }
    }
  }

  lemma StarCallsSplit(slots: Slots, orders: seq<JsonValue>, s2: Slots)
    requires orders != [] && (Star in slots ==> slots[Star].Callback?)
    requires Star in s2 <==> Star in slots
    requires Star in slots ==> s2[Star] == slots[Star]
    ensures StarCalls(slots, orders) == StarCalls(slots, [orders[0]]) + StarCalls(s2, orders[1..])
  {
    if Star in slots {
      var a, b, c := StarCalls(slots, orders), StarCalls(slots, [orders[0]]), StarCalls(s2, orders[1..]);
      assert |a| == |b + c|;
      forall j | 0 <= j < |a| ensures a[j] == (b + c)[j] {
        if j > 0 { assert c[j - 1] == OrderCall(slots[Star].handler, orders[j]); }
      }
    }
  }

  /** When no order raises, the loop runs to the end and the '*' handler, if
      any, sees every order once, in order. */
  lemma {:induction false} RunOrdersQuiet(slots: Slots, orders: seq<JsonValue>, raises: (HandlerId, JsonValue) -> bool)
    requires WellFormedOrders(slots, orders) && QuietStar(slots, orders, raises)
    ensures var p := RunOrders(slots, orders, raises);
      !p.stopped && p.calls == StarCalls(slots, orders)
    decreases |orders|
  {
    if orders != [] {
      var o := orders[0];
      var key := OrderKey(o).value;
      var s2 := slots[key := Pending(QueueOf(slots, key) + [o])];
      QuietTail(slots, orders, raises);
      QuietStep(slots, o, raises);
      RunOrdersQuiet(s2, orders[1..], raises);
    }
  }

  /** A quiet first order only moves its queue: the loop goes on from there. */
  lemma QuietUnfold(slots: Slots, orders: seq<JsonValue>, raises: (HandlerId, JsonValue) -> bool)
    requires orders != [] && WellFormedOrders(slots, orders) && QuietStar(slots, orders, raises)
    ensures OrderKey(orders[0]).Some?
    ensures var key := OrderKey(orders[0]).value;
      var s2 := slots[key := Pending(QueueOf(slots, key) + [orders[0]])];
      && WellFormedOrders(s2, orders[1..]) && QuietStar(s2, orders[1..], raises)
      && RunOrders(slots, orders, raises).slots == RunOrders(s2, orders[1..], raises).slots
  {
    QuietTail(slots, orders, raises);
    QuietStep(slots, orders[0], raises);
  }

  /** When no order raises, the table ends up holding exactly the keys it held
      and those the orders carry. */
  lemma {:induction false} RunOrdersKeys(slots: Slots, orders: seq<JsonValue>,
                                         raises: (HandlerId, JsonValue) -> bool, k: JsonValue)
    requires WellFormedOrders(slots, orders) && QuietStar(slots, orders, raises)
    ensures k in RunOrders(slots, orders, raises).slots <==> k in slots || HasKey(orders, k)
    decreases |orders|
  {
    if orders != [] {
      var key := OrderKey(orders[0]).value;
      var s2 := slots[key := Pending(QueueOf(slots, key) + [orders[0]])];
      QuietUnfold(slots, orders, raises);
      RunOrdersKeys(s2, orders[1..], raises, k);
      HasKeyCons(orders, k);
    }
  }

  /** Moving the first order to the back of its queue keeps, for every key,
      the queue followed by the orders still to come. */
  lemma QueueAfterFirst(slots: Slots, orders: seq<JsonValue>, k: JsonValue)
    requires orders != [] && OrderKey(orders[0]).Some?
    ensures var key := OrderKey(orders[0]).value;
      var s2 := slots[key := Pending(QueueOf(slots, key) + [orders[0]])];
      QueueOf(s2, k) + WithKey(orders[1..], k) == QueueOf(slots, k) + WithKey(orders, k)
  {
    var key := OrderKey(orders[0]).value;
    var rest := orders[1..];
    assert WithKey(orders, k) == (if key == k then [orders[0]] else []) + WithKey(rest, k);
    if key == k {
      assert (QueueOf(slots, k) + [orders[0]]) + WithKey(rest, k) == QueueOf(slots, k) + ([orders[0]] + WithKey(rest, k));
    } else {
      assert WithKey(orders, k) == WithKey(rest, k);
    }
  }

  /** When no order raises, each order ends up at the back of its exchange
      oid's queue, created if absent, in arrival order. */
  lemma {:induction false} RunOrdersAppends(slots: Slots, orders: seq<JsonValue>,
                                           raises: (HandlerId, JsonValue) -> bool, k: JsonValue)
    requires WellFormedOrders(slots, orders) && QuietStar(slots, orders, raises)
    requires HasKey(orders, k)
    ensures var p := RunOrders(slots, orders, raises);
      k in p.slots && p.slots[k] == Pending(QueueOf(slots, k) + WithKey(orders, k))
    decreases |orders|
  {
    var key := OrderKey(orders[0]).value;
    var s2 := slots[key := Pending(QueueOf(slots, key) + [orders[0]])];
    var rest := orders[1..];
    QuietUnfold(slots, orders, raises);
    QueueAfterFirst(slots, orders, k);
    if HasKey(rest, k) {
      RunOrdersAppends(s2, rest, raises, k);
    } else {
      HasKeyCons(orders, k);
      RunOrdersKeepsOtherKeys(s2, rest, raises, k);
      WithKeyEmpty(rest, k);
      assert QueueOf(s2, k) + WithKey(rest, k) == QueueOf(s2, k);
    }
  }

  lemma {:induction false} WithKeyEmpty(orders: seq<JsonValue>, k: JsonValue)
    requires !HasKey(orders, k)
    ensures WithKey(orders, k) == []
    decreases |orders|
  {
    if orders != [] {
      HasKeyCons(orders, k);
      WithKeyEmpty(orders[1..], k);
    }
  }

  /** `calls` holds exactly one call per name in `names`, each to the
      handler registered under that name, with `info`. */
  ghost predicate CallsCover(calls: seq<Delivery>, handlers: map<string, HandlerId>, info: JsonValue, names: set<string>) {
    && |calls| == |names|
    && (forall j :: 0 <= j < |calls| ==>
          calls[j].InfoCall? && calls[j].name in names && calls[j].name in handlers
          && calls[j].infoHandler == handlers[calls[j].name] && calls[j].info == info)
    && (forall i, j :: 0 <= i < j < |calls| ==> calls[i].name != calls[j].name)
    && (forall n :: n in names ==> exists j :: 0 <= j < |calls| && calls[j].name == n)
  }

  /** `after` extends `before` by exactly one call per registered info
      handler, each with `info`. */
  ghost predicate InfoFanOut(before: seq<Delivery>, after: seq<Delivery>, handlers: map<string, HandlerId>, info: JsonValue) {
    |before| <= |after| && after[..|before|] == before && CallsCover(after[|before|..], handlers, info, handlers.Keys)
  }

  lemma CallsCoverAppend(calls: seq<Delivery>, handlers: map<string, HandlerId>, info: JsonValue,
                         names: set<string>, n: string)
    requires CallsCover(calls, handlers, info, names) && n in handlers && n !in names
    ensures CallsCover(calls + [InfoCall(n, handlers[n], info)], handlers, info, names + {n})
  {
    var next := calls + [InfoCall(n, handlers[n], info)];
    forall j | 0 <= j < |next|
      ensures next[j].InfoCall? && next[j].name in names + {n} && next[j].name in handlers
      ensures next[j].infoHandler == handlers[next[j].name] && next[j].info == info
    {
      if j < |calls| { assert next[j] == calls[j]; }
    }
    forall i, j | 0 <= i < j < |next| ensures next[i].name != next[j].name {
      assert next[i] == calls[i];
      if j < |calls| { assert next[j] == calls[j]; }
    }
    forall m | m in names + {n} ensures exists j :: 0 <= j < |next| && next[j].name == m {
      if m == n {
        assert next[|next| - 1].name == n;
      } else {
        var j :| 0 <= j < |calls| && calls[j].name == m;
        assert next[j] == calls[j];
      }
    }
  }

  /** The calls of the info loop: every handler once, in some order of
      the names. */
  method InfoCalls(handlers: map<string, HandlerId>, info: JsonValue) returns (calls: seq<Delivery>)
    ensures CallsCover(calls, handlers, info, handlers.Keys)
  {
    calls := [];
    var names := handlers.Keys;
    var done: set<string> := {};
    while names != {}
      invariant names !! done && names + done == handlers.Keys
      invariant CallsCover(calls, handlers, info, done)
      decreases names
    {
      var n :| n in names;
      CallsCoverAppend(calls, handlers, info, done, n);
      calls := calls + [InfoCall(n, handlers[n], info)];
      names := names - {n};
      done := done + {n};
    }
  }

  /** The body of the order loop for one order `o`: the table after it,
      the handler calls it made, and whether it raised. */
  method PutOrder(slots0: Slots, o: JsonValue, raises: (HandlerId, JsonValue) -> bool)
    returns (slots: Slots, calls: seq<Delivery>, stopped: bool)
    ensures OrderStep(slots0, o, raises) == Progress(slots, calls, stopped)
  {
    slots, calls, stopped := slots0, [], false;
    var key := OrderKey(o);
    if key.None? {
      stopped := true;
      return;
    }
    var k := key.value;
    if k !in slots {
      slots := slots[k := Pending([])];
    }
    match slots[k]
    case Callback(_) =>
      stopped := true;
    case Pending(q) =>
      slots := slots[k := Pending(q + [o])];
      if Star in slots {
        match slots[Star]
        case Pending(_) =>
          stopped := true;
        case Callback(h) =>
          calls := [OrderCall(h, o)];
          stopped := raises(h, o);
      }
  }

  /** One turn of `RunOrders` from position `i`, given what the step at `i`
      does. */
  lemma RunOrdersFrom(slots: Slots, orders: seq<JsonValue>, i: nat, raises: (HandlerId, JsonValue) -> bool,
                      next: Slots, made: seq<Delivery>, stopped: bool)
    requires i < |orders| && OrderStep(slots, orders[i], raises) == Progress(next, made, stopped)
    ensures stopped ==> RunOrders(slots, orders[i..], raises) == Progress(next, made, true)
    ensures !stopped ==>
      var q := RunOrders(next, orders[i + 1..], raises);
      RunOrders(slots, orders[i..], raises) == Progress(q.slots, made + q.calls, q.stopped)
  {
    assert orders[i..][0] == orders[i] && orders[i..][1..] == orders[i + 1..];
  }

  /** The order loop of `on_message`, run over `orders` against the order
      table `slots`: the table it leaves and the handler calls it makes. */
  method OrderLoop(slots0: Slots, orders: seq<JsonValue>, raises: (HandlerId, JsonValue) -> bool)
    returns (slots: Slots, calls: seq<Delivery>)
    ensures RunOrders(slots0, orders, raises) == Progress(slots, calls, RunOrders(slots0, orders, raises).stopped)
  {
    slots, calls := slots0, [];
    var i := 0;
    var stopped := false;
    while i < |orders| && !stopped
      invariant 0 <= i <= |orders|
      invariant !stopped ==>
        var rest := RunOrders(slots, orders[i..], raises);
        RunOrders(slots0, orders, raises) == Progress(rest.slots, calls + rest.calls, rest.stopped)
      invariant stopped ==> RunOrders(slots0, orders, raises) == Progress(slots, calls, true)
      decreases |orders| - i
    {
      ghost var slotsBefore, callsBefore := slots, calls;
      var made;
      slots, made, stopped := PutOrder(slots, orders[i], raises);
      RunOrdersFrom(slotsBefore, orders, i, raises, slots, made, stopped);
      calls := calls + made;
      if !stopped {
        var q := RunOrders(slots, orders[i + 1..], raises);
        assert callsBefore + (made + q.calls) == calls + q.calls;
      }
      i := i + 1;
    }
    if !stopped {
      assert orders[i..] == [];
    }
  }

  // ---------------------------------------------------------------------------
  // The session

  class AccountWs {
    var wsState: WsState
    var wsSupport: bool
    var lastPong: int
    var isRunning: bool
    /** The keys of `sub_queue`, in insertion order. */
    var topics: seq<Topic>
    /** `sub_queue['info']`. */
    var infoHandlers: map<string, HandlerId>
    /** `sub_queue['order']`. */
    var orderSlots: Slots
    var sent: seq<Outbound>
    var delivered: seq<Delivery>

    /** Each topic at most once; an absent topic has an empty table. */
    predicate Valid()
      reads this
    {
      && Distinct(topics)
      && (InfoTopic !in topics ==> infoHandlers == map[])
      && (OrderTopic !in topics ==> orderSlots == map[])
    }

    /** `__init__`, state part: running, idle, pushes assumed supported, no
        pong yet, nothing subscribed. */
    constructor ()
      ensures Valid()
      ensures wsState == Idle && wsSupport && lastPong == 0 && isRunning
      ensures topics == [] && sent == [] && delivered == []
    {
      wsState := Idle;
      wsSupport := true;
      lastPong := 0;
      isRunning := true;
      topics := [];
      infoHandlers := map[];
      orderSlots := map[];
      sent := [];
      delivered := [];
    }

    /** `set_ws_state`: only the state changes. */
    method SetWsState(next: WsState)
      modifies this
      ensures wsState == next
      ensures wsSupport == old(wsSupport) && lastPong == old(lastPong) && isRunning == old(isRunning)
      ensures topics == old(topics) && infoHandlers == old(infoHandlers) && orderSlots == old(orderSlots)
      ensures sent == old(sent) && delivered == old(delivered)
    {
      wsState := next;
    }

    /** `subscribe_info(handler, handler_name)`. Without push support nothing
        changes. Otherwise the handler is stored under its name ('default'
        when none), replacing any handler of that name; then READY sends one
        `sub-info` (on every call) and IDLE moves to going-to-connect. */
    method SubscribeInfo(handler: HandlerId, name: Option<string>)
      requires Valid()
      modifies this
      ensures Valid()
      ensures !old(wsSupport) ==> unchanged(this)
      ensures wsSupport == old(wsSupport) && lastPong == old(lastPong) && isRunning == old(isRunning)
      ensures orderSlots == old(orderSlots) && delivered == old(delivered)
      ensures old(wsSupport) ==>
        && topics == (if InfoTopic in old(topics) then old(topics) else old(topics) + [InfoTopic])
        && infoHandlers == old(infoHandlers)[NameOrDefault(name) := handler]
        && sent == old(sent) + (if old(wsState) == Ready then [Sub(InfoTopic)] else [])
        && wsState == (if old(wsState) == Idle then GoingToConnect else old(wsState))
    {
      if !wsSupport {
        return;
      }
      if InfoTopic !in topics {
        topics := topics + [InfoTopic];
      }
      infoHandlers := infoHandlers[NameOrDefault(name) := handler];
      if wsState == Ready {
        sent := sent + [Sub(InfoTopic)];
      } else if wsState == Idle {
        SetWsState(GoingToConnect);
      }
    }

    /** `unsubscribe_info(handler_name)`. With 'info' subscribed, the named
        handler is removed; an unknown name raises KeyError (`keyError`) and
        changes nothing. When the last handler goes while READY, `unsub-info`
        is sent and 'info' deleted; otherwise an empty 'info' entry stays. An
        empty registry outside IDLE then moves to going-to-disconnect. Without
        'info' nothing happens. */
    method UnsubscribeInfo(name: Option<string>) returns (keyError: bool)
      requires Valid()
      modifies this
      ensures Valid()
      ensures wsSupport == old(wsSupport) && lastPong == old(lastPong) && isRunning == old(isRunning)
      ensures orderSlots == old(orderSlots) && delivered == old(delivered)
      ensures keyError <==> InfoTopic in old(topics) && NameOrDefault(name) !in old(infoHandlers)
      ensures InfoTopic !in old(topics) || keyError ==> unchanged(this)
      ensures InfoTopic in old(topics) && !keyError ==>
        var remaining := old(infoHandlers) - {NameOrDefault(name)};
        var drop := remaining == map[] && old(wsState) == Ready;
        && infoHandlers == remaining
        && topics == (if drop then Without(old(topics), InfoTopic) else old(topics))
        && sent == old(sent) + (if drop then [Unsub(InfoTopic)] else [])
        && wsState == (if topics == [] && old(wsState) != Idle then GoingToDisconnect else old(wsState))
    {
      keyError := false;
      var n := NameOrDefault(name);
      if InfoTopic in topics {
        if n !in infoHandlers {
          keyError := true;
          return;
        }
        infoHandlers := infoHandlers - {n};
        if infoHandlers == map[] && wsState == Ready {
          sent := sent + [Unsub(InfoTopic)];
          topics := Without(topics, InfoTopic);
        }
        if topics == [] && wsState != Idle {
          SetWsState(GoingToDisconnect);
        }
      }
    }

    /** `subscribe_orders(handler)`: creates 'order' when absent and stores
        the handler under '*' only when one is given; then READY sends one
        `sub-order` and IDLE moves to going-to-connect. There is no push
        support check here. */
    method SubscribeOrders(handler: Option<HandlerId>)
      requires Valid()
      modifies this
      ensures Valid()
      ensures wsSupport == old(wsSupport) && lastPong == old(lastPong) && isRunning == old(isRunning)
      ensures infoHandlers == old(infoHandlers) && delivered == old(delivered)
      ensures topics == (if OrderTopic in old(topics) then old(topics) else old(topics) + [OrderTopic])
      ensures orderSlots == (if handler.Some? then old(orderSlots)[Star := Callback(handler.value)] else old(orderSlots))
      ensures sent == old(sent) + (if old(wsState) == Ready then [Sub(OrderTopic)] else [])
      ensures wsState == (if old(wsState) == Idle then GoingToConnect else old(wsState))
    {
      if OrderTopic !in topics {
        topics := topics + [OrderTopic];
      }
      if handler.Some? {
        orderSlots := orderSlots[Star := Callback(handler.value)];
      }
      if wsState == Ready {
        sent := sent + [Sub(OrderTopic)];
      } else if wsState == Idle {
        SetWsState(GoingToConnect);
      }
    }

    /** `unsubcribe_orders`: deletes 'order' if present, sends `unsub-order`
        whenever READY (subscribed or not), and moves an emptied registry
        outside IDLE to going-to-disconnect. */
    method UnsubscribeOrders()
      requires Valid()
      modifies this
      ensures Valid()
      ensures wsSupport == old(wsSupport) && lastPong == old(lastPong) && isRunning == old(isRunning)
      ensures infoHandlers == old(infoHandlers) && delivered == old(delivered)
      ensures topics == Without(old(topics), OrderTopic) && orderSlots == map[]
      ensures sent == old(sent) + (if old(wsState) == Ready then [Unsub(OrderTopic)] else [])
      ensures wsState == (if topics == [] && old(wsState) != Idle then GoingToDisconnect else old(wsState))
    {
      if OrderTopic in topics {
        topics := Without(topics, OrderTopic);
        orderSlots := map[];
      }
      if wsState == Ready {
        sent := sent + [Unsub(OrderTopic)];
      }
      if topics == [] && wsState != Idle {
        SetWsState(GoingToDisconnect);
      }
    }

    /** `close`, state part: stop running and go to going-to-disconnect. */
    method Close()
      modifies this
      ensures !isRunning && wsState == GoingToDisconnect
      ensures wsSupport == old(wsSupport) && lastPong == old(lastPong)
      ensures topics == old(topics) && infoHandlers == old(infoHandlers) && orderSlots == old(orderSlots)
      ensures sent == old(sent) && delivered == old(delivered)
    {
      isRunning := false;
      SetWsState(GoingToDisconnect);
    }

    /** The resubscription of `on_message`: one `sub-<key>` per key of the
        registry, in its order. */
    method SendSubscriptions()
      modifies this
      ensures sent == old(sent) + SubFrames(topics)
      ensures wsState == old(wsState) && wsSupport == old(wsSupport) && lastPong == old(lastPong)
      ensures isRunning == old(isRunning) && topics == old(topics) && infoHandlers == old(infoHandlers)
      ensures orderSlots == old(orderSlots) && delivered == old(delivered)
    {
      var i := 0;
      while i < |topics|
        invariant 0 <= i <= |topics|
        invariant sent == old(sent) + SubFrames(topics)[..i]
        invariant wsState == old(wsState) && wsSupport == old(wsSupport) && lastPong == old(lastPong)
        invariant isRunning == old(isRunning) && topics == old(topics) && infoHandlers == old(infoHandlers)
        invariant orderSlots == old(orderSlots) && delivered == old(delivered)
      {
        sent := sent + [Sub(topics[i])];
        i := i + 1;
      }
    }

    /** The info branch of `on_message`: every registered handler is called
        once with the info; an exception in one does not stop the others. */
    method FanOutInfo(info: JsonValue)
      modifies this
      ensures InfoFanOut(old(delivered), delivered, infoHandlers, info)
      ensures wsState == old(wsState) && wsSupport == old(wsSupport) && lastPong == old(lastPong)
      ensures isRunning == old(isRunning) && topics == old(topics) && infoHandlers == old(infoHandlers)
      ensures orderSlots == old(orderSlots) && sent == old(sent)
    {
      var calls := InfoCalls(infoHandlers, info);
      delivered := delivered + calls;
    }

    /** The order branch of `on_message`: the loop over the frame's orders,
        which stops at the first exception, keeping what it changed. */
    method ApplyOrders(orders: seq<JsonValue>, raises: (HandlerId, JsonValue) -> bool)
      modifies this
      ensures var p := RunOrders(old(orderSlots), orders, raises);
        orderSlots == p.slots && delivered == old(delivered) + p.calls
      ensures wsState == old(wsState) && wsSupport == old(wsSupport) && lastPong == old(lastPong)
      ensures isRunning == old(isRunning) && topics == old(topics) && infoHandlers == old(infoHandlers)
      ensures sent == old(sent)
    {
      var slots, calls := OrderLoop(orderSlots, orders, raises);
      orderSlots := slots;
      delivered := delivered + calls;
    }

    /** `on_message(message)`, with the decoded frame (None when `json.loads`
        failed), the clock reading `now` used for a pong, and `raises(h, o)`
        telling whether the order handler `h` raises on order `o`. Every
        exception inside is caught: the frame then keeps whatever it had
        already changed. */
    method OnMessage(frame: Option<JsonValue>, now: int, raises: (HandlerId, JsonValue) -> bool)
      requires Valid()
      modifies this
      ensures Valid()
      ensures var act := Route(frame, InfoTopic in old(topics), OrderTopic in old(topics));
        && topics == old(topics) && infoHandlers == old(infoHandlers) && isRunning == old(isRunning)
        && wsSupport == (old(wsSupport) && act != DisableSupport)
        && lastPong == (if act == RecordPong then now else old(lastPong))
        && wsState == (if act == Connected then Ready else if act == Reconnect then GoingToConnect else old(wsState))
        && sent == old(sent) + (if act == Connected then SubFrames(old(topics)) else [])
        && (act.UpdateOrders? ==>
              var p := RunOrders(old(orderSlots), act.orders, raises);
              orderSlots == p.slots && delivered == old(delivered) + p.calls)
        && (act.DeliverInfo? ==>
              orderSlots == old(orderSlots) && InfoFanOut(old(delivered), delivered, old(infoHandlers), act.payload))
        && (!act.UpdateOrders? && !act.DeliverInfo? ==> orderSlots == old(orderSlots) && delivered == old(delivered))
    {
      var act := Route(frame, InfoTopic in topics, OrderTopic in topics);
      match act
      case NoChange =>
      case DisableSupport =>
        wsSupport := false;
      case RecordPong =>
        lastPong := now;
      case Connected =>
        SetWsState(Ready);
        SendSubscriptions();
      case Reconnect =>
        SetWsState(GoingToConnect);
      case DeliverInfo(info) =>
        FanOutInfo(info);
      case UpdateOrders(orders) =>
        ApplyOrders(orders, raises);
    }
  }

  /** A session whose exchange refused pushes stays that way: no method sets
      `wsSupport` back, and `subscribe_info` then changes nothing. */
  method SupportNeverComesBack(s: AccountWs, frame: Option<JsonValue>, now: int,
                               raises: (HandlerId, JsonValue) -> bool, h: HandlerId, name: Option<string>)
    requires s.Valid() && !s.wsSupport
    modifies s
    ensures s.Valid() && !s.wsSupport
  {
    s.OnMessage(frame, now, raises);
    var st := s.wsState;
    var before := s.sent;
    s.SubscribeInfo(h, name);
    assert s.wsState == st && s.sent == before;
    var _ := s.UnsubscribeInfo(name);
    s.SubscribeOrders(Some(h));
    s.UnsubscribeOrders();
    s.Close();
  }
}
