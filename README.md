# onetoken-py-sdk-sync, modelled in Dafny

A model of the client-side core of the 1Token Python SDK. The SDK is a synchronous client for the 1Token
trading gateway. The model covers five parts of it:

- **Account push session** (`onetoken_sync/account_ws.py`, module `AccountWs`).
  - The class `AccountWs` holds the connection state machine: idle, going-to-connect, connecting, ready, going-to-disconnect.
  - It also holds the push-support flag, the last pong time and `sub_queue`, the subscription registry.
  - `sub_queue` has an `info` table from handler names to handlers. It also has an `order` table from `*` to the order handler and from each exchange oid to a FIFO queue of that order's updates.
  - The methods subscribe, unsubscribe, close and dispatch received frames (`on_message`).
  - They update the fields in place, append the frames they write to `sent` and append the handler calls they make to `delivered`.
- **REST account** (`onetoken/account.py`, module `Account`).
  - `Account.__init__` splits a margin symbol.
  - Every endpoint method is reduced to the `api_call` arguments it builds (`CallOf`); the query and body dicts are built by conditional insertion.
  - `api_call` composes the signed request: URL, signed path, body, headers, and the verbs it accepts.
  - `get_info` checks its result; `place_and_cancel` sequences two calls.
- **Utilities** (`onetoken/util.py`, module `Util`).
  - `rand_id`, `rand_client_oid` and `rand_client_wid`. The random source is an oracle `rng: nat -> nat` and the clock is a `DateTime` argument.
  - `http_go`, which classifies a transport outcome into the `(value, error)` pair.
- **Market-data session** (`onetoken/quote.py`, module `Quote`).
  - The class `Quote` keeps the subscription keys, the data queues, the `on_update` handlers, the connected/authorized flags and the pong time.
  - `subscribe_data` derives the subscription key and registers the queue and handler.
  - The receive loop classifies each frame and acts on it.
  - The reconnect loop has a back-off (`sleep_seconds`) and replays the subscriptions.
  - The heartbeat decides between ping and close.
  - The work the source spreads over threads is given as the steps each thread takes.
- **Signed request demo** (`demo_private.py`, module `DemoPrivate`).
  - `gen_sign` builds its message from the verb, the path component of the URL (as `urllib.parse.urlparse` computes it), the nonce and the body.
  - HMAC-SHA256 (RFC 2104 over FIPS 180-4) is an uninterpreted function argument.
  - `api_call` composes the request.

Shared helpers: `Wrappers` (Option/Result), `Json` (JSON values with ordered objects and Python truthiness) and `Text` (ASCII case mapping, `find`, `split`, `join`, decimal rendering, zero padding).

### External inputs

Everything the source gets from outside the process is a parameter:

| Source | Parameter |
|---|---|
| `json.loads` result | an `Option<JsonValue>` carried by the frame or response (None: decoding raised) |
| `json.dumps` | `dumps: JsonValue -> string` |
| HMAC / `util.gen_sign` | a function argument |
| random draws | `rng` |
| clock readings | `DateTime` or `int` arguments |
| `gen_nonce` | a `nat` argument |
| whether a socket write or a handler raises | a boolean, or a function argument |
| what the HTTP transport did | `Transport` |

Three helpers are inputs, not code: `get_name_exchange`, `get_trans_host` and `get_ws_host`.

### Where the code is followed over the written description

The model follows the code where the two differ:

- While READY, `subscribe_info` sends `sub-info` on every call, not once per topic.
- `unsubcribe_orders` sends `unsub-order` whenever the state is READY, whether or not orders were subscribed.
- In `api_call` / `http_go`, a response body that is the JSON document `null` gives the pair `(None, None)`, so the pair does not always have exactly one non-None component.
  - `Util.JsonReplyComponents` states exactly when both are None.
- Replaying a single-candle subscription sends uri `single-candle`, because the key records that uri.
  - `Quote.ReplayKeyIsStable` states this.
- `subscribe_orders` has no push-support check; only `subscribe_info` has one.

## Model

| member | source | states |
|---|---|---|
| AccountWs.AccountWs.constructor | onetoken_sync/account_ws.py:32-37 | a new session is running, idle, assumes push support, has no pong, subscribes nothing and has sent nothing |
| AccountWs.AccountWs.SetWsState | onetoken_sync/account_ws.py:39-41 | only the state changes, to the given one |
| AccountWs.AccountWs.SubscribeInfo | onetoken_sync/account_ws.py:169-181 | without push support nothing changes; otherwise the handler replaces any handler of its name ('default' when none), 'info' is added once, READY sends one `sub-info`, IDLE becomes going-to-connect, other states neither; the registry invariant is kept |
| AccountWs.AccountWs.UnsubscribeInfo | onetoken_sync/account_ws.py:183-192 | KeyError exactly when 'info' exists without the name, and then nothing changes; otherwise exactly that handler goes; 'info' is deleted and `unsub-info` sent only when it empties while READY (an empty entry stays otherwise); an empty registry outside IDLE becomes going-to-disconnect |
| AccountWs.AccountWs.SubscribeOrders | onetoken_sync/account_ws.py:194-202 | 'order' is added once; the handler is stored under '*' only when given; READY sends one `sub-order`, IDLE becomes going-to-connect |
| AccountWs.AccountWs.UnsubscribeOrders | onetoken_sync/account_ws.py:204-210 | 'order' and its table are removed; `unsub-order` is sent whenever READY; an empty registry outside IDLE becomes going-to-disconnect |
| AccountWs.AccountWs.Close | onetoken_sync/account_ws.py:228-230 | the session stops running and goes to going-to-disconnect; nothing else changes |
| AccountWs.AccountWs.SendSubscriptions | onetoken_sync/account_ws.py:120-121 | exactly one `sub-<key>` per registry key, in registry order, is appended to what was sent |
| AccountWs.AccountWs.FanOutInfo | onetoken_sync/account_ws.py:128-134 | every registered info handler is called exactly once with the info, none other, and earlier calls are kept |
| AccountWs.AccountWs.ApplyOrders | onetoken_sync/account_ws.py:137-147 | the order table and the handler calls are those of the order loop `RunOrders` over the frame's orders |
| AccountWs.AccountWs.OnMessage | onetoken_sync/account_ws.py:100-154 | for the branch `Route` picks: 'no-router-found' clears push support; pong records the time; a connection/status frame with ok/connected sets READY and sends one `sub-<key>` per key; any other such frame sets going-to-connect; info fans out; orders run the order loop; nothing else changes and the registry invariant is kept |
| AccountWs.SupportNeverComesBack | onetoken_sync/account_ws.py:104-110 | once push support is off, a frame followed by each public method (subscribe/unsubscribe info and orders, close) leaves it off and the registry invariant kept |
| AccountWs.Route | onetoken_sync/account_ws.py:100-154 | support is disabled exactly by an object frame without 'uri' whose code is 'no-router-found'; a pong exactly for uri 'pong'; READY exactly for uri connection/status whose code (else status) is ok or connected; a frame with uri connection/status, any other code and a 'message' reconnects, and exactly those; info is delivered exactly for an ok 'info' frame with data while 'info' is subscribed, and the payload is that data; orders are handled exactly for an ok 'order' frame whose data is a list while 'order' is subscribed, and the orders are that list; every other frame changes nothing |
| AccountWs.SubFrames | onetoken_sync/account_ws.py:120-121 | one `sub-<key>` frame per key, in order |
| AccountWs.InfoCalls | onetoken_sync/account_ws.py:130-134 | the info loop calls each registered handler once, with its own name and the info |
| AccountWs.PutOrder | onetoken_sync/account_ws.py:138-147 | one turn of the order loop does what `OrderStep` specifies: create the queue if absent, put the order, call '*' if present; a missing key, a handler in the oid slot or a raising handler stops the loop |
| AccountWs.OrderLoop | onetoken_sync/account_ws.py:137-147 | the loop leaves the table and makes the calls of `RunOrders`, stopping at the first exception with what it had changed |
| AccountWs.StepKeepsOtherKeys | onetoken_sync/account_ws.py:140-144 | one order changes no entry but its own exchange oid's |
| AccountWs.RunOrdersKeepsOtherKeys | onetoken_sync/account_ws.py:137-147 | queues of oids that no order carries are untouched, whether or not the loop stops early |
| AccountWs.QuietStep | onetoken_sync/account_ws.py:140-147 | a well-formed order with a non-raising '*' goes to the back of its queue and is handed to '*' once |
| AccountWs.RunOrdersQuiet | onetoken_sync/account_ws.py:137-147 | when no order raises, the loop runs to the end and '*' (if present) sees every order exactly once, in order |
| AccountWs.RunOrdersKeys | onetoken_sync/account_ws.py:140-142 | when no order raises, the table holds exactly the old keys plus the oids the orders carry |
| AccountWs.RunOrdersAppends | onetoken_sync/account_ws.py:140-144 | when no order raises, each oid's queue is its old contents (empty if new) followed by exactly that oid's orders, in arrival order |
| Account.NewAccount | onetoken/account.py:25-38 | a name holding '/' is split at its first '/': name is the prefix (without '/'), margin contract is exchange + '/' + the rest; otherwise the name is kept and there is no margin contract |
| Account.JoinOids | onetoken/account.py:87-88 | with no extra oids the oid is unchanged |
| Account.JoinOidsSplits | onetoken/account.py:87-88 | splitting a joined batch at ',' gives back the first oid followed by the extra oids, when none holds a comma |
| Account.AddIf | onetoken/account.py:218-223 | conditional insertion appends the key exactly when the condition holds, with its value |
| Account.AddIfKeeps | onetoken/account.py:218-223 | conditional insertion keeps the earlier entries, in order and with their values |
| Account.OrderListParams | onetoken/account.py:67-73 | the query holds `contract` and `state` only when truthy and `helper` only when the source is not None, in that order, with the given values |
| Account.Optional3 | onetoken/account.py:262-267 | three optional entries appear exactly when their flags hold, in order, with their values |
| Account.FixedThenOptional | onetoken/account.py:214-223 | lookups of optional keys after the fixed entries reach the optional part |
| Account.PlaceOrderData | onetoken/account.py:214-223 | contract, price, bs and amount always, then `client_oid` and `options` only when truthy and `tags` (rendered `k:v` joined by ',') only when non-empty |
| Account.PlaceOrderDataStartsFixed | onetoken/account.py:214-217 | the four fixed entries come first, with the caller's values |
| Account.PostWithdrawData | onetoken/account.py:253-267 | currency, amount, address always; `fee` when not None; `client_wid` generated by `rand_client_wid` when None and sent when truthy; `options` JSON-encoded when truthy |
| Account.PostWithdrawDataStartsFixed | onetoken/account.py:257-261 | the three fixed entries come first, with the caller's values |
| Account.ContractOrMargin | onetoken/account.py:302-333 | a missing contract falls back to the account's margin contract |
| Account.CallOf | onetoken/account.py:63-333 | every endpoint method makes a call whose verb `api_call` accepts, whose params and data are None or dicts, with timeout 15 |
| Account.PrepareRequest | onetoken/account.py:335-358 | any verb other than GET/POST/PATCH/DELETE (case-insensitive) raises 'Invalid http method'; otherwise the URL is trans_path + endpoint, the body is '' for falsy data and is the string signed, the signed path is `/{exchange}/{name}{endpoint}`, and the nonce header is the signed nonce in decimal |
| Account.ApiCall | onetoken/account.py:335-362 | raises exactly for a rejected verb; otherwise the pair never has two non-None parts, has no error exactly when the answer is a JSON document with status below 400, and then carries the loaded value; the error is the one `http_go` reports |
| Account.UrlAndSignedPathShareTail | onetoken/account.py:349-351 | the URL and the signed path end in the same `/{name}{endpoint}`, behind the host and behind `/{exchange}` respectively |
| Account.GetInfo | onetoken/account.py:118-128 | a call error is passed on; a value that is not a dict is a ValueError; a dict reply always succeeds and returns that dict; the result is narrowed to a position symbol exactly when the account has a margin contract, and that symbol is the one built from the contract |
| Account.MarginPosSymbolIsNameSuffix | onetoken/account.py:125-127 | the position symbol is the part of the account name behind its first '/' |
| Account.PlaceAndCancel | onetoken/account.py:130-139 | the order is placed under `rand_client_oid(con)`; a failed placement sends no cancel and returns no reply and `http_go`'s error; otherwise exactly one cancel under that oid follows, the placement's reply is returned, and the cancel fails exactly when its `http_go` reports an error, returning that error and no cancel reply, or else returns its reply |
| Account.PlaceAndCancelTargetsPlacedOid | onetoken/account.py:131-136 | when a cancel is sent, its `client_oid` is the one the order body carried |
| Util.SignedHeaders | onetoken/account.py:353-358 | the headers carry the nonce, the key, the signature and the JSON content type |
| Util.RandId | onetoken/util.py:9-17 | requires length >= 1; exactly `length` characters, the first an ASCII letter, all letters or digits |
| Util.RandIdCoversShape | onetoken/util.py:12-16 | every string of that shape is produced by some draws, so the contract of RandId is exact |
| Util.StampRoundTrip | onetoken/util.py:26 | the `YYYYMMDD` and `HHmmss` renderings read back to the clock reading |
| Util.RandClientOid | onetoken/util.py:20-29 | contract, '-', 14 digits of time stamp, then 14 random characters starting with a letter |
| Util.ClientOidRoundTrip | onetoken/util.py:26-28 | the contract and the clock reading are read back from the oid |
| Util.RandClientWid | onetoken/util.py:32-42 | `exchange/currency-` + 8 digits + '-' + 6 digits + '-' + 5 random characters starting with a letter |
| Util.ClientWidRoundTrip | onetoken/util.py:39-41 | the clock reading is read back from the wid |
| Util.Loaded | onetoken/util.py:85 | a loaded JSON document is Python None exactly when it is `null` |
| Util.HttpGo | onetoken/util.py:45-87 | timeout gives TIMEOUT with '', an HTTP exception HTTP_ERROR with its text, 5xx and 4xx their codes with the raw text; no error exactly for a status below 400 with a JSON body in json mode; json mode gives NOT_JSON or the loaded value; text and raw give the text and the response; an error never comes with a value |
| Util.ErrorStatusIgnoresBody | onetoken/util.py:73-77 | a 4xx or 5xx answer is classified on its status alone, whatever its body decodes to |
| Util.JsonReplyComponents | onetoken/util.py:83-87 | in json mode at most one component is set, and both are None exactly for a `null` body below status 400 |
| DemoPrivate.PlainPathIsItsOwnPath | demo_private.py:35-36 | a path starting with a single '/' and without '?', '#', ';' parses to itself |
| DemoPrivate.AbsoluteUrlPath | demo_private.py:35-36 | `scheme://host` followed by such a path parses to that path |
| DemoPrivate.SignatureIgnoresUrlBase | demo_private.py:32-39 | an absolute URL and its bare path sign the same, and a None body signs like an empty one |
| DemoPrivate.SignedMessageParts | demo_private.py:39 | the signed message splits back into verb, path, nonce and body at their lengths |
| DemoPrivate.ApiCall | demo_private.py:49-63 | requires params and data to be None or dicts; the verb is upper-cased, the URL is the fixed base + endpoint, the body is '' for falsy data, and the nonce and signature headers carry the signed nonce and the HMAC of verb + endpoint path + nonce + body |
| DemoPrivate.SignatureReproducible | demo_private.py:56-61 | the signature header is recomputed from the request's own verb, nonce header and body with the endpoint as path, while the URL's path is `/api/v1/trade` + endpoint |
| DemoPrivate.BaseUrlPath | demo_private.py:56 | the path of a demo URL is `/api/v1/trade` followed by the endpoint |
| Quote.Quote.constructor | onetoken/quote.py:21-32 | no socket, no subscriptions, not connected or authorized, pong 0, reconnecting enabled |
| Quote.Quote.SubscribeData | onetoken/quote.py:139-164 | blocked exactly while not connected and authorized, with nothing changed; a failing write changes nothing; otherwise the message `{'uri': uri, **args}` is sent, the key's queue is created only if absent and `on_update` is appended to its handlers when given; the registry invariant is kept |
| Quote.Quote.Register | onetoken/quote.py:155-164 | the queue is created only if absent, the handler is appended when given, a new handler key is listed once |
| Quote.Quote.ReplaySubscriptions | onetoken/quote.py:70-76 | every key with handlers is resubscribed once, in order, with the frames of the writes that go through, and the registry is unchanged |
| Quote.Quote.ConnectAttempt | onetoken/quote.py:42-62 | a successful attempt opens the socket, sends auth, sets connected and refreshes the pong time; a failed one drops the socket |
| Quote.Quote.AwaitAuth | onetoken/quote.py:63-69 | a session still not authorized at the end of the wait closes its socket |
| Quote.Quote.OnFrame | onetoken/quote.py:97-128 | one frame changes the pong time, authorization and queues exactly as `Apply` of its `Classify` effect, and ends the loop exactly for close and other opcodes |
| Quote.Quote.ReceiveLoop | onetoken/quote.py:92-135 | queues and pong are those of `Absorb` over the frames; when a frame ends the loop or the socket closes, the socket is closed and the session is neither connected nor authorized; when a read raises first, the socket and the connected flag are as before and authorized is that of `Absorb` |
| Quote.StoppedIff | onetoken/quote.py:97-125 | the loop is ended by a frame exactly when some frame is neither text nor binary |
| Quote.Quote.Disconnected | onetoken/quote.py:129-134 | the socket is closed and connected and authorized are cleared; nothing else changes |
| Quote.Quote.HeartBeatStep | onetoken/quote.py:80-90 | with the socket open, a pong older than 20 s closes it and sends nothing; otherwise a ping is sent, and a failing write ends the loop |
| Quote.Quote.Close | onetoken/quote.py:180-186 | reconnecting stops and the socket is closed |
| Quote.KeyUri | onetoken/quote.py:146-148 | 'subscribe-single-candle' is filed as 'single-candle'; every other uri is kept |
| Quote.Message | onetoken/quote.py:143-144 | the message holds the uri and exactly the keyword arguments |
| Quote.SubscriptionKey | onetoken/quote.py:143-149 | the key holds the renamed uri and exactly the arguments; it equals the message except for single-candle |
| Quote.SameKeyIff | onetoken/quote.py:143-149 | two subscriptions share a key if and only if their arguments agree and their uris agree after renaming |
| Quote.CandleAlias | onetoken/quote.py:146-149 | 'subscribe-single-candle' and 'single-candle' with the same arguments share a queue, while the message sent keeps 'subscribe-single-candle' |
| Quote.ReplayKeyIsStable | onetoken/quote.py:74-76 | replaying a key subscribes under that same key and sends the key's own fields |
| Quote.UriOf | onetoken/quote.py:103 | a frame without 'uri' reads as 'data' |
| Quote.Classify | onetoken/quote.py:97-125 | close and other opcodes stop; pong and auth exactly for those uris; parsed data is enqueued exactly for a decoded object with a non-control uri that the parser maps to a key, with the parser's key and data |
| Quote.NoUriGoesToParser | onetoken/quote.py:103-114 | a frame without 'uri' goes to the parser |
| Quote.ApplyQueues | onetoken/quote.py:118-119 | one effect creates no queue and adds at most its own data to its own key's queue |
| Quote.AbsorbAppends | onetoken/quote.py:94-128 | the receive loop creates no queue, and each subscribed queue gets exactly its key's data, in arrival order, after its old contents |
| Quote.AbsorbPongIsLatest | onetoken/quote.py:104-105 | the pong time after the loop is the old one or the time of a pong frame read before the loop ended |
| Quote.NextDelay | onetoken/quote.py:55-60 | the delay is reset to 2 after a success and doubled after a failure, up to 64 |
| Quote.DelaysBounded | onetoken/quote.py:40-60 | every back-off sleep lasts 2 to 64 seconds, and there is at most one sleep per attempt |
| Quote.CappedStep | onetoken/quote.py:56 | one more failure moves from the j-th to the (j+1)-th capped delay |
| Quote.FailureRun | onetoken/quote.py:40-56 | n failures in a row from a fresh start sleep 2, 4, 8, 16, 32, then 64 each time |
| Quote.SuccessResets | onetoken/quote.py:57-60 | after a success, the sleeps are those of a fresh start whatever came before |
| Quote.ReconnectDelays | onetoken/quote.py:40-60 | the loop over attempt outcomes sleeps exactly `Delays(outcomes, 2)` |
| Quote.ReplayCovers | onetoken/quote.py:70-76 | a subscription frame is replayed if and only if its key has handlers and its write goes through, and there are no more frames than keys |
| Quote.RegistryAdd | onetoken/quote.py:155-164 | registering a key keeps every handler key listed once with a queue and a non-empty handler list |

## Left out

- Threads, `time.sleep`, locks and the `keep_connection`, `run`, `order_dequeued` and `handle_q` threads or coroutines are not modelled. Each thread's work is given as separate steps.
  - `handle_q` is an `async` function that is never awaited, so it never runs.
  - `order_dequeued` is a timed reaper of order queues.
  - `keep_connection` is the account session's connect/ping loop, which is clock and socket plumbing.
- The socket side of `AccountWs.close` and of `ws_connect` (`WebSocketApp`, `run_forever`) is not modelled. Only the state changes of `close` are.
- The websocket and HTTP libraries, `json.loads`/`json.dumps`, `gzip` and HMAC-SHA256 are foreign calls. They appear as arguments or as values the frames and responses carry.
- `get_name_exchange`, `get_trans_host`, `get_ws_host`, `load_ot_from_config_file`, the `Info` model class and `get_margin_acc_info` are not part of this model. Their results are arguments; `Account.GetInfo` returns the info dict and the position symbol.
- `get_requests_sess`, the `Secret` class, the demo driver `demo` and `main` in demo_private.py are not modelled; they are global state and I/O.
- The order in which `InfoCalls` calls the info handlers is not fixed: the table is a map, and the source uses the dict's insertion order.
- Send failures in `AccountWs` are not modelled. `send_json` raising would propagate out of the subscribe methods.
- Keys inside an order or info payload are compared as JSON values. Python's distinction between, for example, `1` and `True` as dict keys is not modelled.
- Numbers are integers; floating point and the float `timestamp()` readings are not modelled. Clock readings are integer arguments.
- Upper- and lower-casing cover ASCII only.
- Objects that repeat a key are outside the domain: `json.loads` never yields one, keeping the last value of a repeated key, while `Lookup` reads the first entry.
- `urlparse` is modelled for its path result only. The stripping of whitespace and control characters that `urlsplit` does first is not modelled.
- Exceptions of `requests` other than `Timeout` and `HTTPError` propagate out of `http_go` and are not modelled.
- Quote.Quote.AwaitAuth: the 0.1-second float steps of the five-second wait are not modelled. The wait is reduced to its outcome: a session still not authorized closes its socket.
- Quote.Quote.SubscribeData: the wait loop while not connected and authorized is given as the `blocked` outcome. Nothing changes in that case; the source would wait until another thread changes the flags.
- Quote.Quote.ReplaySubscriptions: the replay holds the non-reentrant `self.lock` in the source, while `subscribe_data` takes it again. That would deadlock, so locking is not modelled, and each replayed call is modelled as if it took the lock itself.
- Quote.Quote.ReceiveLoop: `on_msg` passes `run()` rather than `run` to `thread.start_new_thread` (onetoken/quote.py:137), so the receive loop runs to completion inside `ensure_connected`. When it returns, `start_new_thread(None, ())` raises `TypeError` inside the `else:` block of onetoken/quote.py:57-62, which has no handler. Lines 63-76 therefore never run in the source and `ensure_connected` ends after its first successful connection. The model gives the receive loop as its own step, and `AwaitAuth`, `ReplaySubscriptions` and the back-off after a success (`ReconnectDelays`, `SuccessResets`) model the code as evidently intended, not as it would behave.
- Quote.SubscriptionKey: `json.dumps(..., sort_keys=True)` also sorts the keys of nested dicts, so in the source two nested-object arguments that differ only in key order give the same key. The model keeps a nested object's fields in order, so such arguments give different keys.
- Quote.SameKeyIff: the "only if" direction holds for the model's keys; for arguments holding nested objects that differ only in key order, the source would share a queue where the model does not.
- Quote.Quote.Close: `close` is an `async def` in the source; the model gives its effect as if it were awaited.
- Account.PlaceOrderData: tag keys and values are strings. The source formats values of any type with `'{}:{}'.format`.
- The text of the subscription messages is not modelled (key order, `sort_keys`, and nested dicts left unsorted). Messages and keys are maps of fields.
- The `ensure_connected` loop itself is not modelled as one method. Its parts are given separately: `ConnectAttempt`, `AwaitAuth`, `ReplaySubscriptions` and the back-off `ReconnectDelays`.
