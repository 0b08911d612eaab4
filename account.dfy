/** onetoken/account.py: the REST side of one trading account.

    An `Account` is a value: `__init__` fills its fields and no later method
    changes them. Every public method of the Python class builds the arguments
    of one `api_call(method, endpoint, params, data, timeout)`; here that
    argument record is a `Call`, and `CallOf` gives it for each `Operation`.
    `ApiCall` turns a call into the signed request and, given what the transport
    did, into the `(value, error)` pair the caller gets back. */
module Account {
  import opened Wrappers
  import opened Text
  import opened Json
  import opened Util

  /** Collaborators account.py calls without their code being modelled:
      `json.dumps`, `util.gen_sign(secret, verb, path, nonce, body)`, the clock
      and the random source used by `rand_client_oid`/`rand_client_wid`. */
  datatype Env = Env(dumps: JsonValue -> string,
                     sign: (string, string, string, nat, string) -> string,
                     now: DateTime,
                     rng: nat -> nat)

  datatype Account = Account(symbol: string, apiKey: string, apiSecret: string,
                             name: string, exchange: string, marginContract: Option<string>,
                             host: string)

  /** `Account.__init__`, given what `get_name_exchange(symbol)` returned
      (`accountName`, `exchange`) and `get_trans_host(exchange)` (`host`). A
      name holding '/' is split at its first '/': the prefix is the name and the
      rest, behind the exchange, the margin contract. */
  function NewAccount(symbol: string, apiKey: string, apiSecret: string,
                      accountName: string, exchange: string, host: string): (a: Account)
    ensures a.symbol == symbol && a.apiKey == apiKey && a.apiSecret == apiSecret
    ensures a.exchange == exchange && a.host == host
    ensures '/' !in a.name
    ensures '/' in accountName ==> |a.name| < |accountName|
    ensures '/' in accountName ==>
      var rest := accountName[|a.name| + 1..];
      accountName == a.name + "/" + rest && a.marginContract == Some(exchange + "/" + rest)
    ensures '/' !in accountName ==> a.name == accountName && a.marginContract == None
  {
    if '/' in accountName then
      var (name, rest) := SplitFirst(accountName, '/');
      assert accountName[|name| + 1..] == rest;
      Account(symbol, apiKey, apiSecret, name, exchange, Some(exchange + "/" + rest), host)
    else
      Account(symbol, apiKey, apiSecret, accountName, exchange, None, host)
  }

  /** `trans_path`. */
  function TransPath(a: Account): string {
    a.host + "/" + a.name
  }

  /** The path `api_call` signs: `/{exchange}/{name}{endpoint}`. */
  function SignedPath(a: Account, endpoint: string): string {
    "/" + a.exchange + "/" + a.name + endpoint
  }

  // ---------------------------------------------------------------------------
  // The calls the account methods make

  /** Arguments of one `api_call`; `params`/`data` are JNull for None. */
  datatype Call = Call(httpMethod: string, endpoint: string, params: JsonValue, data: JsonValue, timeout: nat)

  /** Default of `api_call(timeout=15)` and `get_info(timeout=15)`. */
  const DefaultTimeout: nat := 15

  /** The public methods of `Account` that issue a single call, with their
      arguments; JNull stands for an argument left at None. */
  datatype Operation =
    | GetPendingList(contract: JsonValue)
    | GetOrderList(contract: JsonValue, state: JsonValue, source: JsonValue)
    | GetOrderListFromDb(contract: JsonValue, state: JsonValue)
    | CancelUseClientOid(oid: string, oids: seq<string>)
    | CancelUseExchangeOid(oid: string, oids: seq<string>)
    | CancelAll(contract: JsonValue)
    | GetStatus
    | GetOrderUseClientOid(oid: string, oids: seq<string>)
    | GetOrderUseExchangeOid(oid: string, oids: seq<string>)
    | AmendOrderUseClientOid(clientOid: JsonValue, price: JsonValue, amount: JsonValue)
    | AmendOrderUseExchangeOid(exchangeOid: JsonValue, price: JsonValue, amount: JsonValue)
    | PlaceOrder(con: JsonValue, price: JsonValue, bs: JsonValue, amount: JsonValue,
                 clientOid: JsonValue, tags: seq<(string, string)>, options: JsonValue)
    | GetDealtTrans(con: JsonValue, source: JsonValue)
    | GetDealtTransFromDb(con: JsonValue)
    | PostWithdraw(withdrawCurrency: string, withdrawAmount: JsonValue, address: JsonValue, fee: JsonValue,
                   givenWid: Option<string>, withdrawOptions: JsonValue)
    | CancelWithdrawUseExchangeWid(exchangeWid: JsonValue)
    | CancelWithdrawUseClientWid(clientWid: JsonValue)
    | GetWithdrawUseExchangeWid(exchangeWid: JsonValue)
    | GetWithdrawUseClientWid(clientWid: JsonValue)
    | GetDepositList(currency: JsonValue)
    | GetDepositAddrList(currency: JsonValue)
    | GetLoanRecords(contract: JsonValue)
    | Borrow(currency: JsonValue, amount: JsonValue, contract: JsonValue)
    | Repay(exchangeLoanId: JsonValue, currency: JsonValue, amount: JsonValue)
    | MarginTransferIn(currency: JsonValue, amount: JsonValue, contract: JsonValue)
    | MarginTransferOut(currency: JsonValue, amount: JsonValue, contract: JsonValue)

  /** `oid` alone, or `'{oid},{",".join(oids)}'` when extra oids are given. */
  function JoinOids(oid: string, oids: seq<string>): (r: string)
    ensures oids == [] ==> r == oid
  {
    if oids == [] then oid else oid + "," + Join(oids, ',')
  }

  /** A batch of oids without commas is recovered by splitting at ','. */
  lemma JoinOidsSplits(oid: string, oids: seq<string>)
    requires ',' !in oid && forall k :: 0 <= k < |oids| ==> ',' !in oids[k]
    ensures Split(JoinOids(oid, oids), ',') == [oid] + oids
  {
    var xs := [oid] + oids;
    forall k | 0 <= k < |xs| ensures ',' !in xs[k] {
      if k > 0 { assert xs[k] == oids[k - 1]; }
    }
    if oids != [] {
      assert xs[1..] == oids;
      assert Join(xs, ',') == oid + [','] + Join(oids, ',');
    }
    SplitJoin(xs, ',');
  }

  /** `if keep: d[key] = value` for a key `d` does not hold yet. */
  function AddIf(d: Dict, keep: bool, key: string, value: JsonValue): (r: Dict)
    requires key !in KeysOf(d)
    ensures KeysOf(r) == KeysOf(d) + (if keep then [key] else [])
    ensures keep ==> Lookup(r, key) == Some(value)
  {
    var e := if keep then [(key, value)] else [];
    KeysOfConcat(d, e);
    LookupConcat(d, e, key);
    d + e
  }

  /** Adding an entry keeps the entries the dict already held, in order. */
  lemma AddIfKeeps(d: Dict, keep: bool, key: string, value: JsonValue, k: string)
    requires key !in KeysOf(d)
    ensures AddIf(d, keep, key, value)[..|d|] == d
    ensures k in KeysOf(d) ==> Lookup(AddIf(d, keep, key, value), k) == Lookup(d, k)
  {
    var e := if keep then [(key, value)] else [];
    LookupConcat(d, e, k);
    assert (d + e)[..|d|] == d;
  }

  /** The `tags` field: `','.join('{k}:{v}' for k, v in tags.items())`. */
  function TagsField(tags: seq<(string, string)>): string {
    Join(seq(|tags|, i requires 0 <= i < |tags| => tags[i].0 + ":" + tags[i].1), ',')
  }

  /** The query of `get_order_list`: `contract` and `state` only when truthy,
      `helper` only when `source` is not None. */
  function OrderListParams(contract: JsonValue, state: JsonValue, source: JsonValue): (d: Dict)
    ensures KeysOf(d) == (if Truthy(contract) then ["contract"] else [])
      + (if Truthy(state) then ["state"] else []) + (if source != JNull then ["helper"] else [])
    ensures Truthy(contract) ==> Lookup(d, "contract") == Some(contract)
    ensures Truthy(state) ==> Lookup(d, "state") == Some(state)
    ensures source != JNull ==> Lookup(d, "helper") == Some(source)
  {
    Optional3("contract", Truthy(contract), contract, "state", Truthy(state), state, "helper", source != JNull, source)
  }



  /** Three optional entries `k1`, `k2`, `k3`, each inserted when its flag holds. */
  function Optional3(k1: string, keep1: bool, v1: JsonValue, k2: string, keep2: bool, v2: JsonValue,
                     k3: string, keep3: bool, v3: JsonValue): (d: Dict)
    requires k1 != k2 && k1 != k3 && k2 != k3
    ensures KeysOf(d) == (if keep1 then [k1] else []) + (if keep2 then [k2] else []) + (if keep3 then [k3] else [])
    ensures keep1 ==> Lookup(d, k1) == Some(v1)
    ensures keep2 ==> Lookup(d, k2) == Some(v2)
    ensures keep3 ==> Lookup(d, k3) == Some(v3)
  {
    var d1 := AddIf([], keep1, k1, v1);
    assert KeysOf(d1) == if keep1 then [k1] else [];
    var d2 := AddIf(d1, keep2, k2, v2);
    var d := AddIf(d2, keep3, k3, v3);
    AddIfKeeps(d1, keep2, k2, v2, k1);
    AddIfKeeps(d2, keep3, k3, v3, k1);
    AddIfKeeps(d2, keep3, k3, v3, k2);
    d
  }

  /** A dict of fixed entries followed by optional ones whose keys differ
      from the fixed ones: lookups of the optional keys reach the optional part. */
  lemma FixedThenOptional(base: Dict, opt: Dict, k: string)
    requires k !in KeysOf(base)
    ensures KeysOf(base + opt) == KeysOf(base) + KeysOf(opt)
    ensures Lookup(base + opt, k) == Lookup(opt, k)
  {
    KeysOfConcat(base, opt);
    LookupConcat(base, opt, k);
  }

  /** The body of `place_order`: contract, price, bs and amount always, then
      `client_oid`, `tags` and `options` each only when truthy. */
  function PlaceOrderData(con: JsonValue, price: JsonValue, bs: JsonValue, amount: JsonValue,
                          clientOid: JsonValue, tags: seq<(string, string)>, options: JsonValue): (d: Dict)
    ensures KeysOf(d) == ["contract", "price", "bs", "amount"]
      + ((if Truthy(clientOid) then ["client_oid"] else [])
         + (if tags != [] then ["tags"] else [])
         + (if Truthy(options) then ["options"] else []))
    ensures Truthy(clientOid) ==> Lookup(d, "client_oid") == Some(clientOid)
    ensures tags != [] ==> Lookup(d, "tags") == Some(JStr(TagsField(tags)))
    ensures Truthy(options) ==> Lookup(d, "options") == Some(options)
  {
    var base := [("contract", con), ("price", price), ("bs", bs), ("amount", amount)];
    assert KeysOf(base) == ["contract", "price", "bs", "amount"];
    var opt := Optional3("client_oid", Truthy(clientOid), clientOid,
                         "tags", tags != [], JStr(TagsField(tags)),
                         "options", Truthy(options), options);
    FixedThenOptional(base, opt, "client_oid");
    FixedThenOptional(base, opt, "tags");
    FixedThenOptional(base, opt, "options");
    base + opt
  }

  /** The four fixed entries of `place_order` come first, with the caller's values. */
  lemma PlaceOrderDataStartsFixed(con: JsonValue, price: JsonValue, bs: JsonValue, amount: JsonValue,
                                  clientOid: JsonValue, tags: seq<(string, string)>, options: JsonValue)
    ensures var d := PlaceOrderData(con, price, bs, amount, clientOid, tags, options);
      |d| >= 4 && d[..4] == [("contract", con), ("price", price), ("bs", bs), ("amount", amount)]
  {
  }

  /** The body of `post_withdraw`. A missing client wid is generated with
      `rand_client_wid(exchange, currency)`; `fee` is sent when not None,
      `client_wid` when truthy, `options` (JSON-encoded) when truthy. */
  function PostWithdrawData(a: Account, env: Env, currency: string, amount: JsonValue, address: JsonValue,
                            fee: JsonValue, clientWid: Option<string>, options: JsonValue): (d: Dict)
    requires env.now.Valid()
    ensures KeysOf(d) == ["currency", "amount", "address"]
      + ((if fee != JNull then ["fee"] else [])
         + (if clientWid != Some("") then ["client_wid"] else [])
         + (if Truthy(options) then ["options"] else []))
    ensures fee != JNull ==> Lookup(d, "fee") == Some(fee)
    ensures clientWid.None? ==>
      Lookup(d, "client_wid") == Some(JStr(RandClientWid(a.exchange, currency, env.now, env.rng)))
    ensures clientWid.Some? && clientWid.value != "" ==> Lookup(d, "client_wid") == Some(JStr(clientWid.value))
    ensures Truthy(options) ==> Lookup(d, "options") == Some(JStr(env.dumps(options)))
  {
    var wid := if clientWid.None? then RandClientWid(a.exchange, currency, env.now, env.rng) else clientWid.value;
    var base := [("currency", JStr(currency)), ("amount", amount), ("address", address)];
    assert KeysOf(base) == ["currency", "amount", "address"];
    var opt := Optional3("fee", fee != JNull, fee,
                         "client_wid", wid != "", JStr(wid),
                         "options", Truthy(options), JStr(env.dumps(options)));
    FixedThenOptional(base, opt, "fee");
    FixedThenOptional(base, opt, "client_wid");
    FixedThenOptional(base, opt, "options");
    base + opt
  }

  /** The three fixed entries of `post_withdraw` come first, with the caller's values. */
  lemma PostWithdrawDataStartsFixed(a: Account, env: Env, currency: string, amount: JsonValue, address: JsonValue,
                                    fee: JsonValue, clientWid: Option<string>, options: JsonValue)
    requires env.now.Valid()
    ensures var d := PostWithdrawData(a, env, currency, amount, address, fee, clientWid, options);
      |d| >= 3 && d[..3] == [("currency", JStr(currency)), ("amount", amount), ("address", address)]
  {
  }

  /** `place_order`: a POST of `PlaceOrderData` to `/orders`. */
  function PlaceOrderCall(con: JsonValue, price: JsonValue, bs: JsonValue, amount: JsonValue,
                          clientOid: JsonValue, tags: seq<(string, string)>, options: JsonValue): Call
  {
    Call("post", "/orders", JNull, JObject(PlaceOrderData(con, price, bs, amount, clientOid, tags, options)), DefaultTimeout)
  }

  /** `cancel_use_client_oid`: a DELETE of `/orders` naming the client oids. */
  function CancelUseClientOidCall(oid: string, oids: seq<string>): Call {
    Call("delete", "/orders", JObject([("client_oid", JStr(JoinOids(oid, oids)))]), JNull, DefaultTimeout)
  }

  /** `contract`, or the account's margin contract when it is None. */
  function ContractOrMargin(a: Account, contract: JsonValue): (c: JsonValue)
    ensures contract != JNull ==> c == contract
    ensures contract == JNull ==> c == (match a.marginContract case Some(m) => JStr(m) case None => JNull)
  {
    if contract != JNull then contract
    else match a.marginContract
      case Some(m) => JStr(m)
      case None => JNull
  }

  /** The verbs `api_call` accepts after upper-casing. */
  predicate AcceptedVerb(verb: string) {
    verb == "GET" || verb == "POST" || verb == "PATCH" || verb == "DELETE"
  }

  /** The `api_call` each operation makes. */
  function CallOf(a: Account, env: Env, op: Operation): (c: Call)
    requires env.now.Valid()
    ensures AcceptedVerb(Upper(c.httpMethod))
    ensures c.params.JNull? || c.params.JObject?
    ensures c.data.JNull? || c.data.JObject?
    ensures c.timeout == DefaultTimeout
  {
    VerbsAccepted();
    match op
    case GetPendingList(contract) => Call("get", "/orders", JObject(OrderListParams(contract, JNull, JNull)), JNull, DefaultTimeout)
    case GetOrderList(contract, state, source) =>
      Call("get", "/orders", JObject(OrderListParams(contract, state, source)), JNull, DefaultTimeout)
    case GetOrderListFromDb(contract, state) =>
      Call("get", "/orders", JObject(OrderListParams(contract, state, JStr("db"))), JNull, DefaultTimeout)
    case CancelUseClientOid(oid, oids) => CancelUseClientOidCall(oid, oids)
    case CancelUseExchangeOid(oid, oids) =>
      Call("delete", "/orders", JObject([("exchange_oid", JStr(JoinOids(oid, oids)))]), JNull, DefaultTimeout)
    case CancelAll(contract) =>
      Call("delete", "/orders/all", JObject(AddIf([], Truthy(contract), "contract", contract)), JNull, DefaultTimeout)
    case GetStatus => Call("get", "/status", JNull, JNull, DefaultTimeout)
    case GetOrderUseClientOid(oid, oids) =>
      Call("get", "/orders", JObject([("client_oid", JStr(JoinOids(oid, oids)))]), JNull, DefaultTimeout)
    case GetOrderUseExchangeOid(oid, oids) =>
      Call("get", "/orders", JObject([("exchange_oid", JStr(JoinOids(oid, oids)))]), JNull, DefaultTimeout)
    case AmendOrderUseClientOid(clientOid, price, amount) =>
      Call("patch", "/orders", JObject([("client_oid", clientOid)]),
           JObject([("price", price), ("amount", amount)]), DefaultTimeout)
    case AmendOrderUseExchangeOid(exchangeOid, price, amount) =>
      Call("patch", "/orders", JObject([("exchange_oid", exchangeOid)]),
           JObject([("price", price), ("amount", amount)]), DefaultTimeout)
    case PlaceOrder(con, price, bs, amount, clientOid, tags, options) =>
      PlaceOrderCall(con, price, bs, amount, clientOid, tags, options)
    case GetDealtTrans(con, source) =>
      Call("get", "/trans", JObject(AddIf(AddIf([], con != JNull, "contract", con), source != JNull, "helper", source)),
           JNull, DefaultTimeout)
    case GetDealtTransFromDb(con) =>
      Call("get", "/trans", JObject(AddIf(AddIf([], con != JNull, "contract", con), true, "helper", JStr("db"))), JNull, DefaultTimeout)
    case PostWithdraw(currency, amount, address, fee, clientWid, options) =>
      Call("post", "/withdraws", JNull,
           JObject(PostWithdrawData(a, env, currency, amount, address, fee, clientWid, options)), DefaultTimeout)
    case CancelWithdrawUseExchangeWid(w) => Call("delete", "/withdraws", JObject([("exchange_wid", w)]), JNull, DefaultTimeout)
    case CancelWithdrawUseClientWid(w) => Call("delete", "/withdraws", JObject([("client_wid", w)]), JNull, DefaultTimeout)
    case GetWithdrawUseExchangeWid(w) => Call("get", "/withdraws", JObject([("exchange_wid", w)]), JNull, DefaultTimeout)
    case GetWithdrawUseClientWid(w) => Call("get", "/withdraws", JObject([("client_wid", w)]), JNull, DefaultTimeout)
    case GetDepositList(currency) => Call("get", "/deposits", JObject([("currency", currency)]), JNull, DefaultTimeout)
    case GetDepositAddrList(currency) =>
      Call("get", "/deposits/addresses", JObject([("currency", currency)]), JNull, DefaultTimeout)
    case GetLoanRecords(contract) =>
      Call("get", "/loan-records", JObject([("contract", ContractOrMargin(a, contract))]), JNull, DefaultTimeout)
    case Borrow(currency, amount, contract) =>
      Call("post", "/borrow", JNull,
           JObject([("contract", ContractOrMargin(a, contract)), ("currency", currency), ("amount", amount)]), DefaultTimeout)
    case Repay(loanId, currency, amount) =>
      Call("post", "/return", JNull,
           JObject([("exchange_loan_id", loanId), ("currency", currency), ("amount", amount)]), DefaultTimeout)
    case MarginTransferIn(currency, amount, contract) =>
      Call("post", "/assets-internal", JNull,
           JObject([("contract", ContractOrMargin(a, contract)), ("currency", currency), ("amount", amount),
                    ("target", JStr("margin"))]), DefaultTimeout)
    case MarginTransferOut(currency, amount, contract) =>
      Call("post", "/assets-internal", JNull,
           JObject([("contract", ContractOrMargin(a, contract)), ("currency", currency), ("amount", amount),
                    ("target", JStr("spot"))]), DefaultTimeout)
  }

  lemma VerbsAccepted()
    ensures Upper("get") == "GET" && Upper("post") == "POST"
    ensures Upper("patch") == "PATCH" && Upper("delete") == "DELETE"
  {
  }

  // ---------------------------------------------------------------------------
  // api_call

  /** What `api_call` did: raised (invalid method) or returned a pair. */
  datatype ApiOutcome = Raised(message: string) | Returned(reply: Reply)

  /** The request `api_call` sends for `c` with nonce `nonce` (the value of
      `util.gen_nonce()`), or the message of the exception it raises for a
      method other than GET, POST, PATCH or DELETE (in any case). */
  function PrepareRequest(a: Account, env: Env, c: Call, nonce: nat): (r: Result<Request, string>)
    ensures r.Failure? <==> !AcceptedVerb(Upper(c.httpMethod))
    ensures r.Failure? ==> r.error == "Invalid http method:" + Upper(c.httpMethod)
    ensures r.Success? ==>
      && r.value.verb == Upper(c.httpMethod)
      && r.value.url == TransPath(a) + c.endpoint
      && r.value.body == (if Truthy(c.data) then env.dumps(c.data) else "")
      && r.value.params == c.params && r.value.timeout == c.timeout
      && HeaderValue(r.value.headers, "Api-Nonce") == Some(Decimal(nonce))
      && HeaderValue(r.value.headers, "Api-Key") == Some(a.apiKey)
      && HeaderValue(r.value.headers, "Api-Signature")
         == Some(env.sign(a.apiSecret, r.value.verb, SignedPath(a, c.endpoint), nonce, r.value.body))
      && HeaderValue(r.value.headers, "Content-Type") == Some("application/json")
  {
    var verb := Upper(c.httpMethod);
    if !AcceptedVerb(verb) then Failure("Invalid http method:" + verb)
    else
      var jsonStr := if Truthy(c.data) then env.dumps(c.data) else "";
      var sign := env.sign(a.apiSecret, verb, SignedPath(a, c.endpoint), nonce, jsonStr);
      Success(Request(verb, TransPath(a) + c.endpoint, jsonStr, c.params,
                      SignedHeaders(Decimal(nonce), a.apiKey, sign), c.timeout))
  }

  /** `api_call`: the request is sent and `http_go`'s pair handed back
      unchanged (`(None, err)` on error, `(res, None)` otherwise). */
  function ApiCall(a: Account, env: Env, c: Call, nonce: nat, outcome: Transport): (r: ApiOutcome)
    ensures r.Raised? <==> !AcceptedVerb(Upper(c.httpMethod))
    ensures r.Returned? ==> !(r.reply.value.Some? && r.reply.error.Some?)
    ensures r.Returned? ==>
      (r.reply.error.None? <==> outcome.Answered? && outcome.response.status < 400 && outcome.response.json.Some?)
    ensures r.Returned? && r.reply.error.None? ==> r.reply.value == Loaded(outcome.response.json.value)
    ensures r.Returned? ==> r.reply.error == HttpGo(outcome, "json", false).error
  {
    match PrepareRequest(a, env, c, nonce)
    case Failure(m) => Raised(m)
    case Success(_) =>
      var reply := HttpGo(outcome, "json", false);
      if reply.error.Some? then Returned(Reply(None, reply.error)) else Returned(Reply(reply.value, None))
  }

  /** The URL and the signed path agree on everything after the account name's
      prefix: the URL puts the trade host where the signed path puts
      `/{exchange}`. */
  lemma UrlAndSignedPathShareTail(a: Account, endpoint: string)
    ensures var tail := "/" + a.name + endpoint;
      TransPath(a) + endpoint == a.host + tail && SignedPath(a, endpoint) == "/" + a.exchange + tail
  {
  }

  // ---------------------------------------------------------------------------
  // get_info and place_and_cancel

  /** What `get_info` hands back on success: the account info, or, for a
      margin account, the part `Info.get_margin_acc_info(pos_symbol)` selects. */
  datatype InfoView = WholeAccount(info: JsonValue) | MarginAccount(info: JsonValue, posSymbol: string)

  datatype InfoError = CallFailed(error: HttpError) | NotDict(value: Option<Body>)

  /** `margin_contract.split('/', 1)[-1]`. */
  function PosSymbol(marginContract: string): string {
    if '/' in marginContract then SplitFirst(marginContract, '/').1 else marginContract
  }

  /** `get_info(timeout)`: the call's error is passed on; a value that is not
      a JSON object is a ValueError; otherwise the info, narrowed to the
      position symbol when the account has a margin contract. */
  function GetInfo(a: Account, env: Env, nonce: nat, outcome: Transport, timeout: nat): (r: Result<InfoView, InfoError>)
    ensures var reply := HttpGo(outcome, "json", false);
      && (reply.error.Some? ==> r == Failure(CallFailed(reply.error.value)))
      && ((reply.error.None? && !(reply.value.Some? && reply.value.value.JsonBody? && reply.value.value.value.JObject?))
          ==> r == Failure(NotDict(reply.value)))
      && (r.Success? ==> reply.value.Some? && reply.value.value == JsonBody(r.value.info) && r.value.info.JObject?)
      && (r.Success? ==> (r.value.MarginAccount? <==> a.marginContract.Some?))
      && (reply.error.None? && reply.value.Some? && reply.value.value.JsonBody? && reply.value.value.value.JObject?
          ==> r.Success? && r.value.info == reply.value.value.value)
      && (r.Success? && r.value.MarginAccount? ==> r.value.posSymbol == PosSymbol(a.marginContract.value))
  {
    VerbsAccepted();
    match ApiCall(a, env, Call("get", "/info", JNull, JNull, timeout), nonce, outcome)
    case Raised(_) => assert false; Failure(NotDict(None))
    case Returned(Reply(y, err)) =>
      if err.Some? then Failure(CallFailed(err.value))
      else if !(y.Some? && y.value.JsonBody? && y.value.value.JObject?) then Failure(NotDict(y))
      else match a.marginContract
        case Some(m) => Success(MarginAccount(y.value.value, PosSymbol(m)))
        case None => Success(WholeAccount(y.value.value))
  }

  /** The position symbol `get_info` uses is the part of the account name
      behind its first '/', as `__init__` split it off. */
  lemma MarginPosSymbolIsNameSuffix(symbol: string, apiKey: string, apiSecret: string,
                                    accountName: string, exchange: string, host: string)
    requires '/' in accountName && '/' !in exchange
    ensures var a := NewAccount(symbol, apiKey, apiSecret, accountName, exchange, host);
      a.marginContract.Some? && accountName == a.name + "/" + PosSymbol(a.marginContract.value)
  {
    var a := NewAccount(symbol, apiKey, apiSecret, accountName, exchange, host);
    var rest := accountName[|a.name| + 1..];
    var m := exchange + "/" + rest;
    assert m == exchange + ['/'] + rest;
    FirstSeparatorAfterPrefix(exchange, '/', rest);
    assert m[..|exchange|] == exchange;
    assert m[|exchange| + 1..] == rest;
  }

  /** How `place_and_cancel` ends: the order failed (no cancel is sent), the
      cancel failed, or both succeeded. */
  datatype PlaceAndCancelResult =
    | PlaceFailed(placed: Option<Body>, placeError: HttpError)
    | CancelFailed(placed: Option<Body>, cancelled: Option<Body>, cancelError: HttpError)
    | BothDone(placed: Option<Body>, cancelled: Option<Body>)

  /** `place_and_cancel(con, price, bs, amount, sleep, options)`: the calls it
      makes and how it ends. The client oid is `rand_client_oid(con)`; the
      sleep between the two calls is not modelled. */
  function PlaceAndCancel(a: Account, env: Env, con: string, price: JsonValue, bs: JsonValue, amount: JsonValue,
                          options: JsonValue, placeNonce: nat, placeOutcome: Transport,
                          cancelNonce: nat, cancelOutcome: Transport): (r: (PlaceAndCancelResult, seq<Call>))
    requires env.now.Valid()
    ensures var k := RandClientOid(con, env.now, env.rng);
      && 1 <= |r.1| <= 2
      && r.1[0] == PlaceOrderCall(JStr(con), price, bs, amount, JStr(k), [], options)
      && (r.0.PlaceFailed? <==> |r.1| == 1)
      && (r.0.PlaceFailed? <==> HttpGo(placeOutcome, "json", false).error.Some?)
      && (|r.1| == 2 ==> r.1[1] == CancelUseClientOidCall(k, []))
    ensures var place := HttpGo(placeOutcome, "json", false);
      && (r.0.PlaceFailed? ==> r.0.placed.None? && Some(r.0.placeError) == place.error)
      && (!r.0.PlaceFailed? ==> r.0.placed == place.value)
    ensures var cancel := HttpGo(cancelOutcome, "json", false);
      && (|r.1| == 2 ==> (r.0.CancelFailed? <==> cancel.error.Some?))
      && (r.0.CancelFailed? ==> r.0.cancelled.None? && Some(r.0.cancelError) == cancel.error)
      && (r.0.BothDone? ==> r.0.cancelled == cancel.value)
  {
    VerbsAccepted();
    var k := RandClientOid(con, env.now, env.rng);
    var place := PlaceOrderCall(JStr(con), price, bs, amount, JStr(k), [], options);
    match ApiCall(a, env, place, placeNonce, placeOutcome)
    case Raised(_) => assert false; (PlaceFailed(None, HttpError(Timeout, "")), [place])
    case Returned(Reply(res1, err1)) =>
      if err1.Some? then (PlaceFailed(res1, err1.value), [place])
      else
        var cancel := CancelUseClientOidCall(k, []);
        match ApiCall(a, env, cancel, cancelNonce, cancelOutcome)
        case Raised(_) => assert false; (PlaceFailed(None, HttpError(Timeout, "")), [place])
        case Returned(Reply(res2, err2)) =>
          if err2.Some? then (CancelFailed(res1, res2, err2.value), [place, cancel])
          else (BothDone(res1, res2), [place, cancel])
  }

  /** The cancel of `place_and_cancel` targets exactly the client oid under
      which the order was placed. */
  lemma PlaceAndCancelTargetsPlacedOid(a: Account, env: Env, con: string, price: JsonValue, bs: JsonValue,
                                       amount: JsonValue, options: JsonValue, n1: nat, o1: Transport, n2: nat, o2: Transport)
    requires env.now.Valid()
    ensures var r := PlaceAndCancel(a, env, con, price, bs, amount, options, n1, o1, n2, o2);
      |r.1| == 2 ==>
        && r.1[0].data.JObject? && r.1[1].params.JObject?
        && Lookup(r.1[0].data.fields, "client_oid").Some?
        && Lookup(r.1[0].data.fields, "client_oid") == Lookup(r.1[1].params.fields, "client_oid")
  {
    var k := RandClientOid(con, env.now, env.rng);
    var placed := PlaceOrderData(JStr(con), price, bs, amount, JStr(k), [], options);
    var place := PlaceOrderCall(JStr(con), price, bs, amount, JStr(k), [], options);
    assert place.data == JObject(placed);
    assert Truthy(JStr(k));
    assert Lookup(placed, "client_oid") == Some(JStr(k));
    var cancel := CancelUseClientOidCall(k, []);
    assert cancel.params == JObject([("client_oid", JStr(k))]);
    assert Lookup(cancel.params.fields, "client_oid") == Some(JStr(k));
  }
}
