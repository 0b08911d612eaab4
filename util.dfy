/** onetoken/util.py: random identifiers and the classification of an HTTP
    exchange into a `(value, error)` pair.

    Randomness is an oracle `rng: nat -> nat`: the i-th call of
    `random.choice(pool)` picks `pool[rng(i) % |pool|]`. The clock is a
    `DateTime` argument. The HTTP call itself (`func(url, **kwargs)`) is
    represented by its outcome, a `Transport`. */
module Util {
  import opened Wrappers
  import opened Text
  import opened Json

  // ---------------------------------------------------------------------------
  // rand_id, rand_client_oid, rand_client_wid

  /** `string.ascii_lowercase + string.ascii_uppercase`. */
  function Letters(): (s: string)
    ensures |s| == 52 && forall i :: 0 <= i < |s| ==> IsAsciiLetter(s[i])
  {
    seq(52, i requires 0 <= i < 52 => if i < 26 then ('a' as int + i) as char else ('A' as int + i - 26) as char)
  }

  /** `string.ascii_lowercase + string.ascii_uppercase + string.digits`. */
  function Alphanumerics(): (s: string)
    ensures |s| == 62 && s[..52] == Letters()
    ensures forall i :: 0 <= i < |s| ==> IsAlnum(s[i])
  {
    Letters() + seq(10, i requires 0 <= i < 10 => ('0' as int + i) as char)
  }

  /** `random.choice(pool)`, the draw supplied by the oracle. */
  function Choice(pool: string, draw: nat): char
    requires |pool| > 0
  {
    pool[draw % |pool|]
  }

  /** `rand_id(length)`: one random letter followed by `length - 1` random
      letters or digits. The source asserts `length >= 1`. */
  function RandId(length: nat, rng: nat -> nat): (r: string)
    requires length >= 1
    ensures |r| == length
    ensures IsAsciiLetter(r[0])
    ensures forall i :: 0 <= i < |r| ==> IsAlnum(r[i])
  {
    var pool := Alphanumerics();
    var after := seq(length - 1, i requires 0 <= i < length - 1 => Choice(pool, rng(i + 1)));
    assert forall i :: 0 <= i < |after| ==> IsAlnum(after[i]) by {
      forall i | 0 <= i < |after| ensures IsAlnum(after[i]) {
        assert after[i] == pool[rng(i + 1) % 62];
      }
    }
    [Choice(Letters(), rng(0))] + after
  }

  function LetterIndex(c: char): (k: nat)
    requires IsAsciiLetter(c)
    ensures k < 52 && Letters()[k] == c
  {
    if 'a' <= c <= 'z' then c as int - 'a' as int else c as int - 'A' as int + 26
  }

  function AlnumIndex(c: char): (k: nat)
    requires IsAlnum(c)
    ensures k < 62 && Alphanumerics()[k] == c
  {
    if IsDigit(c) then 52 + (c as int - '0' as int) else LetterIndex(c)
  }

  /** Every string of the promised shape is a possible result of `rand_id`:
      the contract of RandId is exact, not merely an over-approximation. */
  lemma RandIdCoversShape(s: string)
    requires |s| >= 1 && IsAsciiLetter(s[0])
    requires forall i :: 0 <= i < |s| ==> IsAlnum(s[i])
    ensures exists rng: nat -> nat :: RandId(|s|, rng) == s
  {
    var rng := (i: nat) => if i == 0 then LetterIndex(s[0]) else if i < |s| then AlnumIndex(s[i]) else 0;
    var r := RandId(|s|, rng);
    forall i | 0 <= i < |s| ensures r[i] == s[i] {
      if i > 0 {
        assert r[i] == Choice(Alphanumerics(), rng(i));
      }
    }
    assert r == s;
  }

  /** A wall-clock reading, as `arrow.now()` supplies it. */
  datatype DateTime = DateTime(year: nat, month: nat, day: nat, hour: nat, minute: nat, second: nat) {
    predicate Valid() {
      1 <= year <= 9999 && 1 <= month <= 12 && 1 <= day <= 31 && hour < 24 && minute < 60 && second < 60
    }
  }

  /** Format token `YYYYMMDD`. */
  function DatePart(t: DateTime): (r: string)
    requires t.Valid()
    ensures |r| == 8 && AllDigits(r)
  {
    ZeroPad(t.year, 4) + ZeroPad(t.month, 2) + ZeroPad(t.day, 2)
  }

  /** Format token `HHmmss`. */
  function TimePart(t: DateTime): (r: string)
    requires t.Valid()
    ensures |r| == 6 && AllDigits(r)
  {
    ZeroPad(t.hour, 2) + ZeroPad(t.minute, 2) + ZeroPad(t.second, 2)
  }

  /** Reads back a `YYYYMMDD` and a `HHmmss` field. */
  function ParseStamp(date: string, time: string): DateTime
    requires |date| == 8 && AllDigits(date) && |time| == 6 && AllDigits(time)
  {
    DateTime(DigitsValue(date[..4]), DigitsValue(date[4..6]), DigitsValue(date[6..]),
             DigitsValue(time[..2]), DigitsValue(time[2..4]), DigitsValue(time[4..]))
  }

  lemma {:induction false} StampRoundTrip(t: DateTime)
    requires t.Valid()
    ensures ParseStamp(DatePart(t), TimePart(t)) == t
  {
    var d, h := DatePart(t), TimePart(t);
    assert d[..4] == ZeroPad(t.year, 4);
    assert d[4..6] == ZeroPad(t.month, 2);
    assert d[6..] == ZeroPad(t.day, 2);
    assert h[..2] == ZeroPad(t.hour, 2);
    assert h[2..4] == ZeroPad(t.minute, 2);
    assert h[4..] == ZeroPad(t.second, 2);
  }

  /** `rand_client_oid(contract)`: the contract, a dash, the 14-digit time
      stamp `YYYYMMDDHHmmss` and 14 random characters. */
  function RandClientOid(contract: string, now: DateTime, rng: nat -> nat): (oid: string)
    requires now.Valid()
    ensures |oid| == |contract| + 29
    ensures oid[..|contract|] == contract && oid[|contract|] == '-'
    ensures AllDigits(oid[|contract| + 1..|contract| + 15])
    ensures IsAsciiLetter(oid[|contract| + 15])
    ensures forall i :: |contract| + 15 <= i < |oid| ==> IsAlnum(oid[i])
  {
    contract + "-" + (DatePart(now) + TimePart(now)) + RandId(14, rng)
  }

  /** The contract and the time stamp can be read back from a client oid. */
  lemma ClientOidRoundTrip(contract: string, now: DateTime, rng: nat -> nat)
    requires now.Valid()
    ensures var oid := RandClientOid(contract, now, rng);
      var c := |contract|;
      && oid[..|oid| - 29] == contract
      && ParseStamp(oid[c + 1..c + 9], oid[c + 9..c + 15]) == now
  {
    var oid := RandClientOid(contract, now, rng);
    var c := |contract|;
    assert oid[c + 1..c + 9] == DatePart(now);
    assert oid[c + 9..c + 15] == TimePart(now);
    StampRoundTrip(now);
  }

  /** `rand_client_wid(exchange, currency)`:
      `exchange/currency-YYYYMMDD-HHmmss-` followed by 5 random characters. */
  function RandClientWid(exchange: string, currency: string, now: DateTime, rng: nat -> nat): (wid: string)
    requires now.Valid()
    ensures var p := |exchange| + 1 + |currency|;
      && |wid| == p + 22
      && wid[..p] == exchange + "/" + currency
      && wid[p] == '-' && wid[p + 9] == '-' && wid[p + 16] == '-'
      && AllDigits(wid[p + 1..p + 9]) && AllDigits(wid[p + 10..p + 16])
      && IsAsciiLetter(wid[p + 17])
      && forall i :: p + 17 <= i < |wid| ==> IsAlnum(wid[i])
  {
    exchange + "/" + currency + "-" + DatePart(now) + "-" + TimePart(now) + "-" + RandId(5, rng)
  }

  lemma ClientWidRoundTrip(exchange: string, currency: string, now: DateTime, rng: nat -> nat)
    requires now.Valid()
    ensures var wid := RandClientWid(exchange, currency, now, rng);
      var p := |exchange| + 1 + |currency|;
      ParseStamp(wid[p + 1..p + 9], wid[p + 10..p + 16]) == now
  {
    var wid := RandClientWid(exchange, currency, now, rng);
    var p := |exchange| + 1 + |currency|;
    assert wid[p + 1..p + 9] == DatePart(now);
    assert wid[p + 10..p + 16] == TimePart(now);
    StampRoundTrip(now);
  }

  // ---------------------------------------------------------------------------
  // http_go

  /** The codes of `HTTPError` that `http_go` produces. */
  datatype ErrorCode = Timeout | HttpErrorCode | Response5xx | Response4xx | NotJson

  datatype HttpError = HttpError(code: ErrorCode, message: string)

  /** A response: status code, raw text, and what `json.loads(text)` gives
      (None when the text is not JSON). */
  datatype Response = Response(status: int, text: string, json: Option<JsonValue>)

  /** What calling the session function did: raised `requests.Timeout`, raised
      `requests.HTTPError` (with its text), or answered. */
  datatype Transport = TimedOut | HttpException(description: string) | Answered(response: Response)

  /** The value part of a successful call, by `method` (json, text or raw). */
  datatype Body = JsonBody(value: JsonValue) | TextBody(text: string) | RawBody(response: Response)

  /** The `(value, error)` pair; `None` stands for Python's None. */
  datatype Reply = Reply(value: Option<Body>, error: Option<HttpError>)

  /** A JSON document as the Python value it loads to: `null` is None. */
  function Loaded(v: JsonValue): (r: Option<Body>)
    ensures r.None? <==> v == JNull
  {
    if v == JNull then None else Some(JsonBody(v))
  }

  /** `http_go(func, url, method, accept_4xx)`. The source asserts that
      `accept_4xx` is false and that `method` is json, text or raw. */
  function HttpGo(outcome: Transport, mode: string, accept4xx: bool): (r: Reply)
    requires !accept4xx && mode in {"json", "text", "raw"}
    ensures r.error.Some? ==> r.value.None?
    ensures outcome.TimedOut? ==> r.error == Some(HttpError(Timeout, ""))
    ensures outcome.HttpException? ==> r.error == Some(HttpError(HttpErrorCode, outcome.description))
    ensures outcome.Answered? && outcome.response.status >= 500 ==>
      r.error == Some(HttpError(Response5xx, outcome.response.text))
    ensures outcome.Answered? && 400 <= outcome.response.status < 500 ==>
      r.error == Some(HttpError(Response4xx, outcome.response.text))
    ensures r.error.None? <==>
      outcome.Answered? && outcome.response.status < 400 && (mode == "json" ==> outcome.response.json.Some?)
    ensures outcome.Answered? && outcome.response.status < 400 && mode == "json" ==>
      match outcome.response.json
      case None => r.error == Some(HttpError(NotJson, outcome.response.text))
      case Some(v) => r.value == Loaded(v)
    ensures r.error.None? && mode == "text" ==> r.value == Some(TextBody(outcome.response.text))
    ensures r.error.None? && mode == "raw" ==> r.value == Some(RawBody(outcome.response))
  {
    match outcome
    case TimedOut => Reply(None, Some(HttpError(Timeout, "")))
    case HttpException(e) => Reply(None, Some(HttpError(HttpErrorCode, e)))
    case Answered(resp) =>
      if resp.status >= 500 then Reply(None, Some(HttpError(Response5xx, resp.text)))
      else if 400 <= resp.status < 500 then Reply(None, Some(HttpError(Response4xx, resp.text)))
      else if mode == "raw" then Reply(Some(RawBody(resp)), None)
      else if mode == "text" then Reply(Some(TextBody(resp.text)), None)
      else match resp.json
        case None => Reply(None, Some(HttpError(NotJson, resp.text)))
        case Some(v) => Reply(Loaded(v), None)
  }

  /** A 4xx or 5xx answer is classified on its status alone: whatever the body
      would decode to, the reply is the same (no JSON decoding takes place). */
  lemma ErrorStatusIgnoresBody(status: int, text: string, j1: Option<JsonValue>, j2: Option<JsonValue>, mode: string)
    requires status >= 400 && mode in {"json", "text", "raw"}
    ensures HttpGo(Answered(Response(status, text, j1)), mode, false)
         == HttpGo(Answered(Response(status, text, j2)), mode, false)
         == Reply(None, Some(HttpError(if status >= 500 then Response5xx else Response4xx, text)))
  {
  }

  /** In json mode the pair has at most one component that is not None, and
      both are None exactly when the body is the JSON document `null`. */
  lemma JsonReplyComponents(outcome: Transport)
    ensures var r := HttpGo(outcome, "json", false);
      && !(r.value.Some? && r.error.Some?)
      && (r.value.None? && r.error.None? <==>
            outcome.Answered? && outcome.response.status < 400 && outcome.response.json == Some(JNull))
  {
  }

  // ---------------------------------------------------------------------------
  // The request a call sends

  /** What `func(url, data=..., params=..., headers=..., timeout=...)` is
      asked to send. `params` is JNull for None. */
  datatype Request = Request(verb: string, url: string, body: string, params: JsonValue,
                             headers: seq<(string, string)>, timeout: nat)

  /** The value of header `name`. */
  function HeaderValue(headers: seq<(string, string)>, name: string): (r: Option<string>)
    ensures r.Some? ==> (name, r.value) in headers
    ensures r.None? ==> forall i :: 0 <= i < |headers| ==> headers[i].0 != name
  {
    if |headers| == 0 then None
    else if headers[0].0 == name then Some(headers[0].1)
    else HeaderValue(headers[1..], name)
  }

  /** The four headers every signed call carries, in the source's order. */
  function SignedHeaders(nonce: string, apiKey: string, signature: string): (h: seq<(string, string)>)
    ensures HeaderValue(h, "Api-Nonce") == Some(nonce)
    ensures HeaderValue(h, "Api-Key") == Some(apiKey)
    ensures HeaderValue(h, "Api-Signature") == Some(signature)
    ensures HeaderValue(h, "Content-Type") == Some("application/json")
  {
    var h := [("Api-Nonce", nonce), ("Api-Key", apiKey), ("Api-Signature", signature),
              ("Content-Type", "application/json")];
    assert HeaderValue(h[2..], "Api-Signature") == Some(signature);
    assert HeaderValue(h[3..], "Content-Type") == Some("application/json");
    h
  }
}
