/** demo_private.py: the request signer and a signed REST call.

    `gen_sign` signs `verb + path + nonce + body` with HMAC-SHA256 (RFC 2104
    over FIPS 180-4), where `path` is the path component that
    `urllib.parse.urlparse` extracts from its URL argument. The HMAC itself is
    the parameter `hmac(secret, message)` (hex digest); `json.dumps` is the
    parameter `dumps`. */
module DemoPrivate {
  import opened Wrappers
  import opened Text
  import opened Json
  import opened Util

  /** The fixed base of every demo call. */
  const BaseUrl: string := "https://1token.trade/api/v1/trade"

  /** Default of `api_call(timeout=15)`. */
  const DefaultTimeout: nat := 15

  // ---------------------------------------------------------------------------
  // urlparse(url).path

  predicate IsSchemeChar(c: char) { IsAsciiLetter(c) || IsDigit(c) || c == '+' || c == '-' || c == '.' }

  /** `urllib.parse.uses_params`: schemes whose last path segment may carry
      `;params`. */
  const UsesParams: set<string> :=
    {"", "ftp", "hdl", "prospero", "http", "imap", "https", "shttp", "rtsp", "rtspu",
     "sip", "sips", "mms", "sftp", "tel"}

  /** urlsplit's scheme step: a run of scheme characters starting with a letter
      and ended by the first ':' is the (lower-cased) scheme. */
  function SplitScheme(url: string): (r: (string, string))
    ensures |r.1| <= |url|
  {
    match IndexOf(url, ':')
    case None => ("", url)
    case Some(i) =>
      if i > 0 && IsAsciiLetter(url[0]) && forall k :: 0 <= k < i ==> IsSchemeChar(url[k])
      then (Lower(url[..i]), url[i + 1..])
      else ("", url)
  }

  /** Position of the first '/', '?' or '#' at or after 2, else the length. */
  function NetlocEnd(url: string, k: nat): (e: nat)
    requires k <= |url|
    ensures k <= e <= |url|
    ensures forall j :: k <= j < e ==> url[j] != '/' && url[j] != '?' && url[j] != '#'
    ensures e < |url| ==> url[e] == '/' || url[e] == '?' || url[e] == '#'
    decreases |url| - k
  {
    if k == |url| || url[k] == '/' || url[k] == '?' || url[k] == '#' then k else NetlocEnd(url, k + 1)
  }

  /** Everything before the first `c` (`s.split(c, 1)[0]`). */
  function Before(s: string, c: char): (r: string)
    ensures c !in r
    ensures c !in s ==> r == s
  {
    if c in s then SplitFirst(s, c).0 else s
  }

  /** Position of the last `c` in `s` (`s.rfind(c)`), for an `s` holding `c`. */
  function LastIndexOf(s: string, c: char): (i: nat)
    requires c in s
    ensures i < |s| && s[i] == c
    ensures forall j :: i < j < |s| ==> s[j] != c
  {
    if s[|s| - 1] == c then |s| - 1
    else
      assert c in s[..|s| - 1] by {
        var j :| 0 <= j < |s| && s[j] == c;
        assert s[..|s| - 1][j] == c;
      }
      LastIndexOf(s[..|s| - 1], c)
  }

  /** `_splitparams`: drops `;params` from the last path segment. */
  function StripParams(path: string): (r: string)
    requires ';' in path
    ensures |r| <= |path| && r == path[..|r|]
  {
    if '/' in path then
      var j := LastIndexOf(path, '/');
      match IndexOf(path[j..], ';')
      case None => path
      case Some(k) => path[..j + k]
    else path[..IndexOf(path, ';').value]
  }

  /** `urlparse(url).path`. */
  function UrlPath(url: string): string {
    var (scheme, rest) := SplitScheme(url);
    var afterNetloc := if |rest| >= 2 && rest[..2] == "//" then rest[NetlocEnd(rest, 2)..] else rest;
    var path := Before(Before(afterNetloc, '#'), '?');
    if scheme in UsesParams && ';' in path then StripParams(path) else path
  }

  /** A path that starts with a single '/' and holds no '?', '#' or ';'. */
  predicate PlainPath(p: string) {
    |p| >= 1 && p[0] == '/' && (|p| >= 2 ==> p[1] != '/') && '?' !in p && '#' !in p && ';' !in p
  }

  /** A plain path parses to itself: there is no scheme (it does not start
      with a letter) and no network location. */
  lemma PlainPathIsItsOwnPath(p: string)
    requires PlainPath(p)
    ensures UrlPath(p) == p
  {
    assert SplitScheme(p) == ("", p);
  }

  /** A well-formed scheme before the first ':' is split off. */
  lemma SchemeSplit(scheme: string, rest: string)
    requires |scheme| >= 1 && IsAsciiLetter(scheme[0]) && forall k :: 0 <= k < |scheme| ==> IsSchemeChar(scheme[k])
    ensures SplitScheme(scheme + [':'] + rest).1 == rest
  {
    var url := scheme + [':'] + rest;
    assert ':' !in scheme by {
      forall k | 0 <= k < |scheme| ensures scheme[k] != ':' { assert IsSchemeChar(scheme[k]); }
    }
    FirstSeparatorAfterPrefix(scheme, ':', rest);
    assert url[..|scheme|] == scheme;
    assert url[|scheme| + 1..] == rest;
  }

  /** The network location `//host` ends where the path begins. */
  lemma NetlocSkip(host: string, p: string)
    requires '/' !in host && '?' !in host && '#' !in host
    requires PlainPath(p)
    ensures var rest := "//" + host + p;
      rest[..2] == "//" && rest[NetlocEnd(rest, 2)..] == p
  {
    var rest := "//" + host + p;
    assert rest[2 + |host|] == '/';
    assert NetlocEnd(rest, 2) == 2 + |host|;
  }

  /** `scheme://host` followed by a plain path parses to that path. */
  lemma AbsoluteUrlPath(scheme: string, host: string, p: string)
    requires |scheme| >= 1 && IsAsciiLetter(scheme[0]) && forall k :: 0 <= k < |scheme| ==> IsSchemeChar(scheme[k])
    requires '/' !in host && '?' !in host && '#' !in host
    requires PlainPath(p)
    ensures UrlPath(scheme + "://" + host + p) == p
  {
    var rest := "//" + host + p;
    assert scheme + "://" + host + p == scheme + [':'] + rest;
    SchemeSplit(scheme, rest);
    NetlocSkip(host, p);
  }

  // ---------------------------------------------------------------------------
  // gen_sign

  /** The text `gen_sign` signs: verb, URL path, nonce, body (None is ''). */
  function SignedMessage(verb: string, url: string, nonce: string, dataStr: Option<string>): string {
    verb + UrlPath(url) + nonce + dataStr.GetOr("")
  }

  /** `gen_sign(secret, verb, url, nonce, data_str)`. */
  function GenSign(hmac: (string, string) -> string, secret: string, verb: string, url: string,
                   nonce: string, dataStr: Option<string>): string
  {
    hmac(secret, SignedMessage(verb, url, nonce, dataStr))
  }

  /** Only the path of the URL is signed: a plain path and any absolute URL
      ending in it give the same signature, and a missing body signs like an
      empty one. */
  lemma SignatureIgnoresUrlBase(hmac: (string, string) -> string, secret: string, verb: string,
                                scheme: string, host: string, p: string, nonce: string)
    requires |scheme| >= 1 && IsAsciiLetter(scheme[0]) && forall k :: 0 <= k < |scheme| ==> IsSchemeChar(scheme[k])
    requires '/' !in host && '?' !in host && '#' !in host
    requires PlainPath(p)
    ensures GenSign(hmac, secret, verb, scheme + "://" + host + p, nonce, None)
         == GenSign(hmac, secret, verb, p, nonce, Some(""))
  {
    AbsoluteUrlPath(scheme, host, p);
    PlainPathIsItsOwnPath(p);
  }

  /** The signed message splits back into its four parts at their lengths. */
  lemma SignedMessageParts(verb: string, p: string, nonce: string, body: string)
    requires PlainPath(p)
    ensures var m := SignedMessage(verb, p, nonce, Some(body));
      var a, b, c := |verb|, |verb| + |p|, |verb| + |p| + |nonce|;
      && |m| == c + |body|
      && m[..a] == verb && m[a..b] == p && m[b..c] == nonce && m[c..] == body
  {
    PlainPathIsItsOwnPath(p);
  }

  // ---------------------------------------------------------------------------
  // api_call

  /** `api_call(method, endpoint, params, data, timeout)`: the request it sends
      for nonce `nonce` (the value of `gen_nonce()`, microseconds). The source
      asserts that `params` and `data` are None or dicts. */
  function ApiCall(apiKey: string, secret: string, hmac: (string, string) -> string,
                   dumps: JsonValue -> string, httpMethod: string, endpoint: string,
                   params: JsonValue, data: JsonValue, nonce: nat, timeout: nat): (r: Request)
    requires params.JNull? || params.JObject?
    requires data.JNull? || data.JObject?
    ensures r.verb == Upper(httpMethod) && r.url == BaseUrl + endpoint
    ensures r.params == params && r.timeout == timeout
    ensures r.body == (if Truthy(data) then dumps(data) else "")
    ensures HeaderValue(r.headers, "Api-Nonce") == Some(Decimal(nonce))
    ensures HeaderValue(r.headers, "Api-Key") == Some(apiKey)
    ensures HeaderValue(r.headers, "Api-Signature")
         == Some(hmac(secret, Upper(httpMethod) + UrlPath(endpoint) + Decimal(nonce) + r.body))
  {
    var verb := Upper(httpMethod);
    var n := Decimal(nonce);
    var jsonStr := if Truthy(data) then dumps(data) else "";
    var sign := GenSign(hmac, secret, verb, endpoint, n, Some(jsonStr));
    Request(verb, BaseUrl + endpoint, jsonStr, params, SignedHeaders(n, apiKey, sign), timeout)
  }

  /** Recomputing `gen_sign` from the request's own verb, nonce header and body,
      with the endpoint as path, reproduces its `Api-Signature` header; for a
      plain endpoint, the path signed is the endpoint, not the URL's path
      (which carries the `/api/v1/trade` prefix of the base). */
  lemma SignatureReproducible(apiKey: string, secret: string, hmac: (string, string) -> string,
                              dumps: JsonValue -> string, httpMethod: string, endpoint: string,
                              params: JsonValue, data: JsonValue, nonce: nat, timeout: nat)
    requires params.JNull? || params.JObject?
    requires data.JNull? || data.JObject?
    requires PlainPath(endpoint)
    ensures var r := ApiCall(apiKey, secret, hmac, dumps, httpMethod, endpoint, params, data, nonce, timeout);
      && HeaderValue(r.headers, "Api-Nonce").Some?
      && HeaderValue(r.headers, "Api-Signature")
         == Some(hmac(secret, SignedMessage(r.verb, endpoint, HeaderValue(r.headers, "Api-Nonce").value, Some(r.body))))
      && SignedMessage(r.verb, endpoint, Decimal(nonce), Some(r.body)) == r.verb + endpoint + Decimal(nonce) + r.body
      && UrlPath(r.url) == "/api/v1/trade" + endpoint
  {
    PlainPathIsItsOwnPath(endpoint);
    BaseUrlPath(endpoint);
  }

  lemma PlainPathConcat(a: string, b: string)
    requires PlainPath(a) && PlainPath(b) && |a| >= 2
    ensures PlainPath(a + b)
  {
    assert (a + b)[1] == a[1];
    forall c | c in a + b ensures c in a || c in b {
      var i :| 0 <= i < |a + b| && (a + b)[i] == c;
      if i < |a| { assert a[i] == c; } else { assert b[i - |a|] == c; }
    }
  }

  lemma BaseUrlParts()
    ensures BaseUrl == "https" + "://" + "1token.trade" + "/api/v1/trade"
  {
  }

  lemma HttpsIsScheme()
    ensures var scheme := "https"; IsAsciiLetter(scheme[0]) && forall k :: 0 <= k < |scheme| ==> IsSchemeChar(scheme[k])
  {
  }

  lemma BaseHostIsPlain()
    ensures var host := "1token.trade"; '/' !in host && '?' !in host && '#' !in host
  {
  }

  lemma BasePathIsPlain()
    ensures PlainPath("/api/v1/trade")
  {
  }

  /** The path of a demo URL is `/api/v1/trade` followed by the endpoint. */
  lemma BaseUrlPath(endpoint: string)
    requires PlainPath(endpoint)
    ensures UrlPath(BaseUrl + endpoint) == "/api/v1/trade" + endpoint
  {
    var prefix := "/api/v1/trade";
    var scheme, host := "https", "1token.trade";
    BaseUrlParts();
    HttpsIsScheme();
    BaseHostIsPlain();
    BasePathIsPlain();
    PlainPathConcat(prefix, endpoint);
    assert BaseUrl + endpoint == scheme + "://" + host + (prefix + endpoint);
    AbsoluteUrlPath(scheme, host, prefix + endpoint);
  }
}
