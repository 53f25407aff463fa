/** The request engine that every wrapper is built on (src/Requestable.js):
    the authorization header chosen once at construction, URL resolution with the
    cache-buster rewrite, request headers, the routing of a payload into query
    parameters or a body, the option defaults, and the way one request's outcome
    reaches the callback and the returned promise. The transport is an input. */
module Requestable {
  import opened JsValues

  const DefaultApiBase := "https://api.github.com"
  const JsonAccept := "application/vnd.github.v3+json"
  const RawAccept := "application/vnd.github.v3.raw+json"
  const JsonContentType := "application/json;charset=UTF-8"
  const TimestampKey := "timestamp="

  /** The credentials object handed to the constructor. */
  datatype Auth = Auth(token: JsValue, username: JsValue, password: JsValue)

  /** The configuration handed to the transport for one request. */
  datatype Config = Config(
    url: string,
    verb: string,
    headers: map<string, string>,
    params: JsValue,
    data: JsValue,
    responseType: string)

  /** A transport response: the status, the response headers (lower-case names),
      the decoded body, and the configuration the request was made with. */
  datatype Response = Response(status: int, headers: map<string, string>, data: JsValue, config: Config)

  /** What the transport does with one request: it fulfils with a response, or it
      rejects with one (a non-2xx status or a transport failure). */
  datatype Outcome = Delivered(response: Response) | Failed(response: Response)

  /** How a call of `_request` ends before the transport's answer matters: the
      request was sent (with everything `RequestTrace` records), or the method
      threw first, or it called a member whose behaviour is not modelled. */
  datatype Invocation = Sent(trace: RequestTrace) | ThrewBeforeSending(reason: Thrown) | CalledOther

  /** The record built by `buildError`. */
  datatype RequestError = RequestError(path: string, request: Config, response: Response, status: int)

  /** The arguments of one invocation of a caller's callback: `(null, result[, response])`
      or `(error)`. */
  datatype CallbackCall =
    | SuccessArgs(result: JsValue, response: Option<Response>)
    | ErrorArgs(error: RequestError)

  /** What a rejected promise carries. A `ThrownTypeError` is a `TypeError` raised by
      the client's own code. */
  datatype Thrown = ThrownResponse(response: Response) | ThrownTypeError

  /** The final state of a promise. */
  datatype Settled<T> = Fulfilled(value: T) | Rejected(reason: Thrown) | Pending

  /** Everything observable about one `_request`: what was sent, what the callback
      received (if one was given), and how the returned promise settled. */
  datatype RequestTrace = RequestTrace(config: Config, callback: Option<CallbackCall>, promise: Settled<Response>)

  /** The constructor's `auth` argument: a credentials object, or omitted. */
  datatype AuthArgument = GivenAuth(auth: Auth) | OmittedAuth

  /** The credentials the documentation promises for an omitted argument: none,
      so that requests are made unauthenticated. */
  function AuthOf(arg: AuthArgument): (a: Auth)
    ensures arg.GivenAuth? ==> a == arg.auth
    ensures arg.OmittedAuth? ==> !Truthy(a.token) && !Truthy(a.username) && !Truthy(a.password)
  {
    match arg
    case GivenAuth(a) => a
    case OmittedAuth => Auth(Undefined, Undefined, Undefined)
  }

  /** What the constructor's reading of `auth` comes to: a header choice, or the
      `TypeError` of reading a property of `undefined`. */
  datatype HeaderChoice = Chose(header: Option<string>) | ThrewOnRead(reason: Thrown)

  /** The constructor as written reads `auth.token` before anything else, so an
      omitted argument throws instead of leaving the engine unauthenticated. */
  function HeaderChoiceAsWritten(arg: AuthArgument, enc: Encoders): HeaderChoice {
    match arg
    case OmittedAuth => ThrewOnRead(ThrownTypeError)
    case GivenAuth(a) => Chose(AuthorizationFor(a, enc))
  }

  /** The header value chosen once in the constructor: a token wins over a
      username and password; with neither there is no header. */
  function AuthorizationFor(auth: Auth, enc: Encoders): Option<string> {
    if Truthy(auth.token) then
      Some("token " + ToStr(auth.token, enc))
    else if Truthy(auth.username) && Truthy(auth.password) then
      Some("Basic " + enc.base64(ToStr(auth.username, enc) + ":" + ToStr(auth.password, enc)))
    else
      None
  }

  /** A token decides the header alone; username and password are then irrelevant. */
  lemma TokenWins(token: JsValue, u1: JsValue, p1: JsValue, u2: JsValue, p2: JsValue, enc: Encoders)
    requires Truthy(token)
    ensures AuthorizationFor(Auth(token, u1, p1), enc) == AuthorizationFor(Auth(token, u2, p2), enc)
    ensures AuthorizationFor(Auth(token, u1, p1), enc).Some?
  {
  }

  /** There is a header exactly when the token is truthy or both username and
      password are; Basic credentials are used only when there is no token. */
  lemma AuthorizationCases(auth: Auth, enc: Encoders)
    ensures AuthorizationFor(auth, enc).Some? <==>
            Truthy(auth.token) || (Truthy(auth.username) && Truthy(auth.password))
    ensures AuthorizationFor(auth, enc).Some? && !Truthy(auth.token) ==>
            AuthorizationFor(auth, enc).value ==
            "Basic " + enc.base64(ToStr(auth.username, enc) + ":" + ToStr(auth.password, enc))
  {
  }

  /** `methodHasNoBody`: the verbs whose payload travels as query parameters. */
  predicate MethodHasNoBody(verb: string) {
    verb in ["GET", "HEAD", "DELETE"]
  }

  /** The test of `_request` that moves the payload into the query parameters. */
  predicate UsesDataAsParams(verb: string, data: JsValue) {
    Truthy(data) && IsObjectTyped(data) && MethodHasNoBody(verb)
  }

  // ---------------------------------------------------------------------------
  // The cache-buster: the first match of /(timestamp=\d+)/ is rewritten.
  // ---------------------------------------------------------------------------

  /** The regular expression `timestamp=\d+` matches at index `i` of `s`. */
  predicate TimestampAt(s: string, i: int) {
    OccursAt(s, TimestampKey, i) && i + 10 < |s| && IsDigit(s[i + 10])
  }

  /** The index of the leftmost match at or after `from`. */
  function FirstTimestampFrom(s: string, from: nat): (r: Option<nat>)
    requires from <= |s|
    ensures r.Some? ==> from <= r.value < |s| && TimestampAt(s, r.value)
    ensures r.Some? ==> forall j :: from <= j < r.value ==> !TimestampAt(s, j)
    ensures r.None? ==> forall j :: from <= j < |s| ==> !TimestampAt(s, j)
    decreases |s| - from
  {
    if from == |s| then None
    else if TimestampAt(s, from) then Some(from)
    else FirstTimestampFrom(s, from + 1)
  }

  function FirstTimestamp(s: string): Option<nat> {
    FirstTimestampFrom(s, 0)
  }

  /** The end of the run of decimal digits that starts at `j` (what `\d+` consumes). */
  function DigitRunEnd(s: string, j: nat): (e: nat)
    requires j <= |s|
    ensures j <= e <= |s|
    ensures forall k :: j <= k < e ==> IsDigit(s[k])
    ensures e == |s| || !IsDigit(s[e])
    decreases |s| - j
  {
    if j < |s| && IsDigit(s[j]) then DigitRunEnd(s, j + 1) else j
  }

  /** `url.replace(/(timestamp=\d+)/, 'timestamp=' + now)` */
  function CacheBust(url: string, now: nat): string {
    match FirstTimestamp(url)
    case None => url
    case Some(i) => url[..i] + TimestampKey + NatToString(now) + url[DigitRunEnd(url, i + 10)..]
  }

  /** The number of places where `timestamp=\d+` matches. */
  function TimestampCount(s: string): nat
    decreases |s|
  {
    if s == [] then 0 else (if TimestampAt(s, 0) then 1 else 0) + TimestampCount(s[1..])
  }

  // ---------------------------------------------------------------------------
  // The engine object.
  // ---------------------------------------------------------------------------

  /** A `Requestable`: its three fields are set once, by the constructor, and only
      read afterwards. */
  class Engine {
    const apiBase: string
    const auth: Auth
    const authorizationHeader: Option<string>

    /** `apiBase` is the empty string when the caller gave none (or a falsy one).
        An omitted `auth` gives an unauthenticated engine, as documented; the code
        as written throws there instead (`HeaderChoiceAsWritten`). */
    constructor(auth: AuthArgument, apiBase: string, enc: Encoders)
      ensures this.apiBase == (if apiBase == "" then DefaultApiBase else apiBase)
      ensures this.auth == AuthOf(auth)
      ensures authorizationHeader == AuthorizationFor(AuthOf(auth), enc)
      ensures auth.OmittedAuth? ==> authorizationHeader == None
    {
      var a := AuthOf(auth);
      this.apiBase := if apiBase == "" then DefaultApiBase else apiBase;
      this.auth := Auth(a.token, a.username, a.password);
      this.authorizationHeader := AuthorizationFor(a, enc);
    }

    /** The property names this instance has: the fields the constructor set (it
        assigns `__authorizationHeader` only when it chose a header), the methods
        of `Requestable`, and what every object inherits from `Object.prototype`. */
    function Members(): (names: set<string>)
      ensures "__getURL" in names && "__getRequestHeaders" in names
      ensures "__authorizationHeader" in names <==> authorizationHeader.Some?
    {
      {"__apiBase", "__auth"}
      + (if authorizationHeader.Some? then {"__authorizationHeader"} else {})
      + {"constructor", "__getURL", "__getRequestHeaders", "_getOptionsWithDefaults",
         "_request", "_requestAllPages"}
      + {"toString", "toLocaleString", "valueOf", "hasOwnProperty", "isPrototypeOf",
         "propertyIsEnumerable", "__defineGetter__", "__defineSetter__",
         "__lookupGetter__", "__lookupSetter__", "__proto__"}
    }

    /** `__getURL` as its documentation describes it: a path holding `//` is an
        absolute URL and is used as it is; any other path is resolved against the
        API base. Then the cache-buster is rewritten with the time `now`. */
    function GetURL(path: string, now: nat): string {
      CacheBust(if Contains(path, "//") then path else apiBase + path, now)
    }

    /** `__getURL` as it is written: the prefix is added only when the path DOES
        contain `//`, and it is `this.__baseUrl`, a field nothing assigns, which
        string concatenation renders as "undefined". */
    function GetURLAsWritten(path: string, now: nat): string {
      CacheBust(if Contains(path, "//") then "undefined" + path else path, now)
    }

    /** `_request` with the names its first two statements call, `this.<urlName>(path)`
        and `this.<headersName>(raw)`, on an instance that has the names `own`
        besides `Members()` (a wrapper's fields and methods). A name the instance
        lacks reads as `undefined`, and calling it throws a `TypeError` before
        anything is sent; the engine's two methods build the request `Request`
        describes. A call that reaches some other member is not modelled. */
    function RequestCalling(own: set<string>, urlName: string, headersName: string,
                            verb: string, path: string, data: JsValue, hasCb: bool, raw: JsValue,
                            now: nat, transport: Config -> Outcome): (r: Invocation)
      ensures r.ThrewBeforeSending? <==> urlName !in Members() + own || headersName !in Members() + own
      ensures r.ThrewBeforeSending? ==> r.reason == ThrownTypeError
      ensures r.Sent? <==> !r.ThrewBeforeSending? && urlName == "__getURL" && headersName == "__getRequestHeaders"
    {
      var names := Members() + own;
      if urlName !in names || headersName !in names then ThrewBeforeSending(ThrownTypeError)
      else if urlName == "__getURL" && headersName == "__getRequestHeaders" then
        Sent(Request(verb, path, data, hasCb, raw, now, transport))
      else CalledOther
    }

    /** `_request` as it is written: it calls `this._getURL` and `this._getRequestHeaders`. */
    function RequestAsWritten(own: set<string>, verb: string, path: string, data: JsValue, hasCb: bool,
                              raw: JsValue, now: nat, transport: Config -> Outcome): Invocation
    {
      RequestCalling(own, "_getURL", "_getRequestHeaders", verb, path, data, hasCb, raw, now, transport)
    }

    /** `__getRequestHeaders` */
    function RequestHeaders(raw: JsValue): (h: map<string, string>)
      ensures "Content-Type" in h && h["Content-Type"] == JsonContentType
      ensures "Accept" in h && h["Accept"] == (if Truthy(raw) then RawAccept else JsonAccept)
      ensures "Authorization" in h <==> authorizationHeader.Some?
      ensures authorizationHeader.Some? ==> h["Authorization"] == authorizationHeader.value
      ensures h.Keys <= {"Accept", "Content-Type", "Authorization"}
    {
      var headers := map["Accept" := if Truthy(raw) then RawAccept else JsonAccept,
                         "Content-Type" := JsonContentType];
      if authorizationHeader.Some? then headers["Authorization" := authorizationHeader.value]
      else headers
    }

    /** The configuration `_request` hands to the transport. */
    function BuildConfig(verb: string, path: string, data: JsValue, raw: JsValue, now: nat): Config {
      var moved := UsesDataAsParams(verb, data);
      Config(
        url := GetURL(path, now),
        verb := verb,
        headers := RequestHeaders(raw),
        params := if moved then data else Obj(map[]),
        data := if moved then Undefined else data,
        responseType := if Truthy(raw) then "text" else "json")
    }

    /** `_request(method, path, data, cb, raw)` with the transport's answer as input:
        the callback, when given, receives `(null, data || true, response)` on
        success and the `buildError` record on failure; the returned promise is the
        transport's own, so it settles with the raw response either way. */
    function Request(verb: string, path: string, data: JsValue, hasCb: bool, raw: JsValue,
                     now: nat, transport: Config -> Outcome): RequestTrace
    {
      var config := BuildConfig(verb, path, data, raw, now);
      var outcome := transport(config);
      var callback := if !hasCb then None
                      else match outcome
                        case Delivered(r) => Some(SuccessArgs(Or(r.data, Bool(true)), Some(r)))
                        case Failed(r) => Some(ErrorHandler(true, path, r).call);
      var promise := match outcome
                     case Delivered(r) => Fulfilled(r)
                     case Failed(r) => Rejected(ThrownResponse(r));
      RequestTrace(config, callback, promise)
    }
  }

  /** `buildError(path, response)` */
  function BuildError(path: string, response: Response): RequestError {
    RequestError(path, response.config, response, response.status)
  }

  /** What the handler returned by `callbackErrorOrThrow(cb, path)` does with a
      rejected response: with a callback it calls it with the error record, without
      one it throws the response on. */
  datatype HandlerResult = CalledBack(call: CallbackCall) | Rethrown(reason: Thrown)

  function ErrorHandler(hasCb: bool, path: string, response: Response): (r: HandlerResult)
    ensures hasCb ==> r.CalledBack? && r.call == ErrorArgs(BuildError(path, response))
    ensures !hasCb ==> r == Rethrown(ThrownResponse(response))
  {
    if hasCb then CalledBack(ErrorArgs(BuildError(path, response)))
    else Rethrown(ThrownResponse(response))
  }

  /** The keys `_getOptionsWithDefaults` fills in, with their defaults. */
  function WithDefaults(m: map<string, JsValue>): map<string, JsValue> {
    m["type" := Or(Get(m, "type"), Str("all"))]
     ["sort" := Or(Get(m, "sort"), Str("updated"))]
     ["per_page" := Or(Get(m, "per_page"), Str("100"))]
  }

  /** `_getOptionsWithDefaults(requestOptions = {})`: the argument object itself is
      changed and returned; `null` for `o` stands for an omitted argument, for which a
      fresh empty object is used. */
  method GetOptionsWithDefaults(o: JsObject?) returns (r: JsObject)
    modifies o
    ensures o != null ==> r == o
    ensures o == null ==> fresh(r)
    ensures r.props == WithDefaults(if o == null then map[] else old(o.props))
  {
    if o == null {
      r := new JsObject(map[]);
    } else {
      r := o;
    }
    r.props := r.props["type" := Or(Get(r.props, "type"), Str("all"))];
    r.props := r.props["sort" := Or(Get(r.props, "sort"), Str("updated"))];
    r.props := r.props["per_page" := Or(Get(r.props, "per_page"), Str("100"))];
  }

  // ---------------------------------------------------------------------------
  // Properties of the cache-buster rewrite.
  // ---------------------------------------------------------------------------

  /** A complete match of `timestamp=\d+`: the key followed by one or more digits. */
  predicate IsTimestampToken(m: string) {
    |m| >= 11 && m[..10] == TimestampKey && forall j :: 10 <= j < |m| ==> IsDigit(m[j])
  }

  /** The letters of the key: only its sixth one repeats the leading `t`. */
  lemma KeyLetters()
    ensures TimestampKey[0] == 't' && TimestampKey[1] == 'i' && TimestampKey[6] == 'a'
    ensures forall k :: 1 <= k < 10 && k != 5 ==> TimestampKey[k] != 't'
  {
  }

  /** A text that does not start with `ti` has no match at its start. */
  lemma NoMatchAtStart(s: string)
    requires s != [] && (s[0] != 't' || (|s| >= 2 && s[1] != 'i'))
    ensures !TimestampAt(s, 0)
  {
    if |s| >= 10 {
      assert s[..10][0] == s[0] && s[..10][1] == s[1];
    }
    KeyLetters();
  }

  /** No match of `timestamp=\d+` starts inside a token after its first character. */
  lemma {:induction false} TokenTailCount(m: string, k: nat, b: string)
    requires IsTimestampToken(m) && 1 <= k <= |m|
    ensures TimestampCount(m[k..] + b) == TimestampCount(b)
    decreases |m| - k
  {
    if k < |m| {
      var s := m[k..] + b;
      assert s[0] == m[k];
      KeyLetters();
      if k < 10 {
        assert m[k] == m[..10][k] == TimestampKey[k];
      }
      if k == 5 {
        assert s[1] == m[6] == m[..10][6];
      }
      NoMatchAtStart(s);
      assert s[1..] == m[k + 1..] + b;
      TokenTailCount(m, k + 1, b);
    } else {
      assert m[k..] + b == b;
    }
  }

  /** Replacing one whole match by another, where no digit follows, neither creates
      nor destroys a match anywhere. */
  lemma {:induction false} ReplaceTokenCount(p: string, m: string, n: string, b: string)
    requires IsTimestampToken(m) && IsTimestampToken(n)
    requires b == [] || !IsDigit(b[0])
    ensures TimestampCount(p + m + b) == TimestampCount(p + n + b)
    decreases |p|
  {
    var s1, s2 := p + m + b, p + n + b;
    if p == [] {
      assert s1 == m + b && s2 == n + b;
      assert s1[..10] == m[..10] && s2[..10] == n[..10];
      assert TimestampAt(s1, 0) && TimestampAt(s2, 0);
      assert s1[1..] == m[1..] + b && s2[1..] == n[1..] + b;
      TokenTailCount(m, 1, b);
      TokenTailCount(n, 1, b);
    } else {
      forall j | 0 <= j <= 10 ensures s1[j] == s2[j] {
        if j >= |p| {
          assert s1[j] == m[j - |p|] == TimestampKey[j - |p|] == n[j - |p|] == s2[j];
        }
      }
      assert s1[..10] == s2[..10];
      assert TimestampAt(s1, 0) == TimestampAt(s2, 0);
      assert s1[1..] == p[1..] + m + b && s2[1..] == p[1..] + n + b;
      ReplaceTokenCount(p[1..], m, n, b);
    }
  }

  /** `DigitRunEnd` stops exactly at the first non-digit. */
  lemma {:induction false} DigitRunEndAt(s: string, j: nat, e: nat)
    requires j <= e <= |s|
    requires forall k :: j <= k < e ==> IsDigit(s[k])
    requires e == |s| || !IsDigit(s[e])
    ensures DigitRunEnd(s, j) == e
    decreases e - j
  {
    if j < e {
      DigitRunEndAt(s, j + 1, e);
    }
  }

  /** The new text `timestamp=<now>` is itself a cache-buster. */
  lemma NewTokenShape(now: nat)
    ensures IsTimestampToken(TimestampKey + NatToString(now))
  {
    var n := TimestampKey + NatToString(now);
    assert n[..10] == TimestampKey;
    assert forall j :: 10 <= j < |n| ==> n[j] == NatToString(now)[j - 10];
  }

  /** The first match runs from `i` to the end of its digits. */
  lemma MatchShape(url: string, i: nat)
    requires FirstTimestamp(url) == Some(i)
    ensures var e := DigitRunEnd(url, i + 10);
            i + 11 <= e && IsTimestampToken(url[i..e])
  {
    var e := DigitRunEnd(url, i + 10);
    assert TimestampAt(url, i);
    assert url[i..e][..10] == url[i..i + 10];
  }

  /** The pieces of a rewrite: the text before the first match, the match, and the rest. */
  lemma CacheBustShape(url: string, now: nat, i: nat)
    requires FirstTimestamp(url) == Some(i)
    ensures var e := DigitRunEnd(url, i + 10);
            && i + 11 <= e
            && IsTimestampToken(url[i..e])
            && IsTimestampToken(TimestampKey + NatToString(now))
            && url == url[..i] + url[i..e] + url[e..]
            && CacheBust(url, now) == url[..i] + (TimestampKey + NatToString(now)) + url[e..]
            && (url[e..] == [] || !IsDigit(url[e..][0]))
  {
    var e := DigitRunEnd(url, i + 10);
    MatchShape(url, i);
    NewTokenShape(now);
    assert url == url[..i] + url[i..e] + url[e..];
  }

  /** The rewrite never adds or removes a cache-buster, so a URL without one keeps
      none and a URL with one keeps exactly as many as it had. */
  lemma CacheBustKeepsCount(url: string, now: nat)
    ensures TimestampCount(CacheBust(url, now)) == TimestampCount(url)
  {
    match FirstTimestamp(url)
    case None =>
    case Some(i) =>
      CacheBustShape(url, now, i);
      var e := DigitRunEnd(url, i + 10);
      ReplaceTokenCount(url[..i], url[i..e], TimestampKey + NatToString(now), url[e..]);
  }

  /** Two strings that agree up to a digit at `i + 10` have the same matches before `i`. */
  lemma SameMatchesBefore(r: string, url: string, i: nat, j: nat)
    requires i + 10 < |r| && i + 10 < |url| && r[..i + 10] == url[..i + 10]
    requires IsDigit(r[i + 10]) && IsDigit(url[i + 10])
    requires j < i
    ensures TimestampAt(r, j) == TimestampAt(url, j)
  {
    assert r[j..j + 10] == r[..i + 10][j..j + 10];
    assert url[j..j + 10] == url[..i + 10][j..j + 10];
    assert r[j + 10] == r[..i + 10][j + 10];
    assert url[j + 10] == url[..i + 10][j + 10];
  }

  /** A match with none before it is the first one. */
  lemma FirstTimestampIs(s: string, i: nat)
    requires i < |s| && TimestampAt(s, i)
    requires forall j :: 0 <= j < i ==> !TimestampAt(s, j)
    ensures FirstTimestamp(s) == Some(i)
  {
  }

  /** The three parts of a concatenation, read back by position. */
  lemma ConcatParts(p: string, n: string, q: string)
    ensures var r := p + n + q;
            && r[..|p|] == p && r[|p|..|p| + |n|] == n && r[|p| + |n|..] == q
  {
    var r := p + n + q;
    assert r[..|p|] == p;
    assert r[|p|..|p| + |n|] == n;
    assert r[|p| + |n|..] == q;
  }

  /** The rewritten URL agrees with the original up to the end of the key, and the
      first match stays at the same index. */
  lemma CacheBustKeepsStart(url: string, now: nat, i: nat)
    requires FirstTimestamp(url) == Some(i)
    ensures var r := CacheBust(url, now);
            && i + 10 < |r| && r[..i + 10] == url[..i + 10]
            && FirstTimestamp(r) == Some(i)
  {
    CacheBustShape(url, now, i);
    var r := CacheBust(url, now);
    var e := DigitRunEnd(url, i + 10);
    var d := NatToString(now);
    var n := TimestampKey + d;
    assert r == url[..i] + n + url[e..];
    ConcatParts(url[..i], n, url[e..]);
    assert r[..i + 10] == url[..i + 10] by {
      assert r[i..i + 10] == n[..10] == TimestampKey;
      assert r[..i + 10] == r[..i] + r[i..i + 10];
      assert url[..i + 10] == url[..i] + url[i..i + 10];
    }
    assert r[i + 10] == n[10] == d[0];
    assert TimestampAt(r, i);
    forall j | 0 <= j < i ensures !TimestampAt(r, j) {
      SameMatchesBefore(r, url, i, j);
    }
    FirstTimestampIs(r, i);
  }

  /** After the rewrite the first cache-buster stands where it stood before and
      carries exactly the new time. */
  lemma CacheBustSetsFirst(url: string, now: nat, i: nat)
    requires FirstTimestamp(url) == Some(i)
    ensures var r := CacheBust(url, now);
            && FirstTimestamp(r) == Some(i)
            && DigitRunEnd(r, i + 10) == i + 10 + |NatToString(now)|
            && r[i + 10..i + 10 + |NatToString(now)|] == NatToString(now)
            && r[..i] == url[..i]
            && r[i + 10 + |NatToString(now)|..] == url[DigitRunEnd(url, i + 10)..]
  {
    CacheBustShape(url, now, i);
    CacheBustKeepsStart(url, now, i);
    var r := CacheBust(url, now);
    var e := DigitRunEnd(url, i + 10);
    var d := NatToString(now);
    var p := url[..i] + TimestampKey;
    assert r == p + d + url[e..];
    ConcatParts(p, d, url[e..]);
    assert r[..i] == url[..i] by {
      assert r[..i] == r[..i + 10][..i];
    }
    forall k | i + 10 <= k < i + 10 + |d| ensures IsDigit(r[k]) {
      assert r[k] == r[i + 10..i + 10 + |d|][k - i - 10];
    }
    DigitRunEndAt(r, i + 10, i + 10 + |d|);
  }

  /** Rewriting an already rewritten URL is the same as rewriting the original once
      with the later time: only the value of the first cache-buster ever changes. */
  lemma CacheBustTwice(url: string, t1: nat, t2: nat)
    ensures CacheBust(CacheBust(url, t1), t2) == CacheBust(url, t2)
  {
    match FirstTimestamp(url)
    case None =>
    case Some(i) =>
      CacheBustSetsFirst(url, t1, i);
  }

  /** A URL whose text has no cache-buster is sent exactly as resolved. */
  lemma CacheBustWithoutTimestamp(url: string, now: nat)
    requires forall j :: 0 <= j < |url| ==> !TimestampAt(url, j)
    ensures CacheBust(url, now) == url
  {
  }

  // ---------------------------------------------------------------------------
  // Properties of the engine's request building and settlement.
  // ---------------------------------------------------------------------------

  /** The URL of a request has as many cache-busters as the path resolved against
      the base had: the engine never appends one. */
  lemma GetURLNeverAddsTimestamp(e: Engine, path: string, now: nat)
    ensures TimestampCount(e.GetURL(path, now)) ==
            TimestampCount(if Contains(path, "//") then path else e.apiBase + path)
    ensures var resolved := if Contains(path, "//") then path else e.apiBase + path;
            (forall j :: 0 <= j < |resolved| ==> !TimestampAt(resolved, j)) ==> e.GetURL(path, now) == resolved
  {
    CacheBustKeepsCount(if Contains(path, "//") then path else e.apiBase + path, now);
  }

  /** For GET, HEAD and DELETE an object payload travels as the query parameters and
      no body is sent; in every other case the payload is the body, unchanged, and
      the query parameters are empty. */
  lemma PayloadRouting(e: Engine, verb: string, path: string, data: JsValue, raw: JsValue, now: nat)
    ensures var c := e.BuildConfig(verb, path, data, raw, now);
            && (UsesDataAsParams(verb, data) ==> c.params == data && c.data == Undefined)
            && (!UsesDataAsParams(verb, data) ==> c.params == Obj(map[]) && c.data == data)
            && (UsesDataAsParams(verb, data) <==>
                (verb == "GET" || verb == "HEAD" || verb == "DELETE") && (data.Obj? || data.Arr? || data.Date?))
            && c.verb == verb
  {
  }

  /** The raw flag switches the Accept header and the response type together, and
      the content type and cached authorization are always sent. */
  lemma ConfigHeaders(e: Engine, verb: string, path: string, data: JsValue, raw: JsValue, now: nat)
    ensures var c := e.BuildConfig(verb, path, data, raw, now);
            && "Accept" in c.headers
            && (c.responseType == "text" <==> c.headers["Accept"] == RawAccept)
            && (c.responseType == "text" <==> Truthy(raw))
            && "Content-Type" in c.headers && c.headers["Content-Type"] == JsonContentType
            && (e.authorizationHeader.Some? <==> "Authorization" in c.headers)
  {
  }

  /** With a callback, exactly one callback call is recorded and it is the
      success form exactly when the transport fulfilled; the success result is never
      falsy (an empty body becomes `true`) and an error record reports the failed
      path, the response's configuration and its status. The promise always settles
      with the raw response. */
  lemma RequestSettlement(e: Engine, verb: string, path: string, data: JsValue, hasCb: bool,
                          raw: JsValue, now: nat, transport: Config -> Outcome)
    ensures var t := e.Request(verb, path, data, hasCb, raw, now, transport);
            var outcome := transport(t.config);
            && t.config == e.BuildConfig(verb, path, data, raw, now)
            && (t.callback.Some? <==> hasCb)
            && (hasCb ==> (t.callback.value.SuccessArgs? <==> outcome.Delivered?))
            && (hasCb && outcome.Delivered? ==>
                  && Truthy(t.callback.value.result)
                  && t.callback.value.response == Some(outcome.response)
                  && (Truthy(outcome.response.data) ==> t.callback.value.result == outcome.response.data)
                  && (!Truthy(outcome.response.data) ==> t.callback.value.result == Bool(true)))
            && (hasCb && outcome.Failed? ==>
                  && t.callback.value.error.path == path
                  && t.callback.value.error.status == outcome.response.status
                  && t.callback.value.error.request == outcome.response.config
                  && t.callback.value.error.response == outcome.response)
            && (outcome.Delivered? ==> t.promise == Fulfilled(outcome.response))
            && (outcome.Failed? ==> t.promise == Rejected(ThrownResponse(outcome.response)))
  {
  }

  /** `_getOptionsWithDefaults` keeps truthy `type`, `sort` and `per_page`, fills the
      falsy or missing ones, adds no other key and leaves the rest untouched. */
  lemma WithDefaultsFills(m: map<string, JsValue>)
    ensures var r := WithDefaults(m);
            && r.Keys == m.Keys + {"type", "sort", "per_page"}
            && (forall k :: k in m && k != "type" && k != "sort" && k != "per_page" ==> r[k] == m[k])
            && r["type"] == (if Truthy(Get(m, "type")) then m["type"] else Str("all"))
            && r["sort"] == (if Truthy(Get(m, "sort")) then m["sort"] else Str("updated"))
            && r["per_page"] == (if Truthy(Get(m, "per_page")) then m["per_page"] else Str("100"))
            && Truthy(r["type"]) && Truthy(r["sort"]) && Truthy(r["per_page"])
  {
  }

  /** Applying the defaults twice is the same as applying them once. */
  lemma WithDefaultsIdempotent(m: map<string, JsValue>)
    ensures WithDefaults(WithDefaults(m)) == WithDefaults(m)
  {
    WithDefaultsFills(m);
  }

  /** The as-written `__getURL` leaves a relative path unresolved and spoils an
      absolute URL, where the documented behaviour resolves the first and keeps the
      second. */
  lemma GetURLAsWrittenMisresolves(e: Engine, now: nat, rel: string, abs: string)
    requires rel == "/user" && abs == "https://x"
    ensures e.GetURLAsWritten(rel, now) == rel
    ensures e.GetURL(rel, now) == CacheBust(e.apiBase + rel, now)
    ensures e.GetURLAsWritten(abs, now) == CacheBust("undefined" + abs, now)
    ensures e.GetURL(abs, now) == abs
  {
    assert !Contains(rel, "//") by {
      forall i | 0 <= i <= |rel| ensures !OccursAt(rel, "//", i) {
        if 0 <= i <= |rel| - 2 {
          assert rel[i..i + 2][1] == rel[i + 1] != '/';
        }
      }
    }
    assert OccursAt(abs, "//", 6);
    CacheBustWithoutTimestamp(rel, now);
    CacheBustWithoutTimestamp(abs, now);
  }

  /** As written, `_request` throws a `TypeError` on every engine before any
      request is sent, for any wrapper that adds no `_getURL` of its own: the
      engine's methods are named `__getURL` and `__getRequestHeaders`. Called by
      those names it sends the request `Request` describes, whose configuration
      is `BuildConfig`'s. */
  lemma RequestAsWrittenThrows(e: Engine, own: set<string>, verb: string, path: string, data: JsValue,
                               hasCb: bool, raw: JsValue, now: nat, transport: Config -> Outcome)
    requires "_getURL" !in own
    ensures e.RequestAsWritten(own, verb, path, data, hasCb, raw, now, transport)
            == ThrewBeforeSending(ThrownTypeError)
    ensures e.RequestCalling(own, "__getURL", "__getRequestHeaders", verb, path, data, hasCb, raw, now, transport)
            == Sent(e.Request(verb, path, data, hasCb, raw, now, transport))
    ensures e.Request(verb, path, data, hasCb, raw, now, transport).config == e.BuildConfig(verb, path, data, raw, now)
  {
    assert "_getURL" !in e.Members();
  }

  /** An omitted `auth` is exactly the argument for which the constructor as
      written throws; the documented reading leaves the engine without a header
      there, and the two agree on every credentials object that is given. */
  lemma OmittedAuthThrows(arg: AuthArgument, enc: Encoders)
    ensures HeaderChoiceAsWritten(arg, enc).ThrewOnRead? <==> arg.OmittedAuth?
    ensures arg.OmittedAuth? ==> AuthorizationFor(AuthOf(arg), enc) == None
    ensures arg.GivenAuth? ==> HeaderChoiceAsWritten(arg, enc) == Chose(AuthorizationFor(AuthOf(arg), enc))
  {
  }
}
