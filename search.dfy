/** The search wrapper (src/Search.js): defaults captured once at construction,
    overlaid per call onto a JSON copy of them, and sent as the query of
    `GET /search/<scope>`. */
module Searches {
  import opened JsValues
  import opened Requestable

  /** `JSON.parse(JSON.stringify(v))` on what the defaults can hold: object
      members whose value is `undefined` or a function are dropped, array
      elements of those kinds become `null`, and a date becomes its ISO string. */
  function JsonCopy(v: JsValue, enc: Encoders): (r: JsValue)
    decreases v
  {
    match v
    case Undefined => Null
    case Func(_) => Null
    case Date(t) => Str(enc.isoString(t))
    case Arr(xs) => Arr(seq(|xs|, i requires 0 <= i < |xs| => JsonCopy(xs[i], enc)))
    case Obj(m) => Obj(map k | k in m && !Dropped(m[k]) :: JsonCopy(m[k], enc))
    case _ => v
  }

  predicate Dropped(v: JsValue) {
    v.Undefined? || v.Func?
  }

  function JsonCopyMap(m: map<string, JsValue>, enc: Encoders): (r: map<string, JsValue>)
    ensures forall k :: k in r <==> k in m && !Dropped(m[k])
    ensures forall k :: k in r ==> r[k] == JsonCopy(m[k], enc)
  {
    JsonCopy(Obj(m), enc).props
  }

  /** A copy keeps every plain string, number, boolean and `null` member as it is. */
  lemma JsonCopyKeepsScalars(m: map<string, JsValue>, enc: Encoders, k: string)
    requires k in m && (m[k].Str? || m[k].Num? || m[k].Bool? || m[k].Null?)
    ensures k in JsonCopyMap(m, enc) && JsonCopyMap(m, enc)[k] == m[k]
  {
  }

  /** A copy has nothing left to drop: copying it again changes nothing. */
  lemma {:induction false} JsonCopyStable(v: JsValue, enc: Encoders)
    ensures JsonCopy(JsonCopy(v, enc), enc) == JsonCopy(v, enc)
    decreases v
  {
    match v
    case Arr(xs) =>
      var ys := seq(|xs|, i requires 0 <= i < |xs| => JsonCopy(xs[i], enc));
      forall i | 0 <= i < |xs| ensures JsonCopy(ys[i], enc) == ys[i] {
        JsonCopyStable(xs[i], enc);
      }
      assert JsonCopy(Arr(ys), enc) == Arr(ys);
    case Obj(m) =>
      var c := JsonCopyMap(m, enc);
      forall k | k in c ensures !Dropped(c[k]) && JsonCopy(c[k], enc) == c[k] {
        JsonCopyStable(m[k], enc);
      }
      assert JsonCopyMap(c, enc) == c;
    case _ =>
  }

  /** The keys `_extendDefaults` copies over. `for...in` over `undefined` or `null`
      runs no iteration; only plain-object options are modelled. */
  function OptionKeys(withOptions: JsValue): set<string> {
    if withOptions.Obj? then withOptions.props.Keys else {}
  }

  /** The request options: every option the caller gave, and the copied default
      for every key the caller did not mention. */
  function Extended(defaults: map<string, JsValue>, withOptions: JsValue, enc: Encoders): (r: map<string, JsValue>)
    ensures forall k :: k in r <==> k in OptionKeys(withOptions) || k in JsonCopyMap(defaults, enc)
    ensures forall k :: k in OptionKeys(withOptions) ==> r[k] == withOptions.props[k]
    ensures forall k :: k !in OptionKeys(withOptions) && k in JsonCopyMap(defaults, enc) ==>
              r[k] == JsonCopyMap(defaults, enc)[k]
  {
    var copy := JsonCopyMap(defaults, enc);
    if withOptions.Obj? then copy + withOptions.props else copy
  }

  /** `_extendDefaults` as written iterates with `for...of`, which throws a
      `TypeError` for every value that is not iterable: a plain object and
      `undefined` (the two shapes callers pass), `null`, a number, a boolean, a
      date and a function. Iterating an array or a string is not modelled. */
  datatype ExtendAsWritten = NotIterable | IterationNotModelled

  function ExtendDefaultsAsWritten(withOptions: JsValue): (r: ExtendAsWritten)
    ensures withOptions.Obj? || withOptions.Undefined? ==> r == NotIterable
    ensures r == NotIterable <==> !withOptions.Arr? && !withOptions.Str?
  {
    if withOptions.Arr? || withOptions.Str? then IterationNotModelled else NotIterable
  }

  /** The property names a `Search` adds to those of the engine: the field its
      constructor sets and the methods of its class. */
  const SearchMembers: set<string> := {
    "_defaults", "_extendDefaults", "_search", "repositories", "code", "issues", "users"}

  class Search {
    const engine: Engine
    const enc: Encoders
    /** `_defaults`: the very object the caller passed, filled in place. */
    var defaults: JsObject

    /** `super(auth, apiBase)` and `this._defaults = this._getOptionsWithDefaults(defaults)` */
    constructor(auth: AuthArgument, apiBase: string, given: JsObject?, enc: Encoders)
      modifies given
      ensures engine.apiBase == (if apiBase == "" then DefaultApiBase else apiBase)
      ensures engine.authorizationHeader == AuthorizationFor(AuthOf(auth), enc)
      ensures this.enc == enc
      ensures given != null ==> defaults == given
      ensures given == null ==> fresh(defaults)
      ensures defaults.props == WithDefaults(if given == null then map[] else old(given.props))
    {
      engine := new Engine(auth, apiBase, enc);
      this.enc := enc;
      var d := GetOptionsWithDefaults(given);
      defaults := d;
    }

    /** `_extendDefaults(withOptions)`: a copy of the defaults with the caller's
        options assigned key by key; the defaults themselves are only read. */
    method ExtendDefaults(withOptions: JsValue) returns (r: map<string, JsValue>)
      ensures r == Extended(defaults.props, withOptions, enc)
    {
      r := JsonCopyMap(defaults.props, enc);
      ghost var copy := r;
      var todo := OptionKeys(withOptions);
      ghost var done: set<string> := {};
      while todo != {}
        invariant todo !! done && todo + done == OptionKeys(withOptions)
        invariant r.Keys == copy.Keys + done
        invariant forall k :: k in done ==> r[k] == withOptions.props[k]
        invariant forall k :: k in r && k !in done ==> r[k] == copy[k]
        decreases todo
      {
        var opt :| opt in todo;
        r := r[opt := withOptions.props[opt]];
        todo, done := todo - {opt}, done + {opt};
      }
      assert r == Extended(defaults.props, withOptions, enc);
    }

    /** The request a search in `scope` makes. */
    function SearchTrace(scope: string, options: JsValue, hasCb: bool, now: nat, transport: Config -> Outcome): RequestTrace
      reads this, defaults
    {
      engine.Request("GET", "/search/" + scope, Obj(Extended(defaults.props, options, enc)), hasCb, Undefined, now, transport)
    }

    /** `_search(path, options, cb)` */
    method SearchRequest(scope: string, options: JsValue, hasCb: bool, now: nat, transport: Config -> Outcome)
      returns (trace: RequestTrace)
      ensures trace == SearchTrace(scope, options, hasCb, now, transport)
    {
      var requestOptions := ExtendDefaults(options);
      trace := engine.Request("GET", "/search/" + scope, Obj(requestOptions), hasCb, Undefined, now, transport);
    }

    /** A search sends the merged options as the query and no body, to
        `/search/<scope>` with the JSON media type. */
    lemma SearchSendsQuery(scope: string, options: JsValue, hasCb: bool, now: nat, transport: Config -> Outcome)
      ensures var c := SearchTrace(scope, options, hasCb, now, transport).config;
              && c.verb == "GET" && c.url == engine.GetURL("/search/" + scope, now)
              && c.params == Obj(Extended(defaults.props, options, enc)) && c.data == Undefined
              && c.headers["Accept"] == JsonAccept && c.responseType == "json"
    {
    }

    /** As written, the request of a search throws a `TypeError` before it is sent:
        neither the engine nor the search has a `_getURL`. */
    lemma SearchAsWrittenThrows(scope: string, options: JsValue, hasCb: bool, now: nat, transport: Config -> Outcome)
      ensures engine.RequestAsWritten(SearchMembers, "GET", "/search/" + scope,
                                      Obj(Extended(defaults.props, options, enc)), hasCb, Undefined, now, transport)
              == ThrewBeforeSending(ThrownTypeError)
    {
      RequestAsWrittenThrows(engine, SearchMembers, "GET", "/search/" + scope,
                             Obj(Extended(defaults.props, options, enc)), hasCb, Undefined, now, transport);
    }

    method Repositories(options: JsValue, hasCb: bool, now: nat, transport: Config -> Outcome)
      returns (trace: RequestTrace)
      ensures trace == SearchTrace("repositories", options, hasCb, now, transport)
    {
      trace := SearchRequest("repositories", options, hasCb, now, transport);
    }

    method Code(options: JsValue, hasCb: bool, now: nat, transport: Config -> Outcome)
      returns (trace: RequestTrace)
      ensures trace == SearchTrace("code", options, hasCb, now, transport)
    {
      trace := SearchRequest("code", options, hasCb, now, transport);
    }

    method Issues(options: JsValue, hasCb: bool, now: nat, transport: Config -> Outcome)
      returns (trace: RequestTrace)
      ensures trace == SearchTrace("issues", options, hasCb, now, transport)
    {
      trace := SearchRequest("issues", options, hasCb, now, transport);
    }

    method Users(options: JsValue, hasCb: bool, now: nat, transport: Config -> Outcome)
      returns (trace: RequestTrace)
      ensures trace == SearchTrace("users", options, hasCb, now, transport)
    {
      trace := SearchRequest("users", options, hasCb, now, transport);
    }
  }

  /** Options absent or empty leave the JSON copy of the defaults, which carries
      the three filled-in keys. */
  lemma NoOptionsKeepDefaults(d: map<string, JsValue>, enc: Encoders)
    ensures Extended(WithDefaults(d), Undefined, enc) == JsonCopyMap(WithDefaults(d), enc)
    ensures var m := Extended(WithDefaults(d), Obj(map[]), enc);
            && ("type" in m <==> !Get(d, "type").Func?)
            && ("sort" in m <==> !Get(d, "sort").Func?)
            && ("per_page" in m <==> !Get(d, "per_page").Func?)
  {
    var w := WithDefaults(d);
    WithDefaultsFills(d);
    FilledKeyCopied(d, w, "type", enc);
    FilledKeyCopied(d, w, "sort", enc);
    FilledKeyCopied(d, w, "per_page", enc);
  }

  /** A key the defaults filled in survives the copy unless its value is a function. */
  lemma FilledKeyCopied(d: map<string, JsValue>, w: map<string, JsValue>, k: string, enc: Encoders)
    requires k in w && Truthy(w[k])
    requires w[k] == Get(d, k) || !Truthy(Get(d, k))
    requires !Truthy(Get(d, k)) ==> !w[k].Func?
    ensures k in Extended(w, Obj(map[]), enc) <==> !Get(d, k).Func?
  {
  }
}
