/** The page walk of the request engine (`_requestAllPages` in src/Requestable.js):
    GET a path, append the page's items to the running results, read the next
    page from the `Link` header, and go on until there is none. The transport is
    a function from the request configuration to its outcome, and `clock(k)` is the
    time at which the k-th page is requested; the walk itself is stated over the
    page source `Pages(e, t, clock)` that those two make up. Because a server can
    link pages in a cycle, the walk is given a bound `fuel` on the number of
    requests. */
module Pagination {
  import opened JsValues
  import opened Requestable
  import opened Links

  /** What `results.push.apply(results, data)` appends: the items of an array,
      nothing for `undefined`, `null` or an object without a `length`; for a
      boolean, number or string `apply` throws a `TypeError` (`None`). */
  function PageItems(data: JsValue): (r: Option<seq<JsValue>>)
    ensures data.Arr? ==> r == Some(data.items)
    ensures r.None? <==> data.Bool? || data.Num? || data.Str?
  {
    match data
    case Arr(xs) => Some(xs)
    case Bool(_) => None
    case Num(_) => None
    case Str(_) => None
    case _ => Some([])
  }

  /** `response.headers.link` */
  function LinkHeader(r: Response): Option<string> {
    if "link" in r.headers then Some(r.headers["link"]) else None
  }

  function NextOf(r: Response): Option<string> {
    GetNextPage(LinkHeader(r))
  }

  /** `if (nextUrl)`: the walk goes on only for a non-empty next URL. */
  predicate Continues(next: Option<string>) {
    next.Some? && next.value != ""
  }

  /** `this._request('GET', path, null)`: the k-th page request. */
  function PageConfig(e: Engine, path: string, now: nat): Config {
    e.BuildConfig("GET", path, Null, Undefined, now)
  }

  /** What a walk sees of the server: the answer to the k-th page request for a
      path, and the next page a response names. The walk's properties below hold
      for any reader of the next page; the engine's own is `NextOf`. */
  datatype PageSource = PageSource(answer: (string, nat) -> Outcome, next: Response -> Option<string>)

  function Pages(e: Engine, t: Config -> Outcome, clock: nat -> nat): PageSource {
    PageSource((path: string, k: nat) => t(PageConfig(e, path, clock(k))), NextOf)
  }

  /** Why a walk ended. `NotArrayLike` is the `TypeError` of `push.apply` on a
      primitive page body; `OutOfFuel` means the model's bound was reached. */
  datatype Stop =
    | Finished(results: seq<JsValue>)
    | PageFailed(path: string, response: Response)
    | NotArrayLike(path: string)
    | OutOfFuel

  /** The paths requested, in order, and why the walk ended. */
  datatype WalkEnd = WalkEnd(visited: seq<string>, stop: Stop)

  /** The walk from the k-th request on, with `acc` already accumulated. */
  function WalkFrom(f: PageSource, path: string, k: nat,
                    acc: seq<JsValue>, fuel: nat): WalkEnd
    decreases fuel
  {
    if fuel == 0 then WalkEnd([], OutOfFuel)
    else
      match f.answer(path, k)
      case Failed(r) => WalkEnd([path], PageFailed(path, r))
      case Delivered(r) =>
        match PageItems(r.data)
        case None => WalkEnd([path], NotArrayLike(path))
        case Some(items) =>
          var next := f.next(r);
          if Continues(next) then
            var rest := WalkFrom(f, next.value, k + 1, acc + items, fuel - 1);
            WalkEnd([path] + rest.visited, rest.stop)
          else
            WalkEnd([path], Finished(acc + items))
  }

  function Walk(f: PageSource, path: string, fuel: nat): WalkEnd {
    WalkFrom(f, path, 0, [], fuel)
  }

  /** A walk that had already requested `visited` before going on with `w`. */
  function After(visited: seq<string>, w: WalkEnd): WalkEnd {
    WalkEnd(visited + w.visited, w.stop)
  }

  /** How the end of a walk reaches the caller. On success the callback gets
      `(null, results)` and the promise fulfils with the results. A failed page
      goes through `callbackErrorOrThrow(cb, path)`: with a callback it is called
      with the error record and the promise then fulfils with `undefined`; without
      one the raw response is rethrown through every page. A `TypeError` raised by
      the walk itself also reaches that handler, whose log message reads
      `response.config.method` of it and so throws again before the callback. */
  function Deliver(hasCb: bool, stop: Stop): (Option<CallbackCall>, Settled<JsValue>) {
    match stop
    case Finished(rs) => (if hasCb then Some(SuccessArgs(Arr(rs), None)) else None, Fulfilled(Arr(rs)))
    case PageFailed(p, r) =>
      (match ErrorHandler(hasCb, p, r)
       case CalledBack(call) => (Some(call), Fulfilled(Undefined))
       case Rethrown(reason) => (None, Rejected(reason)))
    case NotArrayLike(_) => (None, Rejected(ThrownTypeError))
    case OutOfFuel => (None, Pending)
  }

  /** `_requestAllPages(path, options, cb)` on the engine `e` with transport `t`.
      `options` is not modelled: the source never reads it. */
  method RequestAllPages(e: Engine, t: Config -> Outcome, clock: nat -> nat, path: string,
                         hasCb: bool, fuel: nat)
    returns (visited: seq<string>, callback: Option<CallbackCall>, promise: Settled<JsValue>)
    ensures Walk(Pages(e, t, clock), path, fuel).visited == visited
    ensures (callback, promise) == Deliver(hasCb, Walk(Pages(e, t, clock), path, fuel).stop)
  {
    visited, callback, promise := WalkPages(Pages(e, t, clock), path, hasCb, fuel);
  }

  /** The loop form of the recursion of `_requestAllPages` over a page source, with
      `results` grown page by page. */
  method WalkPages(f: PageSource, path: string, hasCb: bool, fuel: nat)
    returns (visited: seq<string>, callback: Option<CallbackCall>, promise: Settled<JsValue>)
    ensures Walk(f, path, fuel).visited == visited
    ensures (callback, promise) == Deliver(hasCb, Walk(f, path, fuel).stop)
  {
    ghost var whole := Walk(f, path, fuel);
    var p, k, left := path, 0, fuel;
    var results: seq<JsValue> := [];
    var stop := OutOfFuel;
    var done := false;
    visited := [];
    while !done && left > 0
      invariant !done ==> k + left == fuel
      invariant !done ==> stop == OutOfFuel
      invariant done ==> whole == WalkEnd(visited, stop)
      invariant !done ==> whole == After(visited, WalkFrom(f, p, k, results, left))
      decreases left
    {
      // `this._request('GET', p, null)` at time `clock(k)`
      var outcome := f.answer(p, k);
      ghost var before, acc := visited, results;
      visited := visited + [p];
      match outcome {
        case Failed(r) =>
          assert WalkFrom(f, p, k, acc, left) == WalkEnd([p], PageFailed(p, r));
          stop, done := PageFailed(p, r), true;
        case Delivered(r) =>
          match PageItems(r.data) {
            case None =>
              assert WalkFrom(f, p, k, acc, left) == WalkEnd([p], NotArrayLike(p));
              stop, done := NotArrayLike(p), true;
            case Some(items) =>
              WalkStep(f, p, k, acc, left);
              results := results + items;
              var next := f.next(r);
              if Continues(next) {
                ghost var rest := WalkFrom(f, next.value, k + 1, results, left - 1);
                assert before + ([p] + rest.visited) == visited + rest.visited;
                p, k := next.value, k + 1;
              } else {
                stop, done := Finished(results), true;
              }
          }
      }
      left := left - 1;
    }
    if !done {
      assert WalkFrom(f, p, k, results, left) == WalkEnd([], OutOfFuel);
      assert visited + [] == visited;
    }
    var d := Deliver(hasCb, stop);
    callback, promise := d.0, d.1;
  }

  // ---------------------------------------------------------------------------
  // What a walk is: a chain of pages, each naming the next.
  // ---------------------------------------------------------------------------

  /** The j-th page of a walk whose first request is the k0-th: it is delivered,
      carries the items `its`, and names the next path, or no next page if it is
      the last. */
  predicate PageAnswers(f: PageSource, k0: nat,
                        paths: seq<string>, j: nat, its: seq<JsValue>)
    requires j < |paths|
  {
    var out := f.answer(paths[j], k0 + j);
    && out.Delivered?
    && PageItems(out.response.data) == Some(its)
    && (if j + 1 < |paths| then f.next(out.response) == Some(paths[j + 1]) && paths[j + 1] != ""
        else !Continues(f.next(out.response)))
  }

  predicate Chain(f: PageSource, k0: nat,
                  paths: seq<string>, items: seq<seq<JsValue>>)
  {
    && |paths| == |items| >= 1
    && forall j :: 0 <= j < |paths| ==> PageAnswers(f, k0, paths, j, items[j])
  }

  /** The items of every page, in order. */
  function Concat(items: seq<seq<JsValue>>): seq<JsValue>
    decreases |items|
  {
    if items == [] then [] else items[0] + Concat(items[1..])
  }

  /** A chain shifted by one page is a chain. */
  lemma ChainTail(f: PageSource, k0: nat,
                  paths: seq<string>, items: seq<seq<JsValue>>)
    requires Chain(f, k0, paths, items) && |paths| >= 2
    ensures Chain(f, k0 + 1, paths[1..], items[1..])
  {
    forall j | 0 <= j < |paths| - 1
      ensures PageAnswers(f, k0 + 1, paths[1..], j, items[1..][j])
    {
      assert PageAnswers(f, k0, paths, j + 1, items[j + 1]);
      assert k0 + 1 + j == k0 + (j + 1);
    }
  }

  /** When the server answers with a chain of pages that fits the bound, the walk
      requests exactly those pages, in order, and finishes with all their items
      concatenated in that order. */
  lemma {:induction false} WalkFollowsChain(f: PageSource, k0: nat,
                                            paths: seq<string>, items: seq<seq<JsValue>>,
                                            acc: seq<JsValue>, fuel: nat)
    requires Chain(f, k0, paths, items) && |paths| <= fuel
    ensures WalkFrom(f, paths[0], k0, acc, fuel) == WalkEnd(paths, Finished(acc + Concat(items)))
    decreases |paths|
  {
    assert PageAnswers(f, k0, paths, 0, items[0]);
    var r := f.answer(paths[0], k0).response;
    assert PageItems(r.data) == Some(items[0]);
    if |paths| == 1 {
      assert !Continues(f.next(r));
      assert paths == [paths[0]];
      assert items[1..] == [];
      assert Concat(items) == items[0] + [];
      assert acc + Concat(items) == acc + items[0];
      assert WalkFrom(f, paths[0], k0, acc, fuel) == WalkEnd([paths[0]], Finished(acc + items[0]));
    } else {
      ChainTail(f, k0, paths, items);
      WalkFollowsChain(f, k0 + 1, paths[1..], items[1..], acc + items[0], fuel - 1);
      assert [paths[0]] + paths[1..] == paths;
      assert acc + items[0] + Concat(items[1..]) == acc + Concat(items);
    }
  }

  /** The items one page carries (none when it has none). */
  function PageItemsAt(f: PageSource, path: string, k: nat): seq<JsValue> {
    var out := f.answer(path, k);
    if out.Delivered? && PageItems(out.response.data).Some? then PageItems(out.response.data).value else []
  }

  /** The items the pages of `paths` carry, the first being the k0-th request. */
  function ItemsOf(f: PageSource, k0: nat, paths: seq<string>): (items: seq<seq<JsValue>>)
    ensures |items| == |paths|
    decreases |paths|
  {
    if paths == [] then [] else [PageItemsAt(f, paths[0], k0)] + ItemsOf(f, k0 + 1, paths[1..])
  }

  /** One step of a walk whose first page is delivered with items. */
  lemma WalkStep(f: PageSource, path: string, k: nat, acc: seq<JsValue>, fuel: nat)
    requires fuel > 0 && f.answer(path, k).Delivered? && PageItems(f.answer(path, k).response.data).Some?
    ensures var r := f.answer(path, k).response;
            var items := PageItems(r.data).value;
            var next := f.next(r);
            var w := WalkFrom(f, path, k, acc, fuel);
            if Continues(next) then
              var rest := WalkFrom(f, next.value, k + 1, acc + items, fuel - 1);
              w == WalkEnd([path] + rest.visited, rest.stop)
            else w == WalkEnd([path], Finished(acc + items))
  {
  }

  /** A first page that names the start of a chain, put in front of it. */
  lemma ChainCons(f: PageSource, k0: nat, path: string, its: seq<JsValue>,
                  rest: seq<string>, items: seq<seq<JsValue>>)
    requires Chain(f, k0 + 1, rest, items)
    requires f.answer(path, k0).Delivered? && PageItems(f.answer(path, k0).response.data) == Some(its)
    requires f.next(f.answer(path, k0).response) == Some(rest[0]) && rest[0] != ""
    ensures Chain(f, k0, [path] + rest, [its] + items)
  {
    var paths := [path] + rest;
    forall j | 0 <= j < |paths| ensures PageAnswers(f, k0, paths, j, ([its] + items)[j]) {
      if j > 0 {
        assert PageAnswers(f, k0 + 1, rest, j - 1, items[j - 1]);
        assert paths[j] == rest[j - 1];
        assert k0 + j == k0 + 1 + (j - 1);
        if j + 1 < |paths| {
          assert paths[j + 1] == rest[j];
        }
      }
    }
  }

  /** Conversely, every finished walk is such a chain: each page but the last named
      the next one, the last named none, and the results are all pages' items in
      the order the pages were requested. */
  lemma {:induction false} FinishedWalkIsChain(f: PageSource, k0: nat,
                                               path: string, acc: seq<JsValue>, fuel: nat)
    requires WalkFrom(f, path, k0, acc, fuel).stop.Finished?
    ensures var w := WalkFrom(f, path, k0, acc, fuel);
            && |w.visited| >= 1 && w.visited[0] == path && |w.visited| <= fuel
            && Chain(f, k0, w.visited, ItemsOf(f, k0, w.visited))
            && w.stop.results == acc + Concat(ItemsOf(f, k0, w.visited))
    decreases fuel
  {
    var r := f.answer(path, k0).response;
    var items := PageItems(r.data).value;
    var next := f.next(r);
    WalkStep(f, path, k0, acc, fuel);
    var w := WalkFrom(f, path, k0, acc, fuel);
    if Continues(next) {
      var rest := WalkFrom(f, next.value, k0 + 1, acc + items, fuel - 1);
      FinishedWalkIsChain(f, k0 + 1, next.value, acc + items, fuel - 1);
      var its' := ItemsOf(f, k0 + 1, rest.visited);
      assert w.visited == [path] + rest.visited;
      assert w.visited[1..] == rest.visited;
      assert ItemsOf(f, k0, w.visited) == [items] + its';
      ChainCons(f, k0, path, items, rest.visited, its');
      assert Concat([items] + its') == items + Concat(its');
      assert w.stop.results == acc + (items + Concat(its'));
    } else {
      assert w.visited == [path];
      assert ItemsOf(f, k0, w.visited) == [items];
      assert Concat([items]) == items + Concat([]);
    }
  }

  /** A walk that ends at a failed page ends at the last page it requested, with
      the transport's rejection of that very request. */
  lemma {:induction false} FailedWalkEndsThere(f: PageSource, k0: nat,
                                               path: string, acc: seq<JsValue>, fuel: nat)
    requires WalkFrom(f, path, k0, acc, fuel).stop.PageFailed?
    ensures var w := WalkFrom(f, path, k0, acc, fuel);
            var n := |w.visited|;
            && n >= 1 && w.stop.path == w.visited[n - 1]
            && f.answer(w.visited[n - 1], k0 + n - 1) == Failed(w.stop.response)
    decreases fuel
  {
    if f.answer(path, k0).Delivered? {
      var r := f.answer(path, k0).response;
      var items := PageItems(r.data).value;
      var next := f.next(r);
      WalkStep(f, path, k0, acc, fuel);
      FailedWalkEndsThere(f, k0 + 1, next.value, acc + items, fuel - 1);
      var rest := WalkFrom(f, next.value, k0 + 1, acc + items, fuel - 1);
      var n := |rest.visited|;
      assert ([path] + rest.visited)[n] == rest.visited[n - 1];
      assert k0 + (n + 1) - 1 == k0 + 1 + n - 1;
    }
  }

  /** The callback is called at most once, and exactly once when there is one and
      the walk finished or met a failed page; it then gets the whole result list or
      the failed page's error record. Without a callback a failed page rejects the
      promise with the raw response. */
  lemma DeliverOnce(hasCb: bool, stop: Stop)
    ensures var d := Deliver(hasCb, stop);
            && (d.0.Some? <==> hasCb && (stop.Finished? || stop.PageFailed?))
            && (stop.Finished? ==> d.1 == Fulfilled(Arr(stop.results)))
            && (hasCb && stop.Finished? ==> d.0 == Some(SuccessArgs(Arr(stop.results), None)))
            && (hasCb && stop.PageFailed? ==>
                  d.0 == Some(ErrorArgs(BuildError(stop.path, stop.response))) && d.1 == Fulfilled(Undefined))
            && (!hasCb && stop.PageFailed? ==> d.1 == Rejected(ThrownResponse(stop.response)))
  {
  }

  // ---------------------------------------------------------------------------
  // The walk as written: the recursive call passes `(nextUrl, cb, results)` to the
  // parameters `(path, options, cb, results)`.
  // ---------------------------------------------------------------------------

  /** What the `cb` parameter of a call holds. */
  datatype CbSlot = NoCallback | UserCallback | ArrayInSlot

  /** `callbackErrorOrThrow(cb, path)` applied to what reached it. */
  function HandleAsWritten(cb: CbSlot, path: string, reason: Thrown): (seq<CallbackCall>, Settled<JsValue>) {
    match reason
    case ThrownTypeError => ([], Rejected(ThrownTypeError))
    case ThrownResponse(r) =>
      match cb
      case NoCallback => ([], Rejected(reason))
      case UserCallback => ([ErrorArgs(BuildError(path, r))], Fulfilled(Undefined))
      case ArrayInSlot => ([], Rejected(ThrownTypeError))
  }

  /** One call of the as-written `_requestAllPages` and all the calls it makes. The
      recursive call puts the running results where the callback belongs and starts
      a fresh list, so `cb(null, results)` at the end, or `cb(error)` on a failure,
      invokes an array. */
  function WalkAsWrittenFrom(f: PageSource, path: string, k: nat,
                             results: seq<JsValue>, cb: CbSlot, fuel: nat): (seq<CallbackCall>, Settled<JsValue>)
    decreases fuel
  {
    if fuel == 0 then ([], Pending)
    else
      match f.answer(path, k)
      case Failed(r) => HandleAsWritten(cb, path, ThrownResponse(r))
      case Delivered(r) =>
        match PageItems(r.data)
        case None => HandleAsWritten(cb, path, ThrownTypeError)
        case Some(items) =>
          var next := f.next(r);
          if Continues(next) then
            var inner := WalkAsWrittenFrom(f, next.value, k + 1, [], ArrayInSlot, fuel - 1);
            (match inner.1
             case Rejected(reason) =>
               var h := HandleAsWritten(cb, path, reason);
               (inner.0 + h.0, h.1)
             case _ => inner)
          else
            match cb
            case NoCallback => ([], Fulfilled(Arr(results + items)))
            case UserCallback => ([SuccessArgs(Arr(results + items), None)], Fulfilled(Arr(results + items)))
            case ArrayInSlot => HandleAsWritten(cb, path, ThrownTypeError)
  }

  function WalkAsWritten(f: PageSource, path: string,
                         hasCb: bool, fuel: nat): (seq<CallbackCall>, Settled<JsValue>) {
    WalkAsWrittenFrom(f, path, 0, [], if hasCb then UserCallback else NoCallback, fuel)
  }

  /** A call that holds an array in its callback slot never calls anything and
      never fulfils. */
  lemma {:induction false} ArraySlotNeverFulfils(f: PageSource,
                                                 path: string, k: nat, results: seq<JsValue>, fuel: nat)
    ensures var w := WalkAsWrittenFrom(f, path, k, results, ArrayInSlot, fuel);
            w == ([], Pending) || w == ([], Rejected(ThrownTypeError))
    decreases fuel
  {
    if fuel > 0 {
      match f.answer(path, k)
      case Failed(r) =>
      case Delivered(r) =>
        match PageItems(r.data)
        case None =>
        case Some(items) =>
          var next := f.next(r);
          if Continues(next) {
            ArraySlotNeverFulfils(f, next.value, k + 1, [], fuel - 1);
            var inner := WalkAsWrittenFrom(f, next.value, k + 1, [], ArrayInSlot, fuel - 1);
            if inner.1.Rejected? {
              assert HandleAsWritten(ArrayInSlot, path, inner.1.reason) == ([], Rejected(ThrownTypeError));
              assert inner.0 + [] == [];
            }
          }
    }
  }

  /** As written, any walk whose first page names a next page never reaches the
      caller's callback and never fulfils: it ends in a `TypeError` (or does not end
      within the bound). For the same server the corrected walk over a chain of
      pages delivers all their items. */
  lemma WalkAsWrittenBreaksAtSecondPage(f: PageSource,
                                        path: string, hasCb: bool, fuel: nat)
    requires fuel >= 1
    requires f.answer(path, 0).Delivered?
    requires PageItems(f.answer(path, 0).response.data).Some?
    requires Continues(f.next(f.answer(path, 0).response))
    ensures var w := WalkAsWritten(f, path, hasCb, fuel);
            w == ([], Pending) || w == ([], Rejected(ThrownTypeError))
  {
    var r := f.answer(path, 0).response;
    ArraySlotNeverFulfils(f, f.next(r).value, 1, [], fuel - 1);
    var inner := WalkAsWrittenFrom(f, f.next(r).value, 1, [], ArrayInSlot, fuel - 1);
    var cb := if hasCb then UserCallback else NoCallback;
    if inner.1.Rejected? {
      assert HandleAsWritten(cb, path, inner.1.reason) == ([], Rejected(ThrownTypeError));
      assert inner.0 + [] == [];
    }
  }

  /** The two-page case side by side: the corrected walk delivers both pages'
      items, in order, to the callback and the promise. */
  lemma CorrectedWalkDeliversTwoPages(f: PageSource,
                                      paths: seq<string>, items: seq<seq<JsValue>>, hasCb: bool, fuel: nat)
    requires Chain(f, 0, paths, items) && |paths| == 2 && fuel >= 2
    ensures Deliver(hasCb, Walk(f, paths[0], fuel).stop).1 == Fulfilled(Arr(items[0] + items[1]))
    ensures var w := WalkAsWritten(f, paths[0], hasCb, fuel);
            w.0 == [] && w.1 != Fulfilled(Arr(items[0] + items[1]))
  {
    WalkFollowsChain(f, 0, paths, items, [], fuel);
    assert items[1..][1..] == [];
    assert Concat(items[1..]) == items[1] + [];
    assert Concat(items) == items[0] + items[1];
    assert [] + Concat(items) == items[0] + items[1];
    assert PageAnswers(f, 0, paths, 0, items[0]);
    WalkAsWrittenBreaksAtSecondPage(f, paths[0], hasCb, fuel);
  }
}
