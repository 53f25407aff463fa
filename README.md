# A model of the GitHub.js request layer

This project models the decision layer of a small GitHub REST client written in
JavaScript. It covers three parts:

- **The request engine** (`Requestable`).
  - The constructor picks the `Authorization` header once, at construction.
  - A path is resolved against the API base.
  - The first `timestamp=<digits>` cache-buster is rewritten.
  - It builds the request headers.
  - It routes a payload into the query parameters or the body.
  - It fills the search-option defaults.
  - It builds the error record.
  - The handler decides what reaches the callback and what the returned promise settles with.
  - It reads the next page from a `Link` header and walks every page of a listing.
- **The repository wrapper** (`Repository`).
  - The repository path is fixed at construction.
  - The branch and sha cache of the working tree.
  - The query string of `getCommits`.
  - Stripping of the branch-name prefix.
  - The in-place tree rewrite of `move`.
  - The body that `write` assembles.
  - The content dispatch of `postBlob`.
  - The argument defaulting of `getSha`, `branch` and `write`.
  - A representative set of URL templates.
- **The search wrapper** (`Search`).
  - Defaults are filled once at construction.
  - On each call they are overlaid onto a JSON copy.
  - The result is sent as the query of `GET /search/<scope>`.

Everything the code hands to foreign code is a parameter of the model:

- The HTTP transport is a function from the request configuration to its outcome.
- The clock is a number passed in, or `clock(k)` for the k-th page.
- The encoders are a record of uninterpreted functions: Base64, UTF-8, `b64encode`, `encodeURI`, `encodeURIComponent` and `toISOString`.

JavaScript values are a datatype `JsValue`, a value from the `JsValues` module. The functions `Truthy`, `Or` and `ToStr` state the language's rules for truthiness, for `||` and for string concatenation.

Files:

| file | module | contents |
|---|---|---|
| `jsvalues.dfy` | `JsValues` | JS values, truthiness, property reads, string helpers, the encoder record, a mutable `JsObject` |
| `requestable.dfy` | `Requestable` | the `Engine` class, the cache-buster rewrite, headers, routing, settlement, option defaults |
| `links.dfy` | `Links` | `getNextPage`: the `\s*,\s*` split, the `<(.*)>` match, the fold over the entries |
| `pagination.dfy` | `Pagination` | `_requestAllPages` as a loop proved against a recursive walk; chains of pages; the walk as written |
| `repository.dfy` | `Repositories` | the `Repository` class (path, tree cache, request builders, `getCommits`), the `move` rewrite over an array |
| `search.dfy` | `Searches` | the `Search` class, the JSON copy, the overlay, the scope methods |

Where the code and its own documentation disagree, the model follows the documented behaviour for the main definitions. Where the as-written behaviour can be stated from the code alone, it is modelled next to the documented one, and the departure is a row under "## Findings". In particular:

- `_requestAllPages` is documented to return "a promise which will resolve when all pages have been fetched" (`src/Requestable.js:150-153`). From this the model infers that a page without a `Link` header is the last page. The code throws on such a page, because it calls `split` on `undefined`.
- `_extendDefaults` is documented to extend the provided options with the defaults (`src/Search.js:27-31`). Its `for...of` loop throws instead on the plain-object options that callers pass.
- `__getURL` is documented to resolve a relative path against the API base (`src/Requestable.js:46-51`). The code prefixes only paths that contain `//`, and it prefixes a field that is never assigned.
- The constructor is documented to make requests unauthenticated when `auth` is not provided (`src/Requestable.js:28-29`). The code reads `auth.token` first, so it throws.

Other departures depend on code this model does not include, and they are listed under "## Left out" instead: the `result.object.sha` and undeclared `xhr` of `getRef`, and the `this` of callbacks written as plain functions.

The URL templates in `src/Repository.js` all use a variable `repoPath` that is never declared. The constructor only sets `this.__repoPath`. The model builds every URL over the stored path, the field `repoPath` of `Repositories.Repository`.

## Model

| member | source | states |
|---|---|---|
| Requestable.Engine.constructor | src/Requestable.js:31-44 | the API base is the default URL when none is given; the stored credentials are `AuthOf` the argument, and the authorization header is the one `AuthorizationFor` chooses from them, fixed at construction; an omitted argument leaves the engine without a header, as documented at `:28-29` |
| Requestable.AuthOf | src/Requestable.js:25-30 | a given credentials object is used as it is; an omitted one stands for credentials with no truthy token, username or password, so that requests go unauthenticated |
| Requestable.AuthorizationFor | src/Requestable.js:39-43 | the header choice as defined: `token <token>` for a truthy token, otherwise `Basic ` and the Base64 of `user:password` when both are truthy, otherwise none; `TokenWins` and `AuthorizationCases` state its properties |
| Requestable.HeaderChoiceAsWritten | src/Requestable.js:33-43 | (finding on the constructor) as written, an omitted argument makes the read of `auth.token` throw a `TypeError`; given credentials choose `AuthorizationFor`'s header |
| Requestable.OmittedAuthThrows | src/Requestable.js:33-34 | the as-written constructor throws exactly when the argument is omitted, where the documented one chooses no header; with given credentials the two choose the same header |
| Requestable.TokenWins | src/Requestable.js:39-43 | a truthy token alone decides the header, whatever the username and password are, and a header is then present |
| Requestable.AuthorizationCases | src/Requestable.js:39-43 | a header exists iff the token is truthy or both username and password are; without a token it is `Basic ` plus the Base64 of `user:password` |
| Requestable.FirstTimestampFrom | src/Requestable.js:60 | the first index at or after `from` where `timestamp=\d+` matches, and no match before it; none when there is no match |
| Requestable.DigitRunEnd | src/Requestable.js:60 | the end of the maximal run of digits from a position (the greedy `\d+`) |
| Requestable.CacheBustKeepsCount | src/Requestable.js:59-60 | the rewrite never adds or removes a `timestamp=<digits>` occurrence |
| Requestable.CacheBustSetsFirst | src/Requestable.js:59-60 | after the rewrite the first cache-buster stands at the same index and its digits are exactly the new time; text before and after is kept |
| Requestable.CacheBustTwice | src/Requestable.js:59-60 | rewriting twice equals rewriting once with the later time |
| Requestable.CacheBustWithoutTimestamp | src/Requestable.js:59-60 | a URL without a cache-buster is left unchanged |
| Requestable.CacheBust | src/Requestable.js:59-60 | the rewrite as defined: the text before the first `timestamp=\d+` match, then `timestamp=` and the time in decimal, then the text after the matched digits; the URL itself when nothing matches; the four `CacheBust` lemmas state its properties |
| Requestable.GetURLNeverAddsTimestamp | src/Requestable.js:52-61 | the URL of a request has as many cache-busters as the resolved path had (the path itself when it contains `//`, the base plus the path otherwise), and equals the resolved path when that had none |
| Requestable.Engine.GetURL | src/Requestable.js:48-61 | the documented resolution: a path containing `//` is an absolute URL used as it is, any other path gets the API base in front; then the cache-buster is rewritten with the current time |
| Requestable.Engine.GetURLAsWritten | src/Requestable.js:55-60 | the resolution as written: the never-assigned `__baseUrl`, which concatenation renders as `undefined`, goes in front of paths that contain `//`, and other paths are used as they are; then the same cache-buster rewrite |
| Requestable.Engine.RequestHeaders | src/Requestable.js:69-80 | `Content-Type` is always the JSON type; `Accept` is the raw variant iff `raw` is truthy; `Authorization` is present iff a header was chosen, with that value; no other key |
| Requestable.MethodHasNoBody | src/Requestable.js:192-195 | a verb has no body exactly when it is `GET`, `HEAD` or `DELETE` |
| Requestable.UsesDataAsParams | src/Requestable.js:119 | the payload moves into the query parameters exactly when it is truthy, `typeof` gives `object`, and the verb has no body |
| Requestable.PayloadRouting | src/Requestable.js:117-123 | the payload becomes the query parameters, leaving no body, iff it is truthy, object-typed and the verb is GET, HEAD or DELETE; otherwise the parameters are `{}` and the body is the payload unchanged |
| Requestable.ConfigHeaders | src/Requestable.js:125-132 | the response type is `text` iff `raw` is truthy iff `Accept` is the raw variant; the content type is always sent; `Authorization` is sent iff a header was chosen |
| Requestable.Engine.BuildConfig | src/Requestable.js:115-132 | the configuration as defined: the `GetURL` of the path, the verb, the `RequestHeaders` of `raw`, the payload as parameters or as body as `UsesDataAsParams` decides, and the response type `text` or `json` by `raw`; `PayloadRouting` and `ConfigHeaders` state its properties |
| Requestable.Engine.Request | src/Requestable.js:114-144 | the request as defined: `BuildConfig` goes to the transport; with a callback the success form gets the response data, or `true` when that is falsy, and the response, and a failure goes through `ErrorHandler`; the promise settles with the transport's raw outcome; `RequestSettlement` states its properties |
| Requestable.RequestSettlement | src/Requestable.js:114-144 | with a callback, exactly one call is made: the success form iff the transport delivered, with the response data, or `true` when that is falsy, and the response; otherwise the error record of the failed path and response; the promise settles with the raw response either way |
| Requestable.ErrorHandler | src/Requestable.js:208-216 | with a callback the handler calls it with `buildError(path, response)`; without one it rethrows the response |
| Requestable.BuildError | src/Requestable.js:183-190 | the error record as defined: the path, the response's request configuration, the response and its status |
| Requestable.GetOptionsWithDefaults | src/Requestable.js:88-94 | the argument object itself is changed and returned (a fresh `{}` when omitted), and its properties become `WithDefaults` of the old ones |
| Requestable.WithDefaults | src/Requestable.js:88-94 | the defaults as defined: a falsy `type`, `sort` or `per_page` becomes `all`, `updated` or `100` and a truthy one stays; `WithDefaultsFills` and `WithDefaultsIdempotent` state its properties |
| Requestable.WithDefaultsFills | src/Requestable.js:88-94 | truthy `type`, `sort` and `per_page` are kept and falsy ones become `all`, `updated` and `100`; no other key is added or changed |
| Requestable.WithDefaultsIdempotent | src/Requestable.js:88-94 | applying the defaults twice equals applying them once |
| Requestable.GetURLAsWrittenMisresolves | src/Requestable.js:55-56 | (finding on `__getURL`) as written, `/user` stays unresolved and `https://x` becomes `undefinedhttps://x`; the documented resolution gives the base plus `/user`, and `https://x` unchanged |
| Requestable.Engine.RequestAsWritten | src/Requestable.js:115-116 | (finding on `_request`) as written, `_request` looks up `_getURL` and `_getRequestHeaders` on the instance and calls them; `RequestAsWrittenThrows` states what that gives |
| Requestable.Engine.Members | src/Requestable.js:31-177 | the property names of an engine: its fields (`__authorizationHeader` only when a header was chosen), the methods of the class, and the names inherited from `Object.prototype`; `__getURL` and `__getRequestHeaders` are among them |
| Requestable.Engine.RequestCalling | src/Requestable.js:114-116 | `_request` calling the two named methods: it throws a `TypeError` before sending exactly when the instance lacks one of the names, and it sends the request `Request` describes exactly when the names are `__getURL` and `__getRequestHeaders` |
| Requestable.RequestAsWrittenThrows | src/Requestable.js:115-116 | on an instance that has no own `_getURL`, the as-written request throws a `TypeError` before anything is sent, for every engine and input; the same call with `__getURL` and `__getRequestHeaders` sends `Request`, whose configuration is `BuildConfig` of the same inputs |
| Links.LeadingSpaces | src/Requestable.js:198 | how many leading characters the `\s*` after a comma removes: all of them are space, and the character after them is not |
| Links.TrimmedLength | src/Requestable.js:198 | where the `\s*` before a comma starts: everything from there on is space, and the character before it is not |
| Links.FirstComma | src/Requestable.js:198 | the index of the first comma, with no comma before it; none iff there is no comma |
| Links.SplitLinks | src/Requestable.js:198 | the split as defined: with no comma the header is one piece; otherwise the text before the first comma with its trailing space cut, then the split of the rest with its leading space cut |
| Links.SplitSeparators | src/Requestable.js:198 | the text each `\s*,\s*` match consumes, in order: the spaces before a comma, the comma, and the spaces after it |
| Links.IsSeparator | src/Requestable.js:198 | a text is a separator exactly when it is spaces, one comma, then spaces |
| Links.Interleave | src/Requestable.js:198 | the pieces with the separators put back between them |
| Links.SplitLinksRejoin | src/Requestable.js:198 | there is one separator fewer than pieces, every separator is spaces, one comma and spaces, and putting the separators back between the pieces gives the header exactly |
| Links.SplitLinksCount | src/Requestable.js:198 | splitting on `\s*,\s*` gives one more piece than there are commas |
| Links.SplitLinksCommaFree | src/Requestable.js:198 | no piece contains a comma |
| Links.SplitLinksLeading | src/Requestable.js:198 | every piece after the first starts with no space |
| Links.SplitLinksTrailing | src/Requestable.js:198 | every piece before the last ends with no space |
| Links.FirstPieceIsPrefix | src/Requestable.js:198 | the first piece is a prefix of the header |
| Links.LineEnd | src/Requestable.js:201 | the end of the line from a position (`.` does not cross a line terminator) |
| Links.LastClose | src/Requestable.js:201 | the last `>` in a range, and none after it; none iff the range has no `>` |
| Links.IndexOfFrom | src/Requestable.js:201 | the first occurrence of a character from a position, or none |
| Links.AngleMatchOneLine | src/Requestable.js:201 | on a single line, the `<(.*)>` group is the text between the first `<` and the last `>` after it, and there is none when no `>` follows |
| Links.AngleFromSkips | src/Requestable.js:201 | the match attempt moves past starting positions that hold no `<` |
| Links.AngleFromNoClose | src/Requestable.js:201 | a `<` with no `>` after it on its line does not match |
| Links.AngleFrom | src/Requestable.js:201 | the match as defined: from each start in turn, a `<` followed on its line by a `>` matches, and the group runs to the last such `>`; a start without that moves on; none at the end |
| Links.AngleMatch | src/Requestable.js:201 | the group of `link.match(/<(.*)>/)` is the match tried from the first position on, or none; `AngleMatchOneLine` states it |
| Links.GetNextPageAsWrittenThrows | src/Requestable.js:197-198 | (finding on `getNextPage`) as written, a missing header is exactly the case that throws; the corrected reader gives no next page there; on a present header the two agree |
| Links.GetNextPage | src/Requestable.js:197-206 | the corrected reader: no header means no next page; a present header is read by `NextPageOf` |
| Links.GetNextPageAsWritten | src/Requestable.js:197-198 | (finding on `getNextPage`) the reader as written: a missing header is the `split` of `undefined`, which throws; a present one is read by `NextPageOf` |
| Links.FoldWithoutNext | src/Requestable.js:199-205 | entries without `rel="next"` leave the running answer unchanged |
| Links.NextPageFold | src/Requestable.js:199-205 | the `reduce` as defined: an entry containing `rel="next"` replaces the running answer by its `<...>` match, any other entry keeps it |
| Links.NextPageOf | src/Requestable.js:197-205 | the fold over the split header, from no answer; `NextPageIsLastRelNext` states what it gives |
| Links.FoldLastNext | src/Requestable.js:199-205 | the fold answers with the `<...>` match of the last entry containing `rel="next"` |
| Links.LastNextEntry | src/Requestable.js:199-205 | the index of the last entry containing `rel="next"`, and none after it; none iff no entry contains it |
| Links.NextPageIsLastRelNext | src/Requestable.js:197-206 | `getNextPage` gives undefined when no entry has `rel="next"`, and otherwise the `<...>` text of the last such entry, or undefined when that entry has none |
| Pagination.PageItems | src/Requestable.js:161 | an array page contributes its items; a boolean, number or string makes `push.apply` throw |
| Pagination.LinkHeader | src/Requestable.js:163 | `response.headers.link`: the header when the response has one, none otherwise |
| Pagination.NextOf | src/Requestable.js:163 | the next page a response names is `GetNextPage` of its `Link` header |
| Pagination.Continues | src/Requestable.js:164 | the walk goes on exactly when a next URL was found and it is not empty |
| Pagination.WalkFrom | src/Requestable.js:157-173 | the recursive walk as defined: each request is answered by the source; a failure or a non-array page stops the walk there; otherwise the items are added and the walk goes on to the next page or finishes with all items; the bound stops it after `fuel` requests |
| Pagination.Walk | src/Requestable.js:156-175 | the walk from the first request with nothing accumulated; `WalkFollowsChain`, `FinishedWalkIsChain` and `FailedWalkEndsThere` state its properties |
| Pagination.Deliver | src/Requestable.js:169-174 | the delivery as defined: a finished walk calls back with `(null, results)` and fulfils with them; a failed page goes through `ErrorHandler`; a `TypeError` of the walk rejects without a callback; an exhausted bound stays pending |
| Pagination.WalkPages | src/Requestable.js:156-175 | for any page source, the loop requests exactly the paths of the recursive walk `Walk`, and delivers its end to the callback and promise as `Deliver` says |
| Pagination.RequestAllPages | src/Requestable.js:156-175 | on the pages the engine's transport serves, with the next page read from the `Link` header, the requests and the delivery are those of `Walk` and `Deliver` |
| Pagination.WalkFollowsChain | src/Requestable.js:157-173 | when the pages form a chain that fits the bound, each naming the next until one names none, the walk requests exactly those paths in order, and finishes with all their items concatenated in request order |
| Pagination.FinishedWalkIsChain | src/Requestable.js:157-173 | conversely, every finished walk is such a chain: the results are the items of the visited pages in request order, and the walk stopped exactly where no further next page was named |
| Pagination.FailedWalkEndsThere | src/Requestable.js:159-174 | a walk that meets a failed page stops at it: the last path requested is the failed one, with the transport's rejection of that request |
| Pagination.ItemsOf | src/Requestable.js:161 | one item list per visited path |
| Pagination.ChainTail | src/Requestable.js:163-166 | a chain without its first page is a chain from the next request |
| Pagination.DeliverOnce | src/Requestable.js:169-174 | the callback is called at most once: with `(null, results)` when the walk finished, or with the error record of the failed page; the promise fulfils with the results; without a callback a failure rejects with the raw response |
| Pagination.ArraySlotNeverFulfils | src/Requestable.js:166 | (finding on the recursive page call) a call that holds the results array in its callback slot never calls anything and never fulfils |
| Pagination.WalkAsWritten | src/Requestable.js:156-175 | (finding on the recursive page call) the walk as written: the recursive call puts the results array in the callback slot and starts a fresh list, and each level passes an inner rejection to its own handler |
| Pagination.WalkAsWrittenBreaksAtSecondPage | src/Requestable.js:166 | (finding on the recursive page call) as written, a walk whose first page names a next page never calls the caller's callback and never fulfils |
| Pagination.CorrectedWalkDeliversTwoPages | src/Requestable.js:156-175 | (finding on the recursive page call) on the same two-page server, the corrected walk fulfils with both pages' items in order and the as-written walk does not |
| Repositories.RepoPath | src/Repository.js:25-33 | the stored path always starts with `/repos/` |
| Repositories.RepoPathCases | src/Repository.js:25-33 | the path is `/repos/user/name` when both differ from `''`, and `/repos/fullname` otherwise; with only `fullname` given, the `undefined` user and name make it `/repos/undefined/undefined` |
| Repositories.Repository.constructor | src/Repository.js:23-37 | the path is `RepoPath` of the options, and the tree cache starts as `{branch: null, sha: null}` |
| Repositories.RepositoryLacksGetURL | src/Repository.js:23-557 | no field or method of a repository is named `_getURL` |
| Repositories.Repository.RequestsAsWrittenThrow | src/Repository.js:23-557 | (finding on `_request`) every request a repository makes throws a `TypeError` before it is sent, as the code is written |
| Repositories.Repository.GetRefCall | src/Repository.js:59-60 | `GET <repo>/git/refs/<ref>` without a payload |
| Repositories.UpdateTreeStep | src/Repository.js:40-50 | on a hit (same branch, truthy cached sha) there is no lookup and the cached sha is answered; on a miss `heads/<branch>` is looked up and both branch and sha are stored, even on error |
| Repositories.Repository.UpdateTree | src/Repository.js:40-50 | the method changes the cache and answers exactly as `UpdateTreeStep` says, and makes a lookup iff it missed |
| Repositories.InitialCacheMisses | src/Repository.js:34-37 | the initial cache never answers without a lookup |
| Repositories.UpdateTreeRemembers | src/Repository.js:40-50 | after a lookup that stored a truthy sha, asking again for the same branch makes no request; a falsy sha is looked up again |
| Repositories.UpdateTreeSwitchesBranch | src/Repository.js:40-50 | a different branch always misses and replaces both halves of the cache |
| Repositories.CommitSha | src/Repository.js:295 | the stored sha is `res.sha` of an object result, and `undefined` for a non-object result |
| Repositories.CommitStep | src/Repository.js:290-297 | a failed commit leaves the cache alone; a successful one stores `CommitSha` of its result as the sha and never changes the cached branch |
| Repositories.Repository.CommitSettled | src/Repository.js:290-297 | the method's new cache is `CommitStep` of the old one |
| Repositories.CommitThenUpdateTree | src/Repository.js:41-42 | after a successful commit on the cached branch, `_updateTree` answers the new commit's sha without a request |
| Repositories.StripHeads | src/Repository.js:140 | one leading `refs/heads/` is removed; other strings are unchanged |
| Repositories.StripHeadsOfPrefixed | src/Repository.js:140 | stripping undoes adding the prefix |
| Repositories.ListBranches | src/Repository.js:133-145 | an error is passed on alone, iff it is truthy; otherwise the names keep the refs' length and order, and each is its ref without one leading `refs/heads/` |
| Repositories.ListBranchesRoundTrip | src/Repository.js:139-141 | refs built from names list back as exactly those names |
| Repositories.Repository.GetShaLookup | src/Repository.js:161-174 | an empty or absent path looks up `heads/<branch>`; any other path reads `<repo>/contents/<path>`, with `?ref=<branch>` iff the branch is truthy |
| Repositories.Repository.ShaLookupCall | src/Repository.js:161-167 | the request of a lookup: `getRef` of the ref, or a `GET` of the contents URL without a payload |
| Repositories.BlobPayload | src/Repository.js:196-217 | a string becomes UTF-8 content; a Buffer or a Blob becomes base64 content; other input throws before any request; the body has exactly `content` and `encoding` |
| Repositories.Repository.PostBlobCall | src/Repository.js:196-219 | there is a `POST <repo>/git/blobs` with that body iff the content is not rejected |
| Repositories.Repository.UpdateTreeCall | src/Repository.js:230-243 | `POST <repo>/git/trees` whose body has exactly `base_tree` and a one-entry `tree` with the path, mode `100644`, type `blob` and the blob's sha |
| Repositories.Repository.PostTreeCall | src/Repository.js:255-257 | `POST <repo>/git/trees` whose body is `{tree}` holding the entries as given, in order |
| Repositories.Repository.CreateRefCall | src/Repository.js:77-78 | `POST <repo>/git/refs` with the options as the body |
| Repositories.BranchArguments | src/Repository.js:375-379 | two arguments, the second a function, make the old branch `master`, the new branch the first argument and the callback the second; otherwise the arguments stay as given |
| Repositories.Repository.BranchStep | src/Repository.js:381-390 | `branch` creates `refs/heads/<new>` at the looked-up sha, except exactly when the lookup failed and a callback was given |
| Repositories.Repository.BranchDefaultsToMaster | src/Repository.js:374-390 | `branch(new, cb)` looks up the head of `master` and creates `refs/heads/<new>` from it |
| Repositories.WriteArguments | src/Repository.js:480-483 | a function in the options slot becomes the callback, and the options become `{}` |
| Repositories.RecordErrorIsNot404 | src/Repository.js:495 | a request failure record has no `error` field, so after a failed lookup `write` never sends a sha |
| Repositories.SendsSha | src/Repository.js:495 | `write` sends the looked-up sha exactly when there is no error or the error's `error` field is the number 404 |
| Repositories.Repository.WriteBody | src/Repository.js:485-498 | `undefined` or `null` options make the body throw; otherwise the body holds message, branch, committer and author; the content is base64 unless `encode` is defined and falsy; `sha` is included iff there is no error or `err.error === 404` |
| Repositories.Repository.WriteWithCallbackEncodes | src/Repository.js:479-499 | `write` with a callback in the options slot puts base64 content at `<repo>/contents/<encoded path>` |
| Repositories.Repository.WriteCalls | src/Repository.js:479-499 | what `write` asks for: the `getSha` lookup of the encoded path on the branch, then, unless the body throws, a `PUT <repo>/contents/<encoded path>` with `WriteBody` of the defaulted arguments |
| Repositories.Repository.GetBlobCall | src/Repository.js:149-150 | `GET <repo>/git/blobs/<sha>` without a payload, asking for the raw media type |
| Repositories.Repository.ReadCall | src/Repository.js:431-433 | `GET <repo>/contents/<encoded path>`, with `?ref=<branch>` iff the branch is truthy, asking for the raw media type |
| Repositories.Repository.ContentsCall | src/Repository.js:353-357 | `GET <repo>/contents`, followed by `/` and the encoded path when that is not empty, with `{ref}` as the payload |
| Repositories.Repository.ListPullsCall | src/Repository.js:114-116 | `GET <repo>/pulls` with the options, or `{}` when they are falsy, as the payload |
| Repositories.Repository.UpdateHeadCall | src/Repository.js:304-307 | `PATCH <repo>/git/refs/heads/<head>` with `{sha: commit}` as the body |
| Repositories.Repository.RawReads | src/Repository.js:149-150 | blob and file reads (`getBlob`, `read` at `:431-433`) ask for the raw media type and a text response |
| Repositories.Repository.PayloadPlacement | src/Repository.js:353-357 | the `{ref}` of `contents` and the options of `listPulls` (`:114-116`) travel as query parameters; the bodies of `postBlob` and `updateHead` (`:304-307`) travel as bodies |
| Repositories.RewriteEntryEffect | src/Repository.js:458-466 | an entry is renamed iff its path is the old one, and loses `sha` iff its type is `tree`; nothing else changes |
| Repositories.RewriteEntry | src/Repository.js:458-466 | the rewrite of one entry as defined: its `path` becomes the new path when it equals the old one, and `sha` is deleted when its `type` is `tree`; `RewriteEntryEffect` and `RewriteEntryIdempotent` state its properties |
| Repositories.RewriteEntryIdempotent | src/Repository.js:458-466 | rewriting a rewritten entry again changes nothing |
| Repositories.ParamsCount | src/Repository.js:515-553 | there is one pair per truthy option and none for the others; there are no pairs iff every option is falsy |
| Repositories.ParamPosition | src/Repository.js:515-553 | the pair of each truthy option sits after the pairs of the truthy options before it in the order sha, path, author, since, until, page, per_page |
| Repositories.ParamsUpTo | src/Repository.js:515-553 | the pairs of the first `n` entries of a parameter table, in table order, one for each truthy option; `CommitParamRules` is the table of `getCommits`: `sha`, `path`, `author`, `since`, `until`, `page` and `perpage` sent as `per_page`; `ParamsCount` and `ParamPosition` state its properties |
| Repositories.QueryString | src/Repository.js:555-557 | the suffix is empty iff there are no pairs, and otherwise starts with `?` |
| Repositories.Repository.CommitsPath | src/Repository.js:510-557 | the URL is `<repo>/commits` followed by the query string of the table-ordered pairs of the truthy options (dates through `toISOString`, all but `page` and `per_page` URI-encoded) |
| Repositories.RewriteTree | src/Repository.js:458-466 | every entry of the array is replaced in place by its `RewriteEntryEffect` rewrite; the array keeps its length and order |
| Searches.JsonCopyMap | src/Search.js:34 | the copy keeps exactly the members that are neither `undefined` nor a function, each copied |
| Searches.JsonCopyKeepsScalars | src/Search.js:34 | string, number, boolean and `null` members are copied as they are |
| Searches.JsonCopyStable | src/Search.js:34 | copying a copy changes nothing |
| Searches.JsonCopy | src/Search.js:34 | `JSON.parse(JSON.stringify(v))` as defined: `undefined` and functions become `null` in arrays and are dropped from objects, dates become their ISO strings, other scalars stay; `JsonCopyMap`, `JsonCopyKeepsScalars` and `JsonCopyStable` state its properties |
| Searches.Extended | src/Search.js:33-41 | the merged options hold every caller key, with the caller's value, and every copied default key the caller did not mention, with the copied value |
| Searches.ExtendDefaultsAsWritten | src/Search.js:36 | (finding on `for...of`) as written, `for...of` throws a `TypeError` exactly for options that are neither an array nor a string: plain objects, `undefined`, `null`, numbers, booleans, dates and functions |
| Searches.OptionKeys | src/Search.js:36-38 | the keys the corrected loop copies: the keys of plain-object options, and none for `undefined` or `null` |
| Searches.Search.constructor | src/Search.js:22-25 | the defaults are the caller's own object, filled in place by `_getOptionsWithDefaults` (a fresh one when omitted) |
| Searches.Search.ExtendDefaults | src/Search.js:33-41 | the loop's result is `Extended` of the defaults and the options, and the defaults are not modified |
| Searches.Search.SearchRequest | src/Search.js:51-55 | `_search` makes the request `SearchTrace` describes |
| Searches.Search.SearchTrace | src/Search.js:51-54 | the request a search makes: `GET /search/<scope>` through `Request`, with `Extended` of the defaults and the options as the payload and no raw flag |
| Searches.Search.SearchAsWrittenThrows | src/Search.js:51-54 | (finding on `_request`) as written, every search throws a `TypeError` before it is sent |
| Searches.Search.SearchSendsQuery | src/Search.js:51-55 | a search is `GET /search/<scope>` with the merged options as the query, no body, the JSON media type and a JSON response |
| Searches.Search.Repositories | src/Search.js:63-65 | the scope is `repositories` |
| Searches.Search.Code | src/Search.js:73-75 | the scope is `code` |
| Searches.Search.Issues | src/Search.js:83-85 | the scope is `issues` |
| Searches.Search.Users | src/Search.js:93-95 | the scope is `users` |
| Searches.NoOptionsKeepDefaults | src/Search.js:24 | a search without options sends the copied defaults; `type`, `sort` and `per_page` are present unless the caller stored a function there |

## Left out

- The transport is an input, not real I/O: axios, promise chaining and asynchrony. A request's outcome is a function argument.
- The logging through `debug` is not modelled. The only exception is the catch handler's log template. It reads `response.config.method`, so it throws when a `TypeError` reaches it, and the model includes that throw.
- The encoders are uninterpreted fields of `Encoders`: `Base64.encode`, `Utf8.encode`, `b64encode`, `encodeURI`, `encodeURIComponent`, `toISOString`, `Buffer.toString('base64')` and the string form of a date (`dateString`). A function's string form is not an encoder: `ToStr` renders every function as the fixed text `function`, not its source text.
- The clock is passed in. The cache-buster receives the time as a number, and the page walk receives `clock(k)` for the k-th request.
- `getRef` has no modelled result. As written it reads `result.object.sha` from an axios response and passes an undeclared `xhr`. It has no error branch. `UpdateTree` and `branch` are therefore modelled on the `(err, sha)` answer that their callbacks expect, given as an input.
- `commit` is modelled only by its cache update. The rest calls `new Github.User().show(...)`, a remote call to a class that is not in scope, and reads an undeclared `options.user`.
- `deleteRef` and `deleteRepo` are not modelled. They are one-line templates that pass an undeclared `options`.
- Callbacks written as `function` expressions, not arrows, get a `this` that is not the repository. The model assumes the intended `this`.
- The timed 202 retry in `contributors` is `setTimeout` polling, and it is not modelled.
- The one-line URL templates are left out beyond a representative few: tags, pulls, compare, statuses, trees, forks, collaborators, hooks, releases and stars. The modelled ones are `getRef`, `createRef`, `listPulls`, `getBlob`, `postTree`, `updateHead`, `contents` and `read`.
- The rest of `move` is not modelled: the chain of `_updateTree`, `getTree`, `postTree`, `commit` and `updateHead`. Only its in-place tree rewrite is modelled.
- `remove` only chains `getSha` into a `DELETE`, and it is not modelled.
- `src/Issue.js` is an empty subclass without logic, and it is not part of this model.
- Searches.ExtendDefaultsAsWritten: `for...of` over an array or a string does not throw, and those iterations are not modelled.
- Searches.OptionKeys: `for...in` runs over plain-object keys only. Arrays and strings as search options are not modelled.
- Searches.Search.constructor: an omitted defaults argument is modelled as `null`. A JavaScript `null` passed explicitly would make `_getOptionsWithDefaults` throw, because the default applies only to `undefined`, and that case is not modelled.
- Repositories.Repository.constructor: an omitted `options` argument makes `options.fullname` throw at `src/Repository.js:25`. The model always takes an options map, so that throw is not modelled.
- Repositories.ListBranches: the names are computed from a sequence of ref strings. Response data that is not an array (for example `true`) makes `heads.map` throw, and a `ref` that is not a string makes `replace` throw (`src/Repository.js:139-140`). Neither throw is modelled.
- Pagination.RequestAllPages: the walk is bounded by `fuel` requests, because a server can link pages in a cycle and the code would then never stop. An exhausted bound is reported as a pending promise.
- Pagination.PageItems: page data that is array-like but not an array (an object with a `length`) is treated as contributing no items.
- Pagination.Deliver: a callback that throws is not modelled.
- Requestable.Engine.Request: the callback's own return value and exceptions are not modelled, nor the rejection of a `.then` chain that its throw would cause.
- Numbers are integers only. Floating point is not modelled, and `ToStr` of a number is its decimal integer form.

## Findings

| source | as written | input that shows it | evidently intended | confidence | as-written member | corrected member |
|---|---|---|---|---|---|---|
| src/Requestable.js:55-56 | the base is prefixed only when the path contains `//`, and the prefix is `this.__baseUrl`, which is never assigned | path `/user` stays `/user`; path `https://x` becomes `undefinedhttps://x` | a path without `//` is resolved against `__apiBase`, and an absolute URL is kept (the doc comment at `:49`) | not executed | Requestable.Engine.GetURLAsWritten, Requestable.GetURLAsWrittenMisresolves | Requestable.Engine.GetURL |
| src/Requestable.js:197-198 | `getNextPage` calls `split` on `response.headers.link` even when the response has no `Link` header | a page response without a `link` header throws `TypeError` | no header means no next page | not executed | Links.GetNextPageAsWritten, Links.GetNextPageAsWrittenThrows | Links.GetNextPage |
| src/Requestable.js:166 | the recursive call passes `(nextUrl, cb, results)` to the parameters `(path, options, cb, results)` | a first page with `Link: <p2>; rel="next"` and a second page without one: `cb` receives the results array, so calling it throws, and a fresh empty list is used | `this._requestAllPages(nextUrl, options, cb, results)` | not executed | Pagination.WalkAsWritten, Pagination.WalkAsWrittenBreaksAtSecondPage, Pagination.CorrectedWalkDeliversTwoPages | Pagination.RequestAllPages |
| src/Search.js:36 | `for (let opt of withOptions)` over the caller's options | any search with plain-object options, or with none, throws `TypeError` (not iterable) | `for...in`, copying each caller key over the defaults | not executed | Searches.ExtendDefaultsAsWritten | Searches.Search.ExtendDefaults |
| src/Requestable.js:115-116 | `_request` calls `this._getURL` and `this._getRequestHeaders`, which are defined as `__getURL` and `__getRequestHeaders` | any request throws `TypeError` before it is sent | calls to `__getURL` and `__getRequestHeaders` | not executed | Requestable.Engine.RequestAsWritten, Requestable.RequestAsWrittenThrows | Requestable.Engine.RequestCalling, Requestable.Engine.Request |
| src/Requestable.js:33-34 | the constructor reads `auth.token`, `auth.username` and `auth.password` without checking that `auth` was given | `new Requestable()` with no arguments, or a `Search` built without `auth`, throws `TypeError` while reading `auth.token` | without `auth`, no header is chosen and requests go unauthenticated (the doc comment at `:28-29`) | not executed | Requestable.HeaderChoiceAsWritten, Requestable.OmittedAuthThrows | Requestable.AuthOf, Requestable.Engine.constructor |
