/** The repository wrapper (src/Repository.js): the repository path fixed at
    construction, the cached branch and sha of the working tree, and the
    requests its operations hand to the request engine. Every URL is built over
    the path the constructor stores. */
module Repositories {
  import opened JsValues
  import opened Requestable

  const HeadsPrefix := "refs/heads/"
  const FileMode := "100644"

  /** One `_request(method, path, data, cb, raw)` call, before the engine turns it
      into a transport configuration. */
  datatype Call = Call(verb: string, path: string, data: JsValue, raw: JsValue)

  /** The configuration the engine builds for a call made at time `now`. */
  function ConfigOf(e: Engine, c: Call, now: nat): Config {
    e.BuildConfig(c.verb, c.path, c.data, c.raw, now)
  }

  /** The path the constructor stores: `/repos/<user>/<name>` unless one of the
      two is exactly the empty string, in which case `/repos/<fullname>`. An
      absent `user` or `name` reads as `undefined`, which differs from `''`. */
  function RepoPath(options: map<string, JsValue>, enc: Encoders): (p: string)
    ensures StartsWith(p, "/repos/")
  {
    var user := Get(options, "user");
    var name := Get(options, "name");
    if user != Str("") && name != Str("") then "/repos/" + ToStr(user, enc) + "/" + ToStr(name, enc)
    else "/repos/" + ToStr(Get(options, "fullname"), enc)
  }

  lemma RepoPathCases(owner: string, name: string, fullname: string, enc: Encoders)
    ensures owner != "" && name != "" ==>
              RepoPath(map["user" := Str(owner), "name" := Str(name), "fullname" := Str(fullname)], enc)
              == "/repos/" + owner + "/" + name
    ensures owner == "" || name == "" ==>
              RepoPath(map["user" := Str(owner), "name" := Str(name), "fullname" := Str(fullname)], enc)
              == "/repos/" + fullname
    ensures RepoPath(map["fullname" := Str(fullname)], enc) == "/repos/undefined/undefined"
  {
    var m := map["user" := Str(owner), "name" := Str(name), "fullname" := Str(fullname)];
    assert Get(m, "user") == Str(owner) && Get(m, "name") == Str(name) && Get(m, "fullname") == Str(fullname);
    var f := map["fullname" := Str(fullname)];
    assert Get(f, "user") == Undefined && Get(f, "name") == Undefined;
  }

  // ---------------------------------------------------------------------------
  // The tree cache.
  // ---------------------------------------------------------------------------

  /** `__currentTree` */
  datatype TreeCache = TreeCache(branch: JsValue, sha: JsValue)

  /** What `getRef` hands its callback: an error (falsy when none) and a sha. */
  datatype RefAnswer = RefAnswer(err: JsValue, sha: JsValue)

  /** `branch === this.__currentTree.branch && this.__currentTree.sha` */
  predicate CacheHit(c: TreeCache, branch: string) {
    c.branch == Str(branch) && Truthy(c.sha)
  }

  /** One `_updateTree(branch, cb)`: the cache afterwards, the ref looked up (if
      any), and the arguments `cb` receives. */
  datatype TreeUpdate = TreeUpdate(cache: TreeCache, lookedUp: Option<string>, err: JsValue, sha: JsValue)

  function UpdateTreeStep(c: TreeCache, branch: string, answer: RefAnswer): (u: TreeUpdate)
    ensures CacheHit(c, branch) ==> u == TreeUpdate(c, None, Null, c.sha)
    ensures !CacheHit(c, branch) ==>
              u.lookedUp == Some("heads/" + branch) && u.cache == TreeCache(Str(branch), answer.sha)
              && u.err == answer.err && u.sha == answer.sha
  {
    if CacheHit(c, branch) then TreeUpdate(c, None, Null, c.sha)
    else TreeUpdate(TreeCache(Str(branch), answer.sha), Some("heads/" + branch), answer.err, answer.sha)
  }

  /** The cache the constructor sets up never answers without a request. */
  lemma InitialCacheMisses(branch: string)
    ensures !CacheHit(TreeCache(Null, Null), branch)
  {
  }

  /** Once a lookup stored a truthy sha, asking again for the same branch makes no
      request and returns that sha, whatever a second lookup would say; a falsy
      sha, as after an error, is looked up again. */
  lemma UpdateTreeRemembers(c: TreeCache, branch: string, first: RefAnswer, second: RefAnswer)
    ensures var u1 := UpdateTreeStep(c, branch, first);
            var u2 := UpdateTreeStep(u1.cache, branch, second);
            && (Truthy(u1.sha) ==> u2 == TreeUpdate(u1.cache, None, Null, u1.sha))
            && (!Truthy(u1.sha) ==> u2.lookedUp == Some("heads/" + branch) && u2.sha == second.sha)
  {
  }

  /** A different branch always misses and replaces both halves of the cache. */
  lemma UpdateTreeSwitchesBranch(c: TreeCache, b1: string, b2: string, a1: RefAnswer, a2: RefAnswer)
    requires b1 != b2
    ensures var u1 := UpdateTreeStep(c, b1, a1);
            UpdateTreeStep(u1.cache, b2, a2) == TreeUpdate(TreeCache(Str(b2), a2.sha), Some("heads/" + b2), a2.err, a2.sha)
  {
  }

  /** The sha `commit` stores once its request succeeded: `res.sha`, where `res`
      is `data || true` and so never `null` or `undefined`. */
  function CommitSha(res: JsValue): (sha: JsValue)
    ensures !res.Obj? ==> sha == Undefined
    ensures res.Obj? && "sha" in res.props ==> sha == res.props["sha"]
  {
    if res.Undefined? || res.Null? then Undefined else Prop(res, "sha")
  }

  /** `commit`'s callback changes the cache only on success, and then only its sha. */
  function CommitStep(c: TreeCache, result: CallbackCall): (r: TreeCache)
    ensures r.branch == c.branch
    ensures result.ErrorArgs? ==> r == c
    ensures result.SuccessArgs? ==> r.sha == CommitSha(result.result)
  {
    match result
    case ErrorArgs(_) => c
    case SuccessArgs(res, _) => TreeCache(c.branch, CommitSha(res))
  }

  /** After a successful commit on the cached branch, `_updateTree` answers with
      the new commit's sha without a request (when that sha is truthy). */
  lemma CommitThenUpdateTree(c: TreeCache, branch: string, res: JsValue, response: Option<Response>, a: RefAnswer)
    requires c.branch == Str(branch) && Truthy(CommitSha(res))
    ensures var c' := CommitStep(c, SuccessArgs(res, response));
            UpdateTreeStep(c', branch, a) == TreeUpdate(c', None, Null, CommitSha(res))
  {
  }

  // ---------------------------------------------------------------------------
  // Pure request builders.
  // ---------------------------------------------------------------------------

  /** `ref.replace(/^refs\/heads\//, '')` */
  function StripHeads(ref: string): (r: string)
    ensures StartsWith(ref, HeadsPrefix) ==> ref == HeadsPrefix + r
    ensures !StartsWith(ref, HeadsPrefix) ==> r == ref
  {
    if StartsWith(ref, HeadsPrefix) then ref[|HeadsPrefix|..] else ref
  }

  /** Exactly one prefix comes off, so a name that itself starts with it keeps it. */
  lemma StripHeadsOfPrefixed(name: string)
    ensures StripHeads(HeadsPrefix + name) == name
  {
    assert (HeadsPrefix + name)[..|HeadsPrefix|] == HeadsPrefix;
    assert (HeadsPrefix + name)[|HeadsPrefix|..] == name;
  }

  /** What `listBranches` hands its callback. */
  datatype BranchList = BranchesFailed(err: JsValue) | Branches(names: seq<string>)

  function ListBranches(err: JsValue, refs: seq<string>): (r: BranchList)
    ensures Truthy(err) <==> r == BranchesFailed(err)
    ensures !Truthy(err) ==>
              r.Branches? && |r.names| == |refs|
              && forall i :: 0 <= i < |refs| ==>
                   refs[i] == (if StartsWith(refs[i], HeadsPrefix) then HeadsPrefix + r.names[i] else r.names[i])
  {
    if Truthy(err) then BranchesFailed(err)
    else Branches(seq(|refs|, i requires 0 <= i < |refs| => StripHeads(refs[i])))
  }

  /** Listing branches whose refs were built from names gives the names back. */
  lemma {:induction false} ListBranchesRoundTrip(names: seq<string>)
    ensures ListBranches(Null, seq(|names|, i requires 0 <= i < |names| => HeadsPrefix + names[i]))
            == Branches(names)
  {
    var refs := seq(|names|, i requires 0 <= i < |names| => HeadsPrefix + names[i]);
    var r := ListBranches(Null, refs);
    forall i | 0 <= i < |names| ensures r.names[i] == names[i] {
      StripHeadsOfPrefixed(names[i]);
    }
  }

  /** Which request `getSha` makes. */
  datatype ShaLookup = ViaRef(ref: string) | ViaContents(url: string)

  /** `post`: the `{content, encoding}` body `postBlob` builds; `None` means it
      throws before any request. */
  datatype BlobContent =
    | TextContent(text: string)
    | BufferContent(bytes: seq<bv8>)
    | BlobData(bytes: seq<bv8>)
    | OtherContent(value: JsValue)

  function BlobPayload(content: BlobContent, enc: Encoders): (r: Option<map<string, JsValue>>)
    ensures r.None? <==> content.OtherContent?
    ensures r.Some? ==> r.value.Keys == {"content", "encoding"}
    ensures r.Some? ==> r.value["encoding"] == Str(if content.TextContent? then "utf-8" else "base64")
    ensures content.TextContent? ==> r.value["content"] == Str(enc.utf8(content.text))
    ensures content.BufferContent? ==> r.value["content"] == Str(enc.bytesBase64(content.bytes))
    ensures content.BlobData? ==> r.value["content"] == Str(enc.blobBase64(content.bytes))
  {
    match content
    case TextContent(s) => Some(map["content" := Str(enc.utf8(s)), "encoding" := Str("utf-8")])
    case BufferContent(b) => Some(map["content" := Str(enc.bytesBase64(b)), "encoding" := Str("base64")])
    case BlobData(b) => Some(map["content" := Str(enc.blobBase64(b)), "encoding" := Str("base64")])
    case OtherContent(_) => None
  }

  /** The arguments of `branch(oldBranch, newBranch, cb)` after defaulting. */
  datatype BranchArgs = BranchArgs(oldBranch: JsValue, newBranch: JsValue, cb: JsValue)

  function Arg(args: seq<JsValue>, i: nat): JsValue {
    if i < |args| then args[i] else Undefined
  }

  function BranchArguments(args: seq<JsValue>): (r: BranchArgs)
    ensures |args| == 2 && args[1].Func? ==> r == BranchArgs(Str("master"), args[0], args[1])
    ensures !(|args| == 2 && args[1].Func?) ==> r == BranchArgs(Arg(args, 0), Arg(args, 1), Arg(args, 2))
  {
    if |args| == 2 && args[1].Func? then BranchArgs(Str("master"), args[0], args[1])
    else BranchArgs(Arg(args, 0), Arg(args, 1), Arg(args, 2))
  }

  /** `write(branch, path, content, message, options, cb)`: a function in the
      options slot is the callback, and the options become `{}`. */
  datatype WriteArgs = WriteArgs(options: JsValue, cb: JsValue)

  function WriteArguments(options: JsValue, cb: JsValue): (r: WriteArgs)
    ensures options.Func? ==> r == WriteArgs(Obj(map[]), options)
    ensures !options.Func? ==> r == WriteArgs(options, cb)
  {
    if options.Func? then WriteArgs(Obj(map[]), options) else WriteArgs(options, cb)
  }

  /** `!(err && err.error !== 404)`: whether `write` sends the looked-up sha. */
  predicate SendsSha(err: JsValue) {
    !Truthy(err) || Prop(err, "error") == Num(404)
  }

  /** What the failure record of a request says about `error`: it has no such
      field, so a failed sha lookup never sends the sha. */
  lemma RecordErrorIsNot404(record: map<string, JsValue>)
    requires record.Keys == {"path", "request", "response", "status"}
    ensures !SendsSha(Obj(record))
  {
  }

  /** The `move` rewrite of one tree entry: the entry whose `path` is the old path
      is renamed, and an entry of type `tree` loses its `sha`. */
  function RewriteEntry(entry: map<string, JsValue>, path: JsValue, newPath: JsValue): map<string, JsValue> {
    var renamed := if Get(entry, "path") == path then entry["path" := newPath] else entry;
    if Get(renamed, "type") == Str("tree") then renamed - {"sha"} else renamed
  }

  /** Each entry is renamed exactly when its path is the old one, loses `sha`
      exactly when its type is `tree`, and is otherwise unchanged. */
  lemma RewriteEntryEffect(entry: map<string, JsValue>, path: JsValue, newPath: JsValue)
    ensures var r := RewriteEntry(entry, path, newPath);
            && Get(r, "path") == (if Get(entry, "path") == path then newPath else Get(entry, "path"))
            && Get(r, "type") == Get(entry, "type")
            && ("sha" in r <==> "sha" in entry && Get(entry, "type") != Str("tree"))
            && ("sha" in r ==> r["sha"] == entry["sha"])
            && forall k :: k != "path" && k != "sha" ==> (k in r <==> k in entry) && (k in r ==> r[k] == entry[k])
  {
  }

  /** Running the rewrite twice changes nothing more. */
  lemma RewriteEntryIdempotent(entry: map<string, JsValue>, path: JsValue, newPath: JsValue)
    ensures RewriteEntry(RewriteEntry(entry, path, newPath), path, newPath) == RewriteEntry(entry, path, newPath)
  {
  }

  /** The parameter table of `getCommits`: the option read, the `name=` sent, and how
      the value is written. Dates among `since` and `until` go through
      `toISOString`; all but `page` and `per_page` are URI-component encoded. */
  datatype ParamKind = Escaped | EscapedDate | Verbatim
  datatype ParamRule = ParamRule(option: string, prefix: string, kind: ParamKind)

  const CommitParamRules: seq<ParamRule> := [
    ParamRule("sha", "sha=", Escaped),
    ParamRule("path", "path=", Escaped),
    ParamRule("author", "author=", Escaped),
    ParamRule("since", "since=", EscapedDate),
    ParamRule("until", "until=", EscapedDate),
    ParamRule("page", "page=", Verbatim),
    ParamRule("perpage", "per_page=", Verbatim)]

  /** `options.k` on what `options || {}` left, which is never `null` or `undefined`. */
  function OptionOf(o: JsValue, k: string): JsValue {
    if o.Undefined? || o.Null? then Undefined else Prop(o, k)
  }

  function ParamValue(v: JsValue, kind: ParamKind, enc: Encoders): string {
    match kind
    case Escaped => enc.uriComponent(ToStr(v, enc))
    case EscapedDate => enc.uriComponent(if v.Date? then enc.isoString(v.time) else ToStr(v, enc))
    case Verbatim => ToStr(v, enc)
  }

  /** The `name=value` pair of rule `i`, present when its option is truthy. */
  function ParamAt(o: JsValue, rules: seq<ParamRule>, i: nat, enc: Encoders): seq<string>
    requires i < |rules|
  {
    var v := OptionOf(o, rules[i].option);
    if Truthy(v) then [rules[i].prefix + ParamValue(v, rules[i].kind, enc)] else []
  }

  /** The pairs of the first `n` rules, in table order. */
  function ParamsUpTo(o: JsValue, rules: seq<ParamRule>, n: nat, enc: Encoders): seq<string>
    requires n <= |rules|
    decreases n
  {
    if n == 0 then [] else ParamsUpTo(o, rules, n - 1, enc) + ParamAt(o, rules, n - 1, enc)
  }

  /** How many of the first `n` options are truthy. */
  function TruthyUpTo(o: JsValue, rules: seq<ParamRule>, n: nat): nat
    requires n <= |rules|
    decreases n
  {
    if n == 0 then 0 else TruthyUpTo(o, rules, n - 1) + (if Truthy(OptionOf(o, rules[n - 1].option)) then 1 else 0)
  }

  /** One pair per truthy option, none for the others; in particular no pair at
      all exactly when every option is falsy. */
  lemma {:induction false} ParamsCount(o: JsValue, rules: seq<ParamRule>, n: nat, enc: Encoders)
    requires n <= |rules|
    ensures |ParamsUpTo(o, rules, n, enc)| == TruthyUpTo(o, rules, n)
    ensures ParamsUpTo(o, rules, n, enc) == [] <==>
              forall j :: 0 <= j < n ==> !Truthy(OptionOf(o, rules[j].option))
    decreases n
  {
    PairCount(o, rules, n, enc);
    NoneTruthy(o, rules, n);
  }

  lemma {:induction false} PairCount(o: JsValue, rules: seq<ParamRule>, n: nat, enc: Encoders)
    requires n <= |rules|
    ensures |ParamsUpTo(o, rules, n, enc)| == TruthyUpTo(o, rules, n)
    decreases n
  {
    if n > 0 {
      PairCount(o, rules, n - 1, enc);
      assert |ParamsUpTo(o, rules, n, enc)| == |ParamsUpTo(o, rules, n - 1, enc)| + |ParamAt(o, rules, n - 1, enc)|;
    }
  }

  lemma {:induction false} NoneTruthy(o: JsValue, rules: seq<ParamRule>, n: nat)
    requires n <= |rules|
    ensures TruthyUpTo(o, rules, n) == 0 <==> forall j :: 0 <= j < n ==> !Truthy(OptionOf(o, rules[j].option))
    decreases n
  {
    if n > 0 {
      NoneTruthy(o, rules, n - 1);
    }
  }

  /** The pair of each truthy option sits at the position given by the number of
      truthy options before it, so the pairs follow the table's order. */
  lemma {:induction false} ParamPosition(o: JsValue, rules: seq<ParamRule>, n: nat, j: nat, enc: Encoders)
    requires j < n <= |rules|
    requires Truthy(OptionOf(o, rules[j].option))
    ensures var ps := ParamsUpTo(o, rules, n, enc);
            TruthyUpTo(o, rules, j) < |ps| && ps[TruthyUpTo(o, rules, j)] == ParamAt(o, rules, j, enc)[0]
    decreases n
  {
    var before := ParamsUpTo(o, rules, n - 1, enc);
    var ps := before + ParamAt(o, rules, n - 1, enc);
    assert ParamsUpTo(o, rules, n, enc) == ps;
    var t := TruthyUpTo(o, rules, j);
    if j < n - 1 {
      ParamPosition(o, rules, n - 1, j, enc);
      assert ps[t] == before[t];
    } else {
      PairCount(o, rules, n - 1, enc);
      assert |before| == t;
      assert ps[t] == ParamAt(o, rules, n - 1, enc)[0];
    }
  }

  /** `'?' + params.join('&')`, only when there is a parameter. */
  function QueryString(params: seq<string>): (q: string)
    ensures q == "" <==> params == []
    ensures params != [] ==> q[0] == '?'
  {
    if params == [] then "" else "?" + Join(params, "&")
  }

  // ---------------------------------------------------------------------------
  // The wrapper object.
  // ---------------------------------------------------------------------------

  /** The property names a `Repository` adds to those of the engine: the two
      fields its constructor sets and the methods of its class (in four groups,
      in the order of src/Repository.js). */
  const RepositoryFields: set<string> := {"__repoPath", "__currentTree"}
  const RepositoryMethods1: set<string> :=
    {"_updateTree", "getRef", "createRef", "deleteRef", "deleteRepo", "listTags", "listPulls",
     "getPull", "compare", "listBranches", "getBlob", "getCommit", "getSha", "getStatuses"}
  const RepositoryMethods2: set<string> :=
    {"getTree", "postBlob", "updateTree", "postTree", "commit", "updateHead", "show",
     "contributors", "collaborators", "isCollaborator", "contents", "fork", "listForks"}
  const RepositoryMethods3: set<string> :=
    {"branch", "createPullRequest", "listHooks", "getHook", "createHook", "editHook",
     "deleteHook", "read", "remove", "move", "write", "getCommits", "isStarred", "star",
     "unstar", "createRelease", "editRelease", "getRelease", "deleteRelease"}
  const RepositoryMembers: set<string> :=
    RepositoryFields + RepositoryMethods1 + RepositoryMethods2 + RepositoryMethods3

  /** A repository has no member named `_getURL`. */
  lemma RepositoryLacksGetURL()
    ensures "_getURL" !in RepositoryMembers
  {
    assert "_getURL" !in RepositoryFields;
    assert "_getURL" !in RepositoryMethods1;
    assert "_getURL" !in RepositoryMethods2;
    assert "_getURL" !in RepositoryMethods3;
  }

  class Repository {
    const engine: Engine
    const enc: Encoders
    const repoPath: string
    var treeBranch: JsValue
    var treeSha: JsValue

    function Cache(): TreeCache
      reads this
    {
      TreeCache(treeBranch, treeSha)
    }

    constructor(auth: AuthArgument, apiBase: string, options: map<string, JsValue>, enc: Encoders)
      ensures engine.apiBase == (if apiBase == "" then DefaultApiBase else apiBase)
      ensures engine.authorizationHeader == AuthorizationFor(AuthOf(auth), enc)
      ensures this.enc == enc
      ensures repoPath == RepoPath(options, enc)
      ensures Cache() == TreeCache(Null, Null)
    {
      engine := new Engine(auth, apiBase, enc);
      this.enc := enc;
      repoPath := RepoPath(options, enc);
      treeBranch, treeSha := Null, Null;
    }

    /** `getRef(ref)` */
    function GetRefCall(ref: string): (c: Call)
      ensures c.verb == "GET" && c.data == Undefined && c.path == repoPath + "/git/refs/" + ref
    {
      Call("GET", repoPath + "/git/refs/" + ref, Undefined, Undefined)
    }

    /** `_updateTree(branch, cb)`: a cache hit answers at once; a miss looks the
        branch head up and stores what came back, error or not. `answer` gives the
        outcome of a lookup. */
    method UpdateTree(branch: string, answer: Call -> RefAnswer)
      returns (lookup: Option<Call>, err: JsValue, sha: JsValue)
      modifies this
      ensures var u := UpdateTreeStep(old(Cache()), branch, answer(GetRefCall("heads/" + branch)));
              && Cache() == u.cache && err == u.err && sha == u.sha
              && (u.lookedUp.Some? <==> lookup.Some?)
              && (lookup.Some? ==> lookup.value == GetRefCall(u.lookedUp.value))
    {
      if treeBranch == Str(branch) && Truthy(treeSha) {
        return None, Null, treeSha;
      }
      var call := GetRefCall("heads/" + branch);
      var a := answer(call);
      treeBranch := Str(branch);
      treeSha := a.sha;
      lookup, err, sha := Some(call), a.err, a.sha;
    }

    /** The callback of the commit request in `commit`. */
    method CommitSettled(result: CallbackCall)
      modifies this
      ensures Cache() == CommitStep(old(Cache()), result)
    {
      match result {
        case ErrorArgs(_) =>
        case SuccessArgs(res, _) =>
          treeSha := CommitSha(res);
      }
    }

    /** `getSha(branch, path)`: an empty or absent path asks for the branch head;
        any other path asks for the contents entry, on the branch when one is
        given. */
    function GetShaLookup(branch: JsValue, path: JsValue): (r: ShaLookup)
      ensures !Truthy(path) <==> r.ViaRef?
      ensures r.ViaRef? ==> r.ref == "heads/" + ToStr(branch, enc)
      ensures r.ViaContents? ==>
                r.url == repoPath + "/contents/" + ToStr(path, enc)
                         + (if Truthy(branch) then "?ref=" + ToStr(branch, enc) else "")
    {
      if !Truthy(path) || path == Str("") then ViaRef("heads/" + ToStr(branch, enc))
      else ViaContents(repoPath + "/contents/" + ToStr(path, enc)
                       + (if Truthy(branch) then "?ref=" + ToStr(branch, enc) else ""))
    }

    function ShaLookupCall(l: ShaLookup): Call {
      match l
      case ViaRef(ref) => GetRefCall(ref)
      case ViaContents(url) => Call("GET", url, Null, Undefined)
    }

    /** `postBlob(content, cb)`: `None` when it throws before any request. */
    function PostBlobCall(content: BlobContent): (r: Option<Call>)
      ensures r.None? <==> content.OtherContent?
      ensures r.Some? ==> r.value == Call("POST", repoPath + "/git/blobs", Obj(BlobPayload(content, enc).value), Undefined)
    {
      match BlobPayload(content, enc)
      case None => None
      case Some(p) => Some(Call("POST", repoPath + "/git/blobs", Obj(p), Undefined))
    }

    /** `updateTree(baseTree, path, blob, cb)`: one blob entry on top of the base tree. */
    function UpdateTreeCall(baseTree: JsValue, path: JsValue, blob: JsValue): (c: Call)
      ensures c.verb == "POST" && c.path == repoPath + "/git/trees"
      ensures c.data.Obj? && c.data.props.Keys == {"base_tree", "tree"} && c.data.props["base_tree"] == baseTree
      ensures c.data.props["tree"] == Arr([Obj(map["path" := path, "mode" := Str(FileMode),
                                                   "type" := Str("blob"), "sha" := blob])])
    {
      Call("POST", repoPath + "/git/trees",
           Obj(map["base_tree" := baseTree,
                   "tree" := Arr([Obj(map["path" := path, "mode" := Str(FileMode),
                                          "type" := Str("blob"), "sha" := blob])])]),
           Undefined)
    }

    /** `postTree(tree, cb)` */
    function PostTreeCall(tree: seq<map<string, JsValue>>): Call {
      Call("POST", repoPath + "/git/trees",
           Obj(map["tree" := Arr(seq(|tree|, i requires 0 <= i < |tree| => Obj(tree[i])))]), Undefined)
    }

    /** `createRef(options, cb)` */
    function CreateRefCall(options: JsValue): Call {
      Call("POST", repoPath + "/git/refs", options, Undefined)
    }

    /** What `branch` does once the old branch's head came back. */
    function BranchStep(b: BranchArgs, err: JsValue, sha: JsValue): (r: Option<Call>)
      ensures r.None? <==> Truthy(err) && Truthy(b.cb)
      ensures r.Some? ==> r.value == CreateRefCall(Obj(map["ref" := Str(HeadsPrefix + ToStr(b.newBranch, enc)),
                                                          "sha" := sha]))
    {
      if Truthy(err) && Truthy(b.cb) then None
      else Some(CreateRefCall(Obj(map["ref" := Str(HeadsPrefix + ToStr(b.newBranch, enc)), "sha" := sha])))
    }

    /** `branch(newBranch, cb)` branches off `master`. */
    lemma BranchDefaultsToMaster(newBranch: JsValue, cb: nat, sha: JsValue)
      ensures var b := BranchArguments([newBranch, Func(cb)]);
              && GetRefCall("heads/" + ToStr(b.oldBranch, enc)).path == repoPath + "/git/refs/heads/master"
              && BranchStep(b, Null, sha)
                 == Some(CreateRefCall(Obj(map["ref" := Str(HeadsPrefix + ToStr(newBranch, enc)), "sha" := sha])))
    {
    }

    /** The body `write` sends once `getSha` answered `(err, sha)`; `None` when
        reading `options.encode` throws because the options are `undefined` or
        `null`. */
    function WriteBody(branch: JsValue, content: string, message: JsValue, options: JsValue,
                       err: JsValue, sha: JsValue): (r: Option<map<string, JsValue>>)
      ensures r.None? <==> options.Undefined? || options.Null?
      ensures r.Some? ==>
                && r.value.Keys == {"message", "content", "branch", "committer", "author"}
                                   + (if SendsSha(err) then {"sha"} else {})
                && r.value["content"] == (if !Prop(options, "encode").Undefined? && !Truthy(Prop(options, "encode"))
                                          then Str(content) else Str(enc.b64encode(content)))
                && ("sha" in r.value <==> SendsSha(err))
                && ("sha" in r.value ==> r.value["sha"] == sha)
                && r.value["message"] == message && r.value["branch"] == branch
                && r.value["committer"] == (if Truthy(Prop(options, "committer")) then Prop(options, "committer") else Undefined)
                && r.value["author"] == (if Truthy(Prop(options, "author")) then Prop(options, "author") else Undefined)
    {
      if options.Undefined? || options.Null? then None
      else
        var encode := Prop(options, "encode");
        var body := map[
          "message" := message,
          "content" := if encode.Undefined? || Truthy(encode) then Str(enc.b64encode(content)) else Str(content),
          "branch" := branch,
          "committer" := if Truthy(Prop(options, "committer")) then Prop(options, "committer") else Undefined,
          "author" := if Truthy(Prop(options, "author")) then Prop(options, "author") else Undefined];
        Some(if SendsSha(err) then body["sha" := sha] else body)
    }

    /** `write(...)`: the sha lookup it starts with, and the `PUT` it makes when the
        lookup answered `(err, sha)` (none when the options make it throw). */
    function WriteCalls(branch: JsValue, path: string, content: string, message: JsValue,
                        options: JsValue, cb: JsValue, err: JsValue, sha: JsValue): (ShaLookup, Option<Call>)
    {
      var args := WriteArguments(options, cb);
      var lookup := GetShaLookup(branch, Str(enc.uri(path)));
      match WriteBody(branch, content, message, args.options, err, sha)
      case None => (lookup, None)
      case Some(body) => (lookup, Some(Call("PUT", repoPath + "/contents/" + enc.uri(path), Obj(body), Undefined)))
    }

    /** With a callback in the options slot, `write` encodes the content in base64
        and puts it at the encoded path. */
    lemma WriteWithCallbackEncodes(branch: JsValue, path: string, content: string, message: JsValue,
                                   cb: nat, err: JsValue, sha: JsValue)
      ensures var (_, put) := WriteCalls(branch, path, content, message, Func(cb), Undefined, err, sha);
              && put.Some? && put.value.verb == "PUT" && put.value.path == repoPath + "/contents/" + enc.uri(path)
              && put.value.data.Obj? && put.value.data.props["content"] == Str(enc.b64encode(content))
    {
    }

    /** `getBlob(sha, cb)`: the raw media type. */
    function GetBlobCall(sha: JsValue): Call {
      Call("GET", repoPath + "/git/blobs/" + ToStr(sha, enc), Null, Str("raw"))
    }

    /** `read(branch, path, cb)`: the raw contents of a file, on a branch when given. */
    function ReadCall(branch: JsValue, path: string): Call {
      Call("GET", repoPath + "/contents/" + enc.uri(path) + (if Truthy(branch) then "?ref=" + ToStr(branch, enc) else ""),
           Null, Bool(true))
    }

    /** `contents(ref, path, cb)`: the ref travels in `{ref}`. */
    function ContentsCall(ref: JsValue, path: string): Call {
      var p := enc.uri(path);
      Call("GET", repoPath + "/contents" + (if p != "" then "/" + p else ""), Obj(map["ref" := ref]), Undefined)
    }

    /** `listPulls(options, cb)` */
    function ListPullsCall(options: JsValue): Call {
      Call("GET", repoPath + "/pulls", Or(options, Obj(map[])), Undefined)
    }

    /** `updateHead(head, commit, cb)` */
    function UpdateHeadCall(head: JsValue, commit: JsValue): Call {
      Call("PATCH", repoPath + "/git/refs/heads/" + ToStr(head, enc), Obj(map["sha" := commit]), Undefined)
    }

    /** Blob and file reads ask for the raw media type and a text response. */
    lemma RawReads(sha: JsValue, branch: JsValue, path: string, now: nat)
      ensures var c := ConfigOf(engine, GetBlobCall(sha), now);
              c.headers["Accept"] == RawAccept && c.responseType == "text"
      ensures var c := ConfigOf(engine, ReadCall(branch, path), now);
              c.headers["Accept"] == RawAccept && c.responseType == "text"
    {
    }

    /** The `{ref}` of `contents` and the options of `listPulls` become query
        parameters; the bodies of `postBlob` and `updateHead` are sent as bodies. */
    lemma PayloadPlacement(ref: JsValue, path: string, options: JsValue, content: BlobContent,
                           head: JsValue, commit: JsValue, now: nat)
      ensures var c := ConfigOf(engine, ContentsCall(ref, path), now);
              c.params == Obj(map["ref" := ref]) && c.data == Undefined
      ensures var c := ConfigOf(engine, ListPullsCall(options), now);
              Truthy(options) && IsObjectTyped(options) ==> c.params == options && c.data == Undefined
      ensures content.OtherContent? || ConfigOf(engine, PostBlobCall(content).value, now).data
                                        == Obj(BlobPayload(content, enc).value)
      ensures ConfigOf(engine, UpdateHeadCall(head, commit), now).data == Obj(map["sha" := commit])
      ensures ConfigOf(engine, UpdateHeadCall(head, commit), now).params == Obj(map[])
    {
      var contents, pulls, head := ContentsCall(ref, path), ListPullsCall(options), UpdateHeadCall(head, commit);
      PayloadRouting(engine, contents.verb, contents.path, contents.data, contents.raw, now);
      PayloadRouting(engine, pulls.verb, pulls.path, pulls.data, pulls.raw, now);
      PayloadRouting(engine, head.verb, head.path, head.data, head.raw, now);
      if !content.OtherContent? {
        var blob := PostBlobCall(content).value;
        PayloadRouting(engine, blob.verb, blob.path, blob.data, blob.raw, now);
      }
    }

    /** As written, every request a repository makes throws a `TypeError` before
        it is sent: neither the engine nor the repository has a `_getURL`. */
    lemma RequestsAsWrittenThrow(c: Call, hasCb: bool, now: nat, transport: Config -> Outcome)
      ensures engine.RequestAsWritten(RepositoryMembers, c.verb, c.path, c.data, hasCb, c.raw, now, transport)
              == ThrewBeforeSending(ThrownTypeError)
    {
      RepositoryLacksGetURL();
      RequestAsWrittenThrows(engine, RepositoryMembers, c.verb, c.path, c.data, hasCb, c.raw, now, transport);
    }

    /** `getCommits(options, cb)`: the query parameters pushed by the chain of ifs,
        joined after a `?` when there is one. */
    method CommitsPath(options: JsValue) returns (url: string)
      ensures url == repoPath + "/commits" + QueryString(ParamsUpTo(Or(options, Obj(map[])), CommitParamRules, 7, enc))
    {
      var o := Or(options, Obj(map[]));
      url := repoPath + "/commits";
      var params: seq<string> := [];
      ghost var rules := CommitParamRules;
      if Truthy(OptionOf(o, "sha")) {
        params := params + ["sha=" + enc.uriComponent(ToStr(OptionOf(o, "sha"), enc))];
      }
      assert rules[0] == ParamRule("sha", "sha=", Escaped);
      ghost var p1 := params;
      assert p1 == ParamsUpTo(o, rules, 1, enc);
      if Truthy(OptionOf(o, "path")) {
        params := params + ["path=" + enc.uriComponent(ToStr(OptionOf(o, "path"), enc))];
      }
      assert rules[1] == ParamRule("path", "path=", Escaped);
      ghost var p2 := params;
      assert p2 == ParamsUpTo(o, rules, 2, enc);
      if Truthy(OptionOf(o, "author")) {
        params := params + ["author=" + enc.uriComponent(ToStr(OptionOf(o, "author"), enc))];
      }
      assert rules[2] == ParamRule("author", "author=", Escaped);
      ghost var p3 := params;
      assert p3 == ParamsUpTo(o, rules, 3, enc);
      if Truthy(OptionOf(o, "since")) {
        var since := OptionOf(o, "since");
        var s := if since.Date? then enc.isoString(since.time) else ToStr(since, enc);
        params := params + ["since=" + enc.uriComponent(s)];
      }
      assert rules[3] == ParamRule("since", "since=", EscapedDate);
      ghost var p4 := params;
      assert p4 == ParamsUpTo(o, rules, 4, enc);
      if Truthy(OptionOf(o, "until")) {
        var until := OptionOf(o, "until");
        var s := if until.Date? then enc.isoString(until.time) else ToStr(until, enc);
        params := params + ["until=" + enc.uriComponent(s)];
      }
      assert rules[4] == ParamRule("until", "until=", EscapedDate);
      ghost var p5 := params;
      assert p5 == ParamsUpTo(o, rules, 5, enc);
      if Truthy(OptionOf(o, "page")) {
        params := params + ["page=" + ToStr(OptionOf(o, "page"), enc)];
      }
      assert rules[5] == ParamRule("page", "page=", Verbatim);
      ghost var p6 := params;
      assert p6 == ParamsUpTo(o, rules, 6, enc);
      if Truthy(OptionOf(o, "perpage")) {
        params := params + ["per_page=" + ToStr(OptionOf(o, "perpage"), enc)];
      }
      assert rules[6] == ParamRule("perpage", "per_page=", Verbatim);
      assert params == ParamsUpTo(o, rules, 7, enc);
      if |params| > 0 {
        url := url + ("?" + Join(params, "&"));
      } else {
        assert url + QueryString(params) == url;
      }
    }
  }

  /** `move`'s `tree.forEach(...)`: every entry of the tree array is rewritten in
      place; the array keeps its length and order. */
  method RewriteTree(tree: array<map<string, JsValue>>, path: JsValue, newPath: JsValue)
    modifies tree
    ensures forall i :: 0 <= i < tree.Length ==> tree[i] == RewriteEntry(old(tree[i]), path, newPath)
  {
    var i := 0;
    while i < tree.Length
      invariant 0 <= i <= tree.Length
      invariant forall j :: 0 <= j < i ==> tree[j] == RewriteEntry(old(tree[j]), path, newPath)
      invariant forall j :: i <= j < tree.Length ==> tree[j] == old(tree[j])
    {
      var entry := tree[i];
      if Get(entry, "path") == path {
        entry := entry["path" := newPath];
      }
      if Get(entry, "type") == Str("tree") {
        entry := entry - {"sha"};
      }
      tree[i] := entry;
      i := i + 1;
    }
  }
}
