/**
 * The web request handler: routes each request, serves files with a weak
 * validator, answers the manifest, workbench and remote-resource
 * endpoints, and keeps the table of pending URL callbacks that the
 * browser registers on `/callback` and collects on `/fetch-callback`.
 *
 * What the handler asks of the outside world is a parameter (`Effects`):
 * URI decoding, query parsing, `fs.stat`, the MIME lookups and whether a
 * resource can be read. Timers are events: a callback's timer firing is
 * the method `Expire`.
 */
module WebServer {
  import opened Wrappers
  import opened Strings
  import opened Requests
  import Environment

  const PlainTextMime := "text/plain"
  const CorsHeader := "Access-Control-Allow-Origin"
  /** The scheme of a callback URI that names none. */
  const DefaultCallbackScheme := "code-oss"
  /** What the decoder throws on a malformed escape. */
  const UriMalformed := "URIError: URI malformed"
  const InternalErrorMessage := "Internal Server Error."

  /** The query names the polling callback provider uses, in the order they are read. */
  const WellKnownKeys: seq<string> :=
    ["vscode-requestId", "vscode-scheme", "vscode-authority", "vscode-path", "vscode-query", "vscode-fragment"]

  /** A file the server may send: the decoded path after `/static/`, joined to the application root, or the favicon. */
  datatype FilePath = AppFile(relative: string) | FaviconFile

  /** What `fs.stat` reports that the validator uses; `mtimeMs` may be negative (before 1970). */
  datatype FileStat = FileStat(ino: nat, size: nat, mtimeMs: int)

  /** The URI a callback carries back to the browser. */
  datatype UriComponents = UriComponents(
    scheme: string,
    authority: Option<string>,
    path: Option<string>,
    query: SearchParams,
    fragment: Option<string>)

  datatype WebManifest = WebManifest(
    name: string,
    shortName: string,
    startUrl: string,
    display: string,
    backgroundColor: string,
    description: string,
    icons: seq<Environment.Icon>)

  /** What a response carries; templates and file contents are named, not held. */
  datatype Body =
    | Empty
    | Text(text: string)
    | FileStream(path: FilePath)
    | ManifestJson(manifest: WebManifest)
    | WorkbenchPage(production: bool, configuration: Environment.WorkbenchWebConfiguration, pathPrefix: string)
    | CallbackPage
    | CallbackJson(uri: Option<UriComponents>)
    | ResourceFile(resourcePath: string)

  datatype Response = Response(status: nat, headers: map<string, string>, body: Body)

  /** How an endpoint's handler ends: it answers, it never ends the response, or it throws (an async one: its promise rejects). */
  datatype HandlerResult = Done(response: Response) | Hung | Threw(error: string)

  /** What the client gets. */
  datatype Outcome = Sent(response: Response) | NoResponse

  datatype Effects = Effects(
    /** `decodeURIComponent`; None when it throws. */
    decode: string -> Option<string>,
    /** `new URLSearchParams(text)`. */
    parseQuery: string -> SearchParams,
    /** `fs.stat`; None when it fails. */
    stat: FilePath -> Option<FileStat>,
    /** `getTextMime(p) || getMediaMime(p)` for a file the server sends. */
    fileMime: FilePath -> Option<string>,
    /** `getMediaMime(p)` for a remote resource. */
    mediaMime: string -> Option<string>,
    /** `fs.readFile(p)` resolves. */
    canRead: string -> bool)

  // ---------------------------------------------------------------------
  // Routing

  datatype Endpoint = Favicon | Manifest | Static | Root | Callback | FetchCallback | RemoteResource | NotFound

  /**
   * The endpoint for a path. The favicon and manifest tests are unanchored
   * (`/(\/static)?\/favicon\.ico/`), so they hold for any path containing
   * `/favicon.ico` or `/manifest.json`; the static test is anchored; the
   * rest are exact.
   */
  function Route(pathname: string): (e: Endpoint)
    ensures e == Favicon <==> Contains(pathname, "/favicon.ico")
    ensures e == Manifest <==> !Contains(pathname, "/favicon.ico") && Contains(pathname, "/manifest.json")
    ensures e == Static <==> !Contains(pathname, "/favicon.ico") && !Contains(pathname, "/manifest.json") && HasPrefix(pathname, "/static/")
    ensures e == Root <==> pathname == "/"
    ensures e == Callback <==> pathname == "/callback"
    ensures e == FetchCallback <==> pathname == "/fetch-callback"
    ensures e == RemoteResource <==> pathname == "/vscode-remote-resource"
    ensures e == NotFound <==>
      && !Contains(pathname, "/favicon.ico") && !Contains(pathname, "/manifest.json") && !HasPrefix(pathname, "/static/")
      && pathname !in ["/", "/callback", "/fetch-callback", "/vscode-remote-resource"]
  {
    ExactPathsArePlain(pathname);
    if Contains(pathname, "/favicon.ico") then Favicon
    else if Contains(pathname, "/manifest.json") then Manifest
    else if HasPrefix(pathname, "/static/") then Static
    else if pathname == "/" then Root
    else if pathname == "/callback" then Callback
    else if pathname == "/fetch-callback" then FetchCallback
    else if pathname == "/vscode-remote-resource" then RemoteResource
    else NotFound
  }

  /** A text lacking one of the pattern's characters does not contain the pattern. */
  lemma {:induction false} AbsentCharNotContained(s: string, pat: string, c: char)
    requires c in pat && c !in s
    ensures !Contains(s, pat)
    decreases |s|
  {
    var k :| 0 <= k < |pat| && pat[k] == c;
    if |pat| <= |s| {
      assert s[k] in s;
      assert s[..|pat|][k] != pat[k];
    }
    if |s| > 0 {
      assert forall j :: 0 <= j < |s[1..]| ==> s[1..][j] == s[j + 1];
      AbsentCharNotContained(s[1..], pat, c);
    }
  }

  /** The path is neither the favicon, nor the manifest, nor under `/static/`. */
  predicate PassesNoPattern(p: string) {
    !Contains(p, "/favicon.ico") && !Contains(p, "/manifest.json") && !HasPrefix(p, "/static/")
  }

  /** A path without a `.` whose second character is not `s` passes none of the pattern tests. */
  lemma PlainPathPassesNoPattern(p: string)
    requires '.' !in p
    requires |p| < 2 || p[1] != 's'
    ensures PassesNoPattern(p)
  {
    assert "/favicon.ico"[8] == '.' && "/manifest.json"[9] == '.' && "/static/"[1] == 's';
    AbsentCharNotContained(p, "/favicon.ico", '.');
    AbsentCharNotContained(p, "/manifest.json", '.');
  }

  /** The four exact paths pass none of the pattern tests. */
  lemma ExactPathsArePlain(p: string)
    ensures p in ["/", "/callback", "/fetch-callback", "/vscode-remote-resource"] ==> PassesNoPattern(p)
  {
    if p in ["/", "/callback", "/fetch-callback", "/vscode-remote-resource"] {
      PlainPathPassesNoPattern(p);
    }
  }

  /** Any path with `/favicon.ico` in it is the favicon, wherever it sits. */
  lemma FaviconAnywhere(prefix: string, suffix: string)
    ensures Route(prefix + "/favicon.ico" + suffix) == Favicon
  {
    var s := prefix + "/favicon.ico" + suffix;
    assert OccursAt(s, "/favicon.ico", |prefix|) by {
      assert s[|prefix|..|prefix| + |"/favicon.ico"|] == "/favicon.ico";
    }
    ContainsIff(s, "/favicon.ico");
  }

  /** A path under `/static/` with neither special name is a static file. */
  lemma StaticPathsAreStatic(rest: string)
    requires !Contains("/static/" + rest, "/favicon.ico") && !Contains("/static/" + rest, "/manifest.json")
    ensures Route("/static/" + rest) == Static
  {
    assert ("/static/" + rest)[..|"/static/"|] == "/static/";
  }

  /** The handlers of `/fetch-callback` and of unknown paths are the only ones not declared async. */
  predicate IsAsyncEndpoint(e: Endpoint) {
    e != FetchCallback && e != NotFound
  }

  // ---------------------------------------------------------------------
  // Error responses and files

  /** `serveError`: the status, a plain-text type, and the message as the body. */
  function ServeError(status: nat, message: string): (r: Response)
    ensures r.status == status && r.body == Text(message)
    ensures r.headers == map["Content-Type" := PlainTextMime]
  {
    Response(status, map["Content-Type" := PlainTextMime], Text(message))
  }

  /** The weak validator `W/"ino-size-mtime"`. */
  function ETag(stat: FileStat): string {
    "W/\"" + NatToString(stat.ino) + "-" + NatToString(stat.size) + "-" + IntToString(stat.mtimeMs) + "\""
  }

  /** The validator's parts, grouped from the right. */
  lemma ETagParts(stat: FileStat)
    ensures ETag(stat) == "W/\"" + (NatToString(stat.ino) + ['-'] + (NatToString(stat.size) + ['-'] + (IntToString(stat.mtimeMs) + ['"'])))
  {
  }

  lemma DropCommonPrefix(p: string, x: string, y: string)
    requires p + x == p + y
    ensures x == y
  {
    assert x == (p + x)[|p|..];
    assert y == (p + y)[|p|..];
  }

  lemma DropCommonSuffix(x: string, y: string, c: char)
    requires x + [c] == y + [c]
    ensures x == y
  {
    assert x == (x + [c])[..|x|];
    assert y == (y + [c])[..|y|];
  }

  /** Decimal fields joined by '-' split back into the same fields. */
  lemma SplitDecimalField(m: nat, n: nat, x: string, y: string)
    requires NatToString(m) + ['-'] + x == NatToString(n) + ['-'] + y
    ensures m == n && x == y
  {
    NatToStringNoMinus(m);
    NatToStringNoMinus(n);
    SplitAtSeparator(NatToString(m), x, NatToString(n), y, '-');
    NatToStringInjective(m, n);
  }

  /** The validator changes whenever the inode, the size or the modification time does. */
  lemma ETagInjective(a: FileStat, b: FileStat)
    requires ETag(a) == ETag(b)
    ensures a == b
  {
    ETagParts(a);
    ETagParts(b);
    var mA := IntToString(a.mtimeMs) + ['"'];
    var mB := IntToString(b.mtimeMs) + ['"'];
    var sizeA := NatToString(a.size) + ['-'] + mA;
    var sizeB := NatToString(b.size) + ['-'] + mB;
    DropCommonPrefix("W/\"", NatToString(a.ino) + ['-'] + sizeA, NatToString(b.ino) + ['-'] + sizeB);
    SplitDecimalField(a.ino, b.ino, sizeA, sizeB);
    SplitDecimalField(a.size, b.size, mA, mB);
    DropCommonSuffix(IntToString(a.mtimeMs), IntToString(b.mtimeMs), '"');
    IntToStringInjective(a.mtimeMs, b.mtimeMs);
  }

  /**
   * `serveFile`: 404 with a plain-text "Not found" when the file cannot be
   * stat-ed; 304 with no headers when the client's `If-None-Match` is the
   * file's validator; otherwise 200 with the type and the validator, and
   * the file as the body.
   */
  function ServeFile(path: FilePath, ifNoneMatch: Option<string>, effects: Effects): (r: Response)
    ensures effects.stat(path).None? ==> r == Response(404, map["Content-Type" := PlainTextMime], Text("Not found"))
    ensures effects.stat(path).Some? ==>
      var tag := ETag(effects.stat(path).value);
      if ifNoneMatch == Some(tag) then r == Response(304, map[], Empty)
      else r.status == 200 && r.body == FileStream(path) && "Etag" in r.headers && r.headers["Etag"] == tag &&
           "Content-Type" in r.headers && r.headers["Content-Type"] == effects.fileMime(path).GetOr(PlainTextMime)
  {
    match effects.stat(path)
    case None => Response(404, map["Content-Type" := PlainTextMime], Text("Not found"))
    case Some(stat) =>
      var tag := ETag(stat);
      if ifNoneMatch == Some(tag) then Response(304, map[], Empty)
      else Response(200, map["Content-Type" := effects.fileMime(path).GetOr(PlainTextMime), "Etag" := tag], FileStream(path))
  }

  /** A client that sends back the validator of a 200 gets 304 while the file is unchanged. */
  lemma RevalidateUnchanged(path: FilePath, first: Option<string>, effects: Effects)
    requires ServeFile(path, first, effects).status == 200
    ensures var tag := ServeFile(path, first, effects).headers["Etag"];
      ServeFile(path, Some(tag), effects) == Response(304, map[], Empty)
  {
  }

  /** Once the file has changed, the old validator no longer matches and the file is sent again. */
  lemma RevalidateChanged(path: FilePath, tag: string, before: Effects, after: Effects)
    requires before.stat(path).Some? && after.stat(path).Some?
    requires before.stat(path).value != after.stat(path).value
    requires tag == ETag(before.stat(path).value)
    ensures ServeFile(path, Some(tag), after).status == 200
  {
    if ETag(after.stat(path).value) == tag {
      ETagInjective(after.stat(path).value, before.stat(path).value);
    }
  }

  /** `$static`: the URI-decoded path after `/static/`, to be joined to the application root; malformed escapes throw. */
  function StaticFile(pathname: string, effects: Effects): (r: Result<FilePath, string>)
    requires HasPrefix(pathname, "/static/")
    ensures r.Failure? <==> effects.decode(pathname[|"/static/"|..]).None?
    ensures r.Failure? ==> r.error == UriMalformed
    ensures r.Success? ==> r.value == AppFile(effects.decode(pathname[|"/static/"|..]).value)
  {
    match effects.decode(pathname[|"/static/"|..])
    case None => Failure(UriMalformed)
    case Some(relative) => Success(AppFile(relative))
  }

  // ---------------------------------------------------------------------
  // The manifest, the workbench, remote resources

  /** `$manifest`: the product's names, the base path as start URL, and no icons; throws when the configuration does. */
  function ManifestResponse(service: Environment.EnvironmentServer, staticConfiguration: Environment.StaticConfiguration,
                            req: ParsedRequest): (r: HandlerResult)
    ensures r.Threw? <==> !Environment.Configurable(service, req)
    ensures r.Threw? ==> r.error == Environment.CreateWorkbenchWebConfiguration(service, staticConfiguration, req).error
    ensures !r.Hung?
    ensures r.Done? ==>
      r.response.status == 200 &&
      r.response.headers == map["Content-Type" := "application/manifest+json"] &&
      r.response.body == ManifestJson(WebManifest(service.product.nameLong, service.product.nameShort, req.pathPrefix,
                                                  "fullscreen", "#fff", "Run editors on a remote server.", []))
  {
    match Environment.CreateWorkbenchWebConfiguration(service, staticConfiguration, req)
    case Failure(e) => Threw(e)
    case Success(config) =>
      var product := config.productConfiguration.product;
      Done(Response(200, map["Content-Type" := "application/manifest+json"],
                    ManifestJson(WebManifest(product.nameLong, product.nameShort, req.pathPrefix,
                                             "fullscreen", "#fff", "Run editors on a remote server.", []))))
  }

  /** `$root`: the production or development workbench page with the request's configuration; throws when the configuration does. */
  function RootResponse(service: Environment.EnvironmentServer, staticConfiguration: Environment.StaticConfiguration,
                        req: ParsedRequest): (r: HandlerResult)
    ensures r.Threw? <==> !Environment.Configurable(service, req)
    ensures r.Threw? ==> r.error == Environment.CreateWorkbenchWebConfiguration(service, staticConfiguration, req).error
    ensures !r.Hung?
    ensures r.Done? ==>
      r.response.status == 200 &&
      r.response.headers == map["Content-Type" := "text/html",
                                "Content-Security-Policy" := "require-trusted-types-for 'script';"] &&
      r.response.body.WorkbenchPage? &&
      r.response.body.production == Environment.IsBuilt(service) &&
      r.response.body.pathPrefix == req.pathPrefix &&
      r.response.body.configuration.remoteAuthority == req.hostHeader.value
    ensures r.Done? ==>
      Environment.CreateWorkbenchWebConfiguration(service, staticConfiguration, req).Success? &&
      r.response.body.configuration == Environment.CreateWorkbenchWebConfiguration(service, staticConfiguration, req).value
  {
    match Environment.CreateWorkbenchWebConfiguration(service, staticConfiguration, req)
    case Failure(e) => Threw(e)
    case Success(config) =>
      Done(Response(200, map["Content-Type" := "text/html",
                             "Content-Security-Policy" := "require-trusted-types-for 'script';"],
                    WorkbenchPage(Environment.IsBuilt(service), config, req.pathPrefix)))
  }

  /** The workbench page opens the request's first `folder` parameter on the requested host. */
  lemma RootPageOpensFolderParameter(service: Environment.EnvironmentServer,
                                     staticConfiguration: Environment.StaticConfiguration, req: ParsedRequest)
    requires req.hostHeader.Some? && req.hostHeader.value != ""
    requires GetAll(req.searchParams, "folder") != []
    requires Environment.ValidWorkspacePaths(GetAll(req.searchParams, "folder"), req.hostHeader.value)
    ensures var r := RootResponse(service, staticConfiguration, req);
      r.Done? && r.response.body.configuration.workspace ==
        Some(Environment.Workspace(Environment.RemoteUri(Environment.RemoteScheme, req.hostHeader.value,
                                                         GetAll(req.searchParams, "folder")[0])))
  {
    Environment.FolderParameterWins(service, staticConfiguration, req);
  }

  /**
   * `$remoteResource`: with a `path` parameter, the file with its media
   * type (plain text when unknown), or a throw when it cannot be read;
   * without one the response is never ended.
   */
  function RemoteResourceResponse(req: ParsedRequest, effects: Effects): (r: HandlerResult)
    ensures r.Hung? <==> Get(req.searchParams, "path").None? || Get(req.searchParams, "path").value == ""
    ensures r.Threw? <==>
      Get(req.searchParams, "path").Some? && Get(req.searchParams, "path").value != "" &&
      !effects.canRead(Get(req.searchParams, "path").value)
    ensures r.Done? ==>
      var path := Get(req.searchParams, "path").value;
      effects.canRead(path) &&
      r.response == Response(200, map["Content-Type" := effects.mediaMime(path).GetOr(PlainTextMime)], ResourceFile(path))
  {
    match Get(req.searchParams, "path")
    case None => Hung
    case Some(path) =>
      if path == "" then Hung
      else if !effects.canRead(path) then Threw("ENOENT: " + path)
      else Done(Response(200, map["Content-Type" := effects.mediaMime(path).GetOr(PlainTextMime)], ResourceFile(path)))
  }

  // ---------------------------------------------------------------------
  // Callback requests

  /** One well-known parameter as `$callback` reads it: absent or empty is undefined, otherwise it is URI-decoded. */
  function DecodedParam(params: SearchParams, key: string, decode: string -> Option<string>): Result<Option<string>, string> {
    match Get(params, key)
    case None => Success(None)
    case Some(v) =>
      if v == "" then Success(None)
      else match decode(v)
        case None => Failure(UriMalformed)
        case Some(d) => Success(Some(d))
  }

  /** The keys decoded in order; the first malformed one throws, and then no later one is read. */
  function DecodeAll(params: SearchParams, keys: seq<string>, decode: string -> Option<string>): (r: Result<seq<Option<string>>, string>)
    ensures r.Success? ==> |r.value| == |keys|
    ensures r.Success? ==> forall j :: 0 <= j < |keys| ==> DecodedParam(params, keys[j], decode) == Success(r.value[j])
    ensures r.Failure? <==> exists j :: 0 <= j < |keys| && DecodedParam(params, keys[j], decode).Failure?
  {
    if keys == [] then Success([])
    else match DecodedParam(params, keys[0], decode)
      case Failure(e) => Failure(e)
      case Success(v) =>
        match DecodeAll(params, keys[1..], decode)
        case Failure(e) =>
          assert exists j :: 0 <= j < |keys[1..]| && DecodedParam(params, keys[1..][j], decode).Failure?;
          var j :| 0 <= j < |keys[1..]| && DecodedParam(params, keys[1..][j], decode).Failure?;
          assert keys[j + 1] == keys[1..][j];
          Failure(e)
        case Success(vs) =>
          assert forall j :: 1 <= j < |keys| ==> keys[j] == keys[1..][j - 1];
          Success([v] + vs)
  }

  /** The query pairs with every well-known key removed, the others kept in their order. */
  function CallbackQuery(query: SearchParams): (r: SearchParams)
    ensures |r| <= |query|
  {
    if query == [] then []
    else (if query[0].0 in WellKnownKeys then [] else [query[0]]) + CallbackQuery(query[1..])
  }

  /** The kept pairs are exactly the query's pairs with other keys. */
  lemma {:induction false} CallbackQueryMembers(query: SearchParams)
    ensures forall p :: p in CallbackQuery(query) <==> p in query && p.0 !in WellKnownKeys
    decreases |query|
  {
    if query != [] {
      CallbackQueryMembers(query[1..]);
      assert query == [query[0]] + query[1..];
    }
  }

  /**
   * The loop `for (const key in query.keys())` as written: `for...in`
   * walks the enumerable properties of the iterator object, never the
   * query's keys, so nothing is deleted.
   */
  function CallbackQueryAsWritten(query: SearchParams): SearchParams {
    query
  }

  lemma CallbackQueryStep(query: SearchParams, i: nat)
    requires i < |query|
    ensures CallbackQuery(query[i..]) == (if query[i].0 in WellKnownKeys then [] else [query[i]]) + CallbackQuery(query[i + 1..])
  {
    assert query[i..][1..] == query[i + 1..];
  }

  /** The deletion loop the comment describes: walk the pairs and drop each well-known one. */
  method RemoveWellKnownKeys(query: SearchParams) returns (r: SearchParams)
    ensures r == CallbackQuery(query)
  {
    r := [];
    var i := 0;
    while i < |query|
      invariant 0 <= i <= |query|
      invariant r + CallbackQuery(query[i..]) == CallbackQuery(query)
    {
      ghost var rest := CallbackQuery(query[i + 1..]);
      CallbackQueryStep(query, i);
      if query[i].0 !in WellKnownKeys {
        assert r + CallbackQuery(query[i..]) == (r + [query[i]]) + rest;
        r := r + [query[i]];
      }
      i := i + 1;
    }
    assert query[i..] == [];
  }

  /**
   * What `/callback` asks for: a throw when a well-known parameter is
   * malformed; nothing (answered 400) without a request id; otherwise the
   * request id and the URI to hand back, its scheme `code-oss` when none
   * is given and its query the parsed `vscode-query` with every pair kept:
   * the deletion loop is written as `for...in` over an iterator, which
   * visits only the iterator object's enumerable properties, own or
   * inherited, never the query's keys, and none of those is a well-known
   * key, so nothing is deleted.
   */
  function CallbackRequest(params: SearchParams, effects: Effects): (r: Result<Option<(string, UriComponents)>, string>)
    ensures r.Failure? <==> exists j :: 0 <= j < |WellKnownKeys| && DecodedParam(params, WellKnownKeys[j], effects.decode).Failure?
    ensures r.Success? && r.value.Some? ==>
      DecodedParam(params, "vscode-requestId", effects.decode) == Success(Some(r.value.value.0)) && r.value.value.0 != ""
    ensures r.Success? && r.value.None? ==>
      DecodedParam(params, "vscode-requestId", effects.decode) in {Success(None), Success(Some(""))}
    ensures r.Success? && r.value.Some? ==>
      var uri := r.value.value.1;
      var scheme := DecodedParam(params, "vscode-scheme", effects.decode);
      var query := DecodedParam(params, "vscode-query", effects.decode);
      uri.scheme != "" &&
      (scheme.Success? && scheme.value.Some? && scheme.value.value != "" ==> uri.scheme == scheme.value.value) &&
      query.Success? && uri.query == effects.parseQuery(query.value.GetOr("")) &&
      DecodedParam(params, "vscode-authority", effects.decode) == Success(uri.authority) &&
      DecodedParam(params, "vscode-path", effects.decode) == Success(uri.path) &&
      DecodedParam(params, "vscode-fragment", effects.decode) == Success(uri.fragment)
  {
    match DecodeAll(params, WellKnownKeys, effects.decode)
    case Failure(e) => Failure(e)
    case Success(vs) =>
      var requestId := vs[0];
      if requestId.None? || requestId.value == "" then Success(None)
      else
        var scheme := if vs[1].Some? && vs[1].value != "" then vs[1].value else DefaultCallbackScheme;
        var query := effects.parseQuery(vs[4].GetOr(""));
        Success(Some((requestId.value, UriComponents(scheme, vs[2], vs[3], CallbackQueryAsWritten(query), vs[5]))))
  }

  /**
   * As written, every pair of the decoded `vscode-query`, a well-known key
   * given again included, reaches the stored URI; the intended deletion
   * would have dropped it.
   */
  lemma CallbackQueryAsWrittenKeepsWellKnownKey(params: SearchParams, effects: Effects, text: string, key: string, value: string)
    requires CallbackRequest(params, effects).Success? && CallbackRequest(params, effects).value.Some?
    requires DecodedParam(params, "vscode-query", effects.decode) == Success(Some(text))
    requires (key, value) in effects.parseQuery(text) && key in WellKnownKeys
    ensures (key, value) in CallbackRequest(params, effects).value.value.1.query
    ensures (key, value) !in CallbackQuery(effects.parseQuery(text))
  {
    CallbackQueryMembers(effects.parseQuery(text));
  }

  /** A callback whose scheme is missing or empty gets `code-oss`. */
  lemma CallbackSchemeDefault(params: SearchParams, effects: Effects)
    requires CallbackRequest(params, effects).Success? && CallbackRequest(params, effects).value.Some?
    requires DecodedParam(params, "vscode-scheme", effects.decode) in {Success(None), Success(Some(""))}
    ensures CallbackRequest(params, effects).value.value.1.scheme == DefaultCallbackScheme
  {
    var r := DecodeAll(params, WellKnownKeys, effects.decode);
    assert WellKnownKeys[1] == "vscode-scheme";
    assert DecodedParam(params, WellKnownKeys[1], effects.decode) == Success(r.value[1]);
  }

  /** A parameter `$callback` cannot decode makes it throw even when the request id is missing: decoding comes first. */
  lemma CallbackDecodesBeforeChecking(params: SearchParams, effects: Effects)
    requires Get(params, "vscode-requestId").None?
    requires DecodedParam(params, "vscode-path", effects.decode).Failure?
    ensures CallbackRequest(params, effects).Failure?
  {
    assert WellKnownKeys[3] == "vscode-path";
  }

  // ---------------------------------------------------------------------
  // Settling a request

  /** The failure response any caught error gets. */
  function InternalError(): (r: Response)
    ensures r.status == 500 && r.body == Text(InternalErrorMessage)
  {
    ServeError(500, InternalErrorMessage)
  }

  /** Every response also allows any origin: the header set before the handler runs. */
  function WithCors(r: Response): (c: Response)
    ensures c.status == r.status && c.body == r.body
    ensures CorsHeader in c.headers
    ensures CorsHeader !in r.headers ==> c.headers[CorsHeader] == "*"
    ensures forall h :: h in r.headers ==> h in c.headers && c.headers[h] == r.headers[h]
  {
    r.(headers := map[CorsHeader := "*"] + r.headers)
  }

  /**
   * The listener as written: inside its `try` each handler is returned,
   * not awaited, so only a synchronous throw reaches `catch` and gets 500;
   * an async handler's rejection escapes and the client gets nothing.
   */
  function Settle(e: Endpoint, result: HandlerResult): Outcome
  {
    match result
    case Done(r) => Sent(WithCors(r))
    case Hung => NoResponse
    case Threw(_) => if IsAsyncEndpoint(e) then NoResponse else Sent(WithCors(InternalError()))
  }

  /** The listener with each handler awaited: every throw is caught and answered 500. */
  function SettleAwaited(result: HandlerResult): Outcome
  {
    match result
    case Done(r) => Sent(WithCors(r))
    case Hung => NoResponse
    case Threw(_) => Sent(WithCors(InternalError()))
  }

  /** A request for the workbench without a host header gets no answer as written, and 500 once handlers are awaited. */
  lemma MissingHostUnanswered(service: Environment.EnvironmentServer, staticConfiguration: Environment.StaticConfiguration,
                              req: ParsedRequest)
    requires req.pathname == "/" && req.hostHeader.None?
    ensures Route(req.pathname) == Root
    ensures Settle(Route(req.pathname), RootResponse(service, staticConfiguration, req)) == NoResponse
    ensures SettleAwaited(RootResponse(service, staticConfiguration, req)).response.status == 500
  {
    assert !Contains("/", "/favicon.ico") && !Contains("/", "/manifest.json");
  }

  /**
   * A workbench request whose only `folder` parameter is relative, such as
   * `GET /?folder=foo`, gets no answer: the configuration throws and the
   * throw of the async handler is never caught.
   */
  lemma RelativeFolderUnanswered(service: Environment.EnvironmentServer, staticConfiguration: Environment.StaticConfiguration,
                                 req: ParsedRequest, folder: string)
    requires req.pathname == "/" && req.hostHeader.Some? && req.hostHeader.value != ""
    requires GetAll(req.searchParams, "folder") == [folder] && folder != "" && folder[0] != '/'
    ensures Route(req.pathname) == Root
    ensures RootResponse(service, staticConfiguration, req) == Threw(Environment.RelativePathMessage)
    ensures Settle(Route(req.pathname), RootResponse(service, staticConfiguration, req)) == NoResponse
    ensures SettleAwaited(RootResponse(service, staticConfiguration, req)).response.status == 500
  {
    assert !Contains("/", "/favicon.ico") && !Contains("/", "/manifest.json");
    Environment.RelativePathRejected(service, staticConfiguration, req, 0);
  }

  /** The two listeners differ exactly on throws of async handlers. */
  lemma SettleDiffersOnlyOnAsyncThrows(e: Endpoint, result: HandlerResult)
    ensures Settle(e, result) != SettleAwaited(result) <==> result.Threw? && IsAsyncEndpoint(e)
  {
  }

  // ---------------------------------------------------------------------
  // The handler

  /** A registered callback: the URI to hand back, and the timer that will drop it. */
  datatype PendingCallback = PendingCallback(uri: UriComponents, timer: nat)

  /** The endpoints that neither read nor change the callback table. */
  function StatelessResult(e: Endpoint, req: ParsedRequest, effects: Effects,
                           service: Environment.EnvironmentServer,
                           staticConfiguration: Environment.StaticConfiguration): HandlerResult
    requires e != Callback && e != FetchCallback
    requires e == Static ==> HasPrefix(req.pathname, "/static/")
  {
    match e
    case Favicon => Done(ServeFile(FaviconFile, req.ifNoneMatch, effects))
    case Manifest => ManifestResponse(service, staticConfiguration, req)
    case Static =>
      (match StaticFile(req.pathname, effects)
       case Failure(err) => Threw(err)
       case Success(path) => Done(ServeFile(path, req.ifNoneMatch, effects)))
    case Root => RootResponse(service, staticConfiguration, req)
    case RemoteResource => RemoteResourceResponse(req, effects)
    case NotFound => Done(ServeError(404, "Not found."))
  }

  /** None of these handlers answers 500 itself. */
  lemma StatelessStatuses(e: Endpoint, req: ParsedRequest, effects: Effects,
                          service: Environment.EnvironmentServer,
                          staticConfiguration: Environment.StaticConfiguration)
    requires e != Callback && e != FetchCallback
    requires e == Static ==> HasPrefix(req.pathname, "/static/")
    ensures var r := StatelessResult(e, req, effects, service, staticConfiguration);
      r.Done? ==> r.response.status in {200, 304, 404}
  {
  }

  /**
   * What `$callback` does, from table, timers and next timer number
   * `(c0, t0, n0)` to `(c1, t1, n1)`: a malformed parameter throws and a
   * missing id is answered 400, both leaving the table alone; otherwise the
   * callback is stored under its id with a fresh timer (an earlier timer
   * for the same id keeps running) and the callback page is sent.
   */
  ghost predicate CallbackStep(params: SearchParams, effects: Effects, result: HandlerResult,
                               c0: map<string, PendingCallback>, t0: map<nat, string>, n0: nat,
                               c1: map<string, PendingCallback>, t1: map<nat, string>, n1: nat)
  {
    match CallbackRequest(params, effects)
    case Failure(e) =>
      result == Threw(e) && c1 == c0 && t1 == t0 && n1 == n0
    case Success(None) =>
      result == Done(ServeError(400, "Bad request.")) && c1 == c0 && t1 == t0 && n1 == n0
    case Success(Some((id, uri))) =>
      result == Done(Response(200, map["Content-Type" := "text/html"], CallbackPage)) &&
      n0 !in t0 &&
      c1 == c0[id := PendingCallback(uri, n0)] && t1 == t0[n0 := id] && n1 == n0 + 1
  }

  /**
   * What `$fetchCallback` does: without a (non-empty) raw id, 400;
   * otherwise the stored URI, if any, is sent as JSON and removed with its
   * timer.
   */
  ghost predicate FetchCallbackStep(params: SearchParams, result: HandlerResult,
                                    c0: map<string, PendingCallback>, t0: map<nat, string>,
                                    c1: map<string, PendingCallback>, t1: map<nat, string>)
  {
    var id := Get(params, "vscode-requestId");
    if id.None? || id.value == "" then
      result == Done(ServeError(400, "Bad request.")) && c1 == c0 && t1 == t0
    else if id.value in c0 then
      result == Done(Response(200, map["Content-Type" := "text/json"], CallbackJson(Some(c0[id.value].uri)))) &&
      c1 == c0 - {id.value} && t1 == t0 - {c0[id.value].timer}
    else
      result == Done(Response(200, map["Content-Type" := "text/json"], CallbackJson(None))) &&
      c1 == c0 && t1 == t0
  }

  /**
   * What the handler that `req` is routed to does: the two callback
   * endpoints step the table, every other endpoint answers as
   * `StatelessResult` says and leaves the table alone.
   */
  ghost predicate DispatchStep(service: Environment.EnvironmentServer, staticConfiguration: Environment.StaticConfiguration,
                               req: ParsedRequest, effects: Effects, result: HandlerResult,
                               c0: map<string, PendingCallback>, t0: map<nat, string>, n0: nat,
                               c1: map<string, PendingCallback>, t1: map<nat, string>, n1: nat)
  {
    var e := Route(req.pathname);
    if e == Callback then CallbackStep(req.searchParams, effects, result, c0, t0, n0, c1, t1, n1)
    else if e == FetchCallback then FetchCallbackStep(req.searchParams, result, c0, t0, c1, t1) && n1 == n0
    else result == StatelessResult(e, req, effects, service, staticConfiguration) && c1 == c0 && t1 == t0 && n1 == n0
  }

  class WebRequestHandler {
    const service: Environment.EnvironmentServer
    const staticConfiguration: Environment.StaticConfiguration

    /** `callbackUriToRequestId`: request id to callback. */
    var callbacks: map<string, PendingCallback>
    /** The pending timers: timer to the request id it will drop. */
    var timers: map<nat, string>
    var nextTimer: nat

    /** Each callback's timer is pending and drops that callback; timers are numbered below `nextTimer`. */
    ghost predicate Valid()
      reads this
    {
      && (forall id :: id in callbacks ==> callbacks[id].timer in timers && timers[callbacks[id].timer] == id)
      && (forall t :: t in timers ==> t < nextTimer)
    }

    constructor(service: Environment.EnvironmentServer, staticConfiguration: Environment.StaticConfiguration)
      ensures Valid()
      ensures this.service == service && this.staticConfiguration == staticConfiguration
      ensures callbacks == map[] && timers == map[]
    {
      this.service := service;
      this.staticConfiguration := staticConfiguration;
      callbacks := map[];
      timers := map[];
      nextTimer := 0;
    }

    /** `$callback`, as `CallbackStep` describes it. */
    method HandleCallback(params: SearchParams, effects: Effects) returns (result: HandlerResult)
      requires Valid()
      modifies this`callbacks, this`timers, this`nextTimer
      ensures Valid()
      ensures CallbackStep(params, effects, result, old(callbacks), old(timers), old(nextTimer), callbacks, timers, nextTimer)
      ensures result.Done? ==> result.response.status in {200, 400}
    {
      var request := CallbackRequest(params, effects);
      match request
      case Failure(e) =>
        result := Threw(e);
      case Success(None) =>
        result := Done(ServeError(400, "Bad request."));
      case Success(Some((id, uri))) =>
        Register(id, uri);
        result := Done(Response(200, map["Content-Type" := "text/html"], CallbackPage));
    }

    /** Store `uri` under `id` with a fresh timer; a callback already stored under `id` is replaced, its timer left running. */
    method Register(id: string, uri: UriComponents)
      requires Valid()
      modifies this`callbacks, this`timers, this`nextTimer
      ensures Valid()
      ensures old(nextTimer) !in old(timers)
      ensures callbacks == old(callbacks)[id := PendingCallback(uri, old(nextTimer))]
      ensures timers == old(timers)[old(nextTimer) := id] && nextTimer == old(nextTimer) + 1
    {
      var t := nextTimer;
      nextTimer := nextTimer + 1;
      timers := timers[t := id];
      callbacks := callbacks[id := PendingCallback(uri, t)];
    }

    /** `$fetchCallback`, as `FetchCallbackStep` describes it; it always answers. */
    method HandleFetchCallback(params: SearchParams) returns (result: HandlerResult)
      requires Valid()
      modifies this`callbacks, this`timers
      ensures Valid()
      ensures result.Done?
      ensures FetchCallbackStep(params, result, old(callbacks), old(timers), callbacks, timers)
      ensures result.response.status in {200, 400}
    {
      var id := Get(params, "vscode-requestId");
      if id.None? || id.value == "" {
        return Done(ServeError(400, "Bad request."));
      }
      if id.value in callbacks {
        var known := callbacks[id.value];
        callbacks := callbacks - {id.value};
        timers := timers - {known.timer};
        result := Done(Response(200, map["Content-Type" := "text/json"], CallbackJson(Some(known.uri))));
      } else {
        result := Done(Response(200, map["Content-Type" := "text/json"], CallbackJson(None)));
      }
    }

    /** A callback's timer fires: whatever is stored under its id now is dropped. */
    method Expire(t: nat)
      requires Valid() && t in timers
      modifies this`callbacks, this`timers
      ensures Valid()
      ensures callbacks == old(callbacks) - {old(timers)[t]}
      ensures timers == old(timers) - {t}
    {
      var id := timers[t];
      callbacks := callbacks - {id};
      timers := timers - {t};
    }

    /** `dispose`: the table is emptied; pending timers are not cancelled and find nothing when they fire. */
    method Dispose()
      requires Valid()
      modifies this`callbacks
      ensures Valid()
      ensures callbacks == map[]
    {
      callbacks := map[];
    }

    /** The endpoint's handler, applied to this handler's state. */
    method Dispatch(req: ParsedRequest, effects: Effects) returns (e: Endpoint, result: HandlerResult)
      requires Valid()
      modifies this`callbacks, this`timers, this`nextTimer
      ensures Valid()
      ensures e == Route(req.pathname)
      ensures DispatchStep(service, staticConfiguration, req, effects, result,
                           old(callbacks), old(timers), old(nextTimer), callbacks, timers, nextTimer)
      ensures e == FetchCallback ==> result.Done?
      ensures result.Done? ==> result.response.status in {200, 304, 400, 404}
    {
      e := Route(req.pathname);
      if e == Callback {
        result := HandleCallback(req.searchParams, effects);
      } else if e == FetchCallback {
        result := HandleFetchCallback(req.searchParams);
      } else {
        result := StatelessResult(e, req, effects, service, staticConfiguration);
        StatelessStatuses(e, req, effects, service, staticConfiguration);
      }
    }

    /** `eventListener` as written: throws of async handlers go unanswered, and no request is ever answered 500. */
    method HandleRequest(req: ParsedRequest, effects: Effects) returns (outcome: Outcome, result: HandlerResult)
      requires Valid()
      modifies this`callbacks, this`timers, this`nextTimer
      ensures Valid()
      ensures DispatchStep(service, staticConfiguration, req, effects, result,
                           old(callbacks), old(timers), old(nextTimer), callbacks, timers, nextTimer)
      ensures outcome == Settle(Route(req.pathname), result)
      ensures outcome.Sent? ==> outcome.response.status != 500
    {
      var e;
      e, result := Dispatch(req, effects);
      outcome := Settle(e, result);
    }

    /** The listener with every handler awaited: a throw anywhere is logged and answered 500. */
    method HandleRequestAwaited(req: ParsedRequest, effects: Effects) returns (outcome: Outcome, result: HandlerResult)
      requires Valid()
      modifies this`callbacks, this`timers, this`nextTimer
      ensures Valid()
      ensures DispatchStep(service, staticConfiguration, req, effects, result,
                           old(callbacks), old(timers), old(nextTimer), callbacks, timers, nextTimer)
      ensures outcome == SettleAwaited(result)
      ensures result.Threw? ==> outcome == Sent(WithCors(InternalError()))
    {
      var e;
      e, result := Dispatch(req, effects);
      outcome := SettleAwaited(result);
    }
  }

  // ---------------------------------------------------------------------
  // Scenarios

  /** Register, then fetch by the raw id: the URI comes back once and the table is empty again. */
  method RegisterThenFetch(handler: WebRequestHandler, id: string, uri: UriComponents)
    requires handler.Valid() && handler.callbacks == map[] && id != ""
    modifies handler
  {
    handler.Register(id, uri);
    var params := [("vscode-requestId", id)];
    var r2 := handler.HandleFetchCallback(params);
    assert r2.response.body == CallbackJson(Some(uri));
    assert handler.callbacks == map[];
    var r3 := handler.HandleFetchCallback(params);
    assert r3.response.body == CallbackJson(None);
  }

  /** Registering the same id twice leaves the first timer running, and when it fires it drops the second registration. */
  method StaleTimerDropsNewerCallback(handler: WebRequestHandler, id: string, uri: UriComponents)
    requires handler.Valid() && handler.callbacks == map[] && handler.timers == map[]
    modifies handler
  {
    var first := handler.nextTimer;
    handler.Register(id, uri);
    handler.Register(id, uri);
    assert handler.callbacks == map[id := PendingCallback(uri, first + 1)];
    handler.Expire(first);
    assert handler.callbacks == map[];
    assert handler.timers == map[first + 1 := id];
  }
}
