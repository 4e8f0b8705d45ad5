/**
 * The environment service's web side: the workbench configuration the
 * server injects into the page for each request, its static (memoized)
 * part, and the derived commit and build facts.
 *
 * URLs are kept symbolic: a URL is the request's origin, the server's
 * base path and the path under it; the path joining and normalisation
 * `path.join` and `new URL` do are outside the model.
 */
module Environment {
  import opened Wrappers
  import opened Strings
  import opened Requests
  import Nls

  /** The scheme of workspace folders on the server. */
  const RemoteScheme := "vscode-remote"

  /** The commit of a build without one. */
  const DevelopmentCommit := "development"

  /** Where the server's static files are mounted. */
  const StaticPrefix := "/static/"

  const MissingHostMessage := "Expected host in request headers to determine remote authority"

  /** What `URI.from` throws for a URI with an authority whose path is neither empty nor absolute. */
  const RelativePathMessage :=
    "[UriError]: If a URI contains an authority component, then the path component must either be empty or begin with a slash (\"/\") character"

  /** What `URI.from` throws for a URI without an authority whose path starts with two slashes. */
  const DoubleSlashPathMessage :=
    "[UriError]: If a URI does not contain an authority component, then the path cannot begin with two slash characters (\"//\")"

  /** `new URL(path.join('/', pathPrefix, pathname), origin)`, with an optional `base` search parameter. */
  datatype Url = Url(origin: string, pathPrefix: string, pathname: string, base: Option<string>)

  /** A URI on the remote: scheme, authority and path. */
  datatype RemoteUri = RemoteUri(scheme: string, authority: string, path: string)

  datatype Icon = Icon(src: Url, mimeType: string, sizes: string)

  /** The members of the product configuration the server reads or overrides; the rest are copied through unseen. */
  datatype Product = Product(commit: Option<string>, nameLong: string, nameShort: string, updateUrl: Option<string>)

  /** Where the workbench checks for updates: the product's own URL, or the server's check under its base path. */
  datatype UpdateUrl = ProductUpdateUrl(url: string) | UpdateCheck(pathPrefix: string)

  datatype ProductConfiguration = ProductConfiguration(
    product: Product,
    logoutEndpointUrl: Url,
    webEndpointUrl: Url,
    icons: seq<Icon>,
    updateUrl: Option<UpdateUrl>)

  /** A single folder to open; `workspaceUri` is always undefined, so it is not kept. */
  datatype Workspace = Workspace(folderUri: RemoteUri)

  /** The static part: the workspace provider's payload and the NLS configuration. */
  datatype StaticConfiguration = StaticConfiguration(
    payload: seq<(string, PayloadValue)>,
    nlsConfiguration: Nls.NlsConfiguration)

  /** A payload entry's value: a plain string, or a list of strings written out as JSON. */
  datatype PayloadValue = Text(text: string) | JsonStringList(items: seq<string>)

  datatype WorkbenchWebConfiguration = WorkbenchWebConfiguration(
    staticConfiguration: StaticConfiguration,
    workspace: Option<Workspace>,
    remoteAuthority: string,
    remoteUserDataPath: string,
    productConfiguration: ProductConfiguration)

  /** What the service was built with: the positional arguments, the product, whether update checks are off, and its user data path. */
  datatype EnvironmentServer = EnvironmentServer(
    positionalArgs: seq<string>,
    product: Product,
    disableUpdateCheck: bool,
    userDataPath: string)

  /** `commit`: the product's commit, or "development" when it has none. */
  function Commit(service: EnvironmentServer): (c: string)
    ensures c != ""
    ensures service.product.commit.Some? && service.product.commit.value != "" ==> c == service.product.commit.value
    ensures !(service.product.commit.Some? && service.product.commit.value != "") ==> c == DevelopmentCommit
  {
    if service.product.commit.Some? && service.product.commit.value != "" then service.product.commit.value
    else DevelopmentCommit
  }

  /** `isBuilt`: the commit is not the development one. */
  predicate IsBuilt(service: EnvironmentServer) {
    Commit(service) != DevelopmentCommit
  }

  /** A build is one with a real commit, and a commit literally named "development" counts as none. */
  lemma IsBuiltIff(service: EnvironmentServer)
    ensures IsBuilt(service) <==>
      service.product.commit.Some? && service.product.commit.value != "" && service.product.commit.value != DevelopmentCommit
  {
  }

  /** `workspaceArgPaths`: the positional arguments after the first. */
  function WorkspaceArgPaths(service: EnvironmentServer): (paths: seq<string>)
    ensures |paths| == if |service.positionalArgs| > 0 then |service.positionalArgs| - 1 else 0
    ensures forall i :: 0 <= i < |paths| ==> paths[i] == service.positionalArgs[i + 1]
  {
    if |service.positionalArgs| == 0 then [] else service.positionalArgs[1..]
  }

  /**
   * The path rule `URI.from` checks: with an authority the path is empty or
   * starts with `/`; without one it does not start with `//`.
   */
  predicate ValidUriPath(authority: string, path: string) {
    if authority != "" then path == "" || path[0] == '/'
    else !(|path| >= 2 && path[0] == '/' && path[1] == '/')
  }

  /**
   * `URI.from({scheme: 'vscode-remote', authority, path})`. The scheme is a
   * well-formed constant, so only the path rule can make it throw.
   */
  function RemoteUriFrom(authority: string, path: string): (r: Result<RemoteUri, string>)
    ensures r.Success? <==> ValidUriPath(authority, path)
    ensures r.Success? ==> r.value == RemoteUri(RemoteScheme, authority, path)
    ensures r.Failure? && authority != "" ==> r.error == RelativePathMessage
  {
    if authority != "" && path != "" && path[0] != '/' then Failure(RelativePathMessage)
    else if authority == "" && |path| >= 2 && path[0] == '/' && path[1] == '/' then Failure(DoubleSlashPathMessage)
    else Success(RemoteUri(RemoteScheme, authority, path))
  }

  /** Every path passes `URI.from`'s path rule. */
  predicate ValidWorkspacePaths(paths: seq<string>, authority: string) {
    forall i :: 0 <= i < |paths| ==> ValidUriPath(authority, paths[i])
  }

  /** `workbenchPaths.map(path => URI.from(...))`: one remote URI per path, or the first path's throw. */
  function WorkspaceFolders(paths: seq<string>, authority: string): (r: Result<seq<RemoteUri>, string>)
    ensures r.Success? <==> ValidWorkspacePaths(paths, authority)
    ensures r.Success? ==> |r.value| == |paths|
    ensures r.Success? ==> forall i :: 0 <= i < |paths| ==> r.value[i] == RemoteUri(RemoteScheme, authority, paths[i])
    ensures r.Failure? && authority != "" ==> r.error == RelativePathMessage
  {
    if paths == [] then Success([])
    else match RemoteUriFrom(authority, paths[0])
      case Failure(e) => Failure(e)
      case Success(u) =>
        match WorkspaceFolders(paths[1..], authority)
        case Failure(e) =>
          var j :| 0 <= j < |paths[1..]| && !ValidUriPath(authority, paths[1..][j]);
          assert paths[j + 1] == paths[1..][j];
          Failure(e)
        case Success(us) =>
          assert forall i :: 1 <= i < |paths| ==> paths[i] == paths[1..][i - 1];
          Success([u] + us)
  }

  /**
   * `parseWorkspace`: no paths, no workspace; otherwise every path is made
   * a remote URI, which throws when one breaks the path rule, and the first
   * one is the folder to open.
   */
  function ParseWorkspace(paths: seq<string>, remoteAuthority: string): (w: Result<Option<Workspace>, string>)
    ensures w.Failure? <==> !ValidWorkspacePaths(paths, remoteAuthority)
    ensures w.Failure? && remoteAuthority != "" ==> w.error == RelativePathMessage
    ensures w.Success? ==> (w.value.None? <==> paths == [])
    ensures w.Success? && w.value.Some? ==> w.value.value.folderUri == RemoteUri(RemoteScheme, remoteAuthority, paths[0])
  {
    if paths == [] then Success(None)
    else match WorkspaceFolders(paths, remoteAuthority)
      case Failure(e) => Failure(e)
      case Success(uris) => Success(Some(Workspace(uris[0])))
  }

  /** `createRequestUrl`. */
  function RequestUrl(req: ParsedRequest, pathname: string): Url {
    Url(req.origin, req.pathPrefix, pathname, None)
  }

  /** The two install icons of the progressive web app: 192 and 512 pixel PNGs under `/static`. */
  function PwaIcons(req: ParsedRequest): (icons: seq<Icon>)
    ensures |icons| == 2
    ensures forall i :: 0 <= i < |icons| ==> icons[i].mimeType == "image/png" && icons[i].src.origin == req.origin && HasPrefix(icons[i].src.pathname, StaticPrefix)
    ensures icons[0].sizes == "192x192" && icons[1].sizes == "512x512"
  {
    var media := StaticPrefix + "src/browser/media/";
    assert HasPrefix(media + "pwa-icon-192.png", StaticPrefix) && HasPrefix(media + "pwa-icon-512.png", StaticPrefix) by {
      assert (media + "pwa-icon-192.png")[..|StaticPrefix|] == StaticPrefix;
      assert (media + "pwa-icon-512.png")[..|StaticPrefix|] == StaticPrefix;
    }
    [Icon(RequestUrl(req, media + "pwa-icon-192.png"), "image/png", "192x192"),
     Icon(RequestUrl(req, media + "pwa-icon-512.png"), "image/png", "512x512")]
  }

  /** The product configuration for a request: the product with the endpoints, icons and update URL set. */
  function ProductConfigurationFor(service: EnvironmentServer, req: ParsedRequest): (p: ProductConfiguration)
    ensures p.product == service.product
    ensures p.logoutEndpointUrl == Url(req.origin, req.pathPrefix, "/logout", Some(req.pathPrefix))
    ensures p.webEndpointUrl == RequestUrl(req, "/static")
    ensures p.icons == PwaIcons(req)
    ensures service.disableUpdateCheck ==>
      p.updateUrl == (if service.product.updateUrl.Some? then Some(ProductUpdateUrl(service.product.updateUrl.value)) else None)
    ensures !service.disableUpdateCheck ==> p.updateUrl == Some(UpdateCheck(req.pathPrefix))
  {
    var logout := RequestUrl(req, "/logout").(base := Some(req.pathPrefix));
    var fromProduct := match service.product.updateUrl
      case Some(u) => Some(ProductUpdateUrl(u))
      case None => None;
    ProductConfiguration(
      service.product,
      logout,
      RequestUrl(req, "/static"),
      PwaIcons(req),
      if service.disableUpdateCheck then fromProduct else Some(UpdateCheck(req.pathPrefix)))
  }

  /** The paths a request opens: its `folder` parameters, or failing those the command line's. */
  function ChosenPaths(service: EnvironmentServer, req: ParsedRequest): (paths: seq<string>)
    ensures GetAll(req.searchParams, "folder") != [] ==> paths == GetAll(req.searchParams, "folder")
    ensures GetAll(req.searchParams, "folder") == [] ==> paths == WorkspaceArgPaths(service)
  {
    var folders := GetAll(req.searchParams, "folder");
    if |folders| > 0 then folders else WorkspaceArgPaths(service)
  }

  /** A request the configuration can be built for: a non-empty host, and chosen paths that all pass the path rule on it. */
  predicate Configurable(service: EnvironmentServer, req: ParsedRequest) {
    req.hostHeader.Some? && req.hostHeader.value != "" && ValidWorkspacePaths(ChosenPaths(service, req), req.hostHeader.value)
  }

  /**
   * `createWorkbenchWebConfiguration`: fails without a (non-empty) host
   * header, and when a chosen path is not a valid remote URI path;
   * otherwise the first chosen path opens on the host the request named.
   */
  function CreateWorkbenchWebConfiguration(service: EnvironmentServer, staticConfiguration: StaticConfiguration,
                                           req: ParsedRequest): (r: Result<WorkbenchWebConfiguration, string>)
    ensures r.Success? <==> Configurable(service, req)
    ensures r.Failure? ==>
      r.error == if req.hostHeader.None? || req.hostHeader.value == "" then MissingHostMessage else RelativePathMessage
    ensures r.Success? ==>
      && r.value.remoteAuthority == req.hostHeader.value
      && r.value.staticConfiguration == staticConfiguration
      && r.value.remoteUserDataPath == service.userDataPath
      && r.value.productConfiguration == ProductConfigurationFor(service, req)
      && (r.value.workspace.None? <==> ChosenPaths(service, req) == [])
      && (r.value.workspace.Some? ==>
            r.value.workspace.value.folderUri == RemoteUri(RemoteScheme, req.hostHeader.value, ChosenPaths(service, req)[0]))
  {
    if req.hostHeader.None? || req.hostHeader.value == "" then Failure(MissingHostMessage)
    else
      var remoteAuthority := req.hostHeader.value;
      match ParseWorkspace(ChosenPaths(service, req), remoteAuthority)
      case Failure(e) => Failure(e)
      case Success(workspace) =>
        Success(WorkbenchWebConfiguration(staticConfiguration, workspace, remoteAuthority, service.userDataPath,
                                          ProductConfigurationFor(service, req)))
  }

  /** A `folder` parameter that passes the path rule opens that folder on the requested host, whatever the command line says. */
  lemma FolderParameterWins(service: EnvironmentServer, staticConfiguration: StaticConfiguration, req: ParsedRequest)
    requires req.hostHeader.Some? && req.hostHeader.value != ""
    requires GetAll(req.searchParams, "folder") != []
    requires ValidWorkspacePaths(GetAll(req.searchParams, "folder"), req.hostHeader.value)
    ensures var r := CreateWorkbenchWebConfiguration(service, staticConfiguration, req);
      r.Success? && r.value.workspace == Some(Workspace(RemoteUri(RemoteScheme, req.hostHeader.value, GetAll(req.searchParams, "folder")[0])))
    ensures var r := CreateWorkbenchWebConfiguration(service, staticConfiguration, req);
      Get(req.searchParams, "folder").Some? && r.value.workspace.value.folderUri.path == Get(req.searchParams, "folder").value
  {
    GetIsFirstOfGetAll(req.searchParams, "folder");
  }

  /** Without a `folder` parameter the second positional argument is opened, and with fewer than two none is. */
  lemma ArgumentFolderOtherwise(service: EnvironmentServer, staticConfiguration: StaticConfiguration, req: ParsedRequest)
    requires req.hostHeader.Some? && req.hostHeader.value != ""
    requires Get(req.searchParams, "folder").None?
    requires ValidWorkspacePaths(WorkspaceArgPaths(service), req.hostHeader.value)
    ensures var r := CreateWorkbenchWebConfiguration(service, staticConfiguration, req);
      r.Success? &&
      r.value.workspace == (if |service.positionalArgs| >= 2
                            then Some(Workspace(RemoteUri(RemoteScheme, req.hostHeader.value, service.positionalArgs[1])))
                            else None)
  {
    GetIsFirstOfGetAll(req.searchParams, "folder");
  }

  /**
   * Any chosen path that is neither empty nor absolute makes the whole
   * configuration fail, even when it is not the one that would be opened.
   */
  lemma RelativePathRejected(service: EnvironmentServer, staticConfiguration: StaticConfiguration, req: ParsedRequest, i: nat)
    requires req.hostHeader.Some? && req.hostHeader.value != ""
    requires i < |ChosenPaths(service, req)|
    requires ChosenPaths(service, req)[i] != "" && ChosenPaths(service, req)[i][0] != '/'
    ensures CreateWorkbenchWebConfiguration(service, staticConfiguration, req) == Failure(RelativePathMessage)
  {
    assert !ValidUriPath(req.hostHeader.value, ChosenPaths(service, req)[i]);
  }

  // ---------------------------------------------------------------------
  // The static part

  /** The workspace provider's payload: the user data path and the enabled proposed APIs (none when unset). */
  function Payload(userDataPath: string, enabledProposedApi: Option<seq<string>>): (p: seq<(string, PayloadValue)>)
    ensures |p| == 2 && p[0].0 == "userDataPath" && p[1].0 == "enableProposedApi"
    ensures p[0].1 == Text(userDataPath)
    ensures p[1].1 == JsonStringList(enabledProposedApi.GetOr([]))
  {
    [("userDataPath", Text(userDataPath)), ("enableProposedApi", JsonStringList(enabledProposedApi.GetOr([])))]
  }

  /**
   * The locale the NLS configuration is looked up for: the `--locale`
   * argument when given and non-empty, otherwise the one from the user's
   * settings files (None when a settings file has no `locale`).
   */
  function NlsLocale(argsLocale: Option<string>, configLocale: Option<string>): (l: Option<string>)
    ensures argsLocale.Some? && argsLocale.value != "" ==> l == argsLocale
    ensures (argsLocale.None? || argsLocale.value == "") ==> l == configLocale
  {
    if argsLocale.Some? && argsLocale.value != "" then argsLocale else configLocale
  }

  /** JavaScript's text for an undefined locale, which is what the cache key and the language pack library then see. */
  const UndefinedText := "undefined"

  /**
   * `staticWorkbenchWebConfigurationPromise`, computed once: the payload,
   * and the NLS configuration for the argument's locale, or, without one,
   * the settings files' (read only then).
   */
  method ComputeStaticConfiguration(service: EnvironmentServer, argsLocale: Option<string>,
                                    enabledProposedApi: Option<seq<string>>,
                                    cache: Nls.NlsConfigurationCache, sources: Nls.NlsSources,
                                    readUserFile: string -> Option<string>,
                                    parseLocale: string -> Option<Option<string>>)
    returns (config: StaticConfiguration)
    requires cache.Valid()
    modifies cache
    ensures cache.Valid()
    ensures config.payload == Payload(service.userDataPath, enabledProposedApi)
    ensures var locale := NlsLocale(argsLocale, Nls.LocaleFrom(Nls.LocaleFiles, 0, readUserFile, parseLocale)).GetOr(UndefinedText);
      var id := Nls.CacheKey(locale, service.userDataPath);
      if id in old(cache.configurations) then
        config.nlsConfiguration == old(cache.configurations)[id] && cache.configurations == old(cache.configurations)
      else
        var computed := Nls.ComputeConfiguration(sources, locale, service.userDataPath);
        config.nlsConfiguration == computed &&
        cache.configurations == (if Nls.Evictable(computed) then old(cache.configurations) else old(cache.configurations)[id := computed])
  {
    var locale: Option<string>;
    if argsLocale.Some? && argsLocale.value != "" {
      locale := argsLocale;
    } else {
      locale := Nls.GetLocaleFromConfig(readUserFile, parseLocale);
    }
    var nls := cache.GetNlsConfiguration(locale.GetOr(UndefinedText), service.userDataPath, sources);
    config := StaticConfiguration(Payload(service.userDataPath, enabledProposedApi), nls);
  }
}
