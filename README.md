# code-server: extension host, language configuration, web handler

A Dafny model of the server side of code-server's VS Code fork. It covers four parts:

- **Extension-host supervisor** (`ext_host.dfy`, module `ExtHost`). It builds the options a worker process is forked with (silent, the environment, the runtime arguments). It classifies what the worker sends: console logs, or the `VSCODE_EXTHOST_IPC_READY` handshake. It keeps the lifecycle of the child handle: send, dispose, the host's one-time `exit` hook, and the child's exit with crash detection.
- **Language configuration** (`nls.dfy`, module `Nls`, and `comment_stripper.dfy`, module `CommentStripper`):
  - the process-wide NLS configuration cache keyed by `locale: userDataPath`, which drops results that are not worth keeping;
  - the translations of an internal (language-pack) configuration;
  - the locale read from `locale.json` or else `argv.json`;
  - the `stripComments` pre-pass run before JSON parsing.
- **Web request handler** (`web_server.dfy`, module `WebServer`):
  - routing;
  - files served with a weak ETag validator and `304` revalidation;
  - the manifest, workbench and remote-resource endpoints;
  - the table of polling URL callbacks that `/callback` fills and `/fetch-callback` empties, with expiry timers and `dispose`.
- **Environment service** (`environment.dfy`, module `Environment`):
  - the workbench configuration built per request (remote authority from the `Host` header, folder selection, endpoints, icons, update URL);
  - its memoized static part;
  - `commit` and `isBuilt`.

`request.dfy` (module `Requests`) models the parsed request and `URLSearchParams.get`/`getAll`. `strings.dfy` holds prefix and substring tests and the decimal rendering of integers. `wrappers.dfy` holds `Option` and `Result`.

Pure code (the fork-option rules, routing, `serveFile`, configuration building, comment stripping) is written as functions with lemmas. The parts that change state are classes:
- the `ExtensionHost` object;
- the NLS cache;
- the handler's callback table.

Their methods state the whole new state. The ready count, exit events, kills and warnings are fields or ghost fields that the methods keep up to date. The constructor's step-by-step assembly of the fork options is a method (`BuildForkOptions`), proved against the declarative `IsForkOptionsFor`, which fixes the options uniquely.

Behaviour of the code that a reader might not expect, which the model follows:
- `dispose()` kills the child and silences `onDidProcessExit`. It does not remove the host's `exit` listener; only the child's own exit handler does.
- The ready handshake fires `onReady` every time it arrives. There is no deduplication.
- The child's exit handler does not clear the child handle. A later `sendIPCMessage` depends only on `child.connected`.
- A cached NLS configuration is returned as stored, even when the commit or the metadata have changed since.
- `getLocaleFromConfig` returns the `locale` member of the first file that parses, even when that member is missing (undefined, `None` here). It does not go on to `argv.json` in that case.
- A `/callback` request with a malformed well-known parameter throws before the request id is checked. It gets no response, not `400`.
- Registering the same request id twice leaves the first timer running. When that timer fires it drops the second registration (scenario `StaleTimerDropsNewerCallback`).
- `$remoteResource` without a `path` parameter never ends the response.

## Model

| member | source | states |
|---|---|---|
| ExtHost.StripInspectFlags | lib/vscode/src/vs/workbench/services/extensions/node/extensionHost.ts:72-76 | an argument is inherited exactly when the host has it and it is not `--inspect=`/`--inspect-brk=`; never more arguments than the host's |
| ExtHost.StripInspectFlagsAppend | lib/vscode/src/vs/workbench/services/extensions/node/extensionHost.ts:75 | filtering keeps order: the filter of a concatenation is the concatenation of the filters |
| ExtHost.StripInspectFlagsKeepsOthers | lib/vscode/src/vs/workbench/services/extensions/node/extensionHost.ts:73-75 | host arguments without debugger flags are inherited unchanged |
| ExtHost.BuildForkOptions | lib/vscode/src/vs/workbench/services/extensions/node/extensionHost.ts:50-82 | the constructor's step-by-step assembly yields options meeting `IsForkOptionsFor` (silent; host env + parent pid + overrides, minus `DYLD_LIBRARY_PATH` on macOS; execArgv by precedence debugBrk > debug > freshExecArgv > filtered host arguments) |
| ExtHost.ForkOptionsUnique | lib/vscode/src/vs/workbench/services/extensions/node/extensionHost.ts:51-82 | the description determines the fork options completely |
| ExtHost.OverrideWins | lib/vscode/src/vs/workbench/services/extensions/node/extensionHost.ts:56-58 | a caller's environment entry overrides the host's and the injected parent pid (except the variable macOS removes) |
| ExtHost.ParentPidInjected | lib/vscode/src/vs/workbench/services/extensions/node/extensionHost.ts:54 | without an override, `VSCODE_PARENT_PID` is the host pid in decimal, and parses back to it |
| ExtHost.HostVariableInherited | lib/vscode/src/vs/workbench/services/extensions/node/extensionHost.ts:54-58 | other host variables reach the worker unchanged unless overridden |
| ExtHost.DyldRemovedOnMac | lib/vscode/src/vs/workbench/services/extensions/node/extensionHost.ts:78-82 | on macOS the worker never gets `DYLD_LIBRARY_PATH`, even from an override |
| ExtHost.DebugBrkWins | lib/vscode/src/vs/workbench/services/extensions/node/extensionHost.ts:60-70 | a break-on-start port gives exactly `--nolazy --inspect-brk=<port>`, whatever debug/freshExecArgv say |
| ExtHost.InheritedExecArgv | lib/vscode/src/vs/workbench/services/extensions/node/extensionHost.ts:72-76 | with no debugger and no freshExecArgv the worker gets no debugger flag and every other host argument |
| ExtHost.Classify | lib/vscode/src/vs/workbench/services/extensions/node/extensionHost.ts:88-98 | console logs take precedence; a message fires ready exactly when it is not a log and its type is the handshake |
| ExtHost.CrashTable | lib/vscode/src/vs/workbench/services/extensions/node/extensionHost.ts:108 | exit code 0 or signal SIGTERM is not a crash; other codes and signals are |
| ExtHost.ExtensionHost.constructor | lib/vscode/src/vs/workbench/services/extensions/node/extensionHost.ts:49-114 | forks with the specified options and arguments, registers the exit hook once, starts with no events |
| ExtHost.ExtensionHost.DisposeClient | lib/vscode/src/vs/workbench/services/extensions/node/extensionHost.ts:28-33 | the child is killed only if still held, then forgotten: at most one kill ever |
| ExtHost.ExtensionHost.Dispose | lib/vscode/src/vs/workbench/services/extensions/node/extensionHost.ts:35-39 | silences exit events and disposes the client; idempotent |
| ExtHost.ExtensionHost.SendIpcMessage | lib/vscode/src/vs/workbench/services/extensions/node/extensionHost.ts:41-47 | sends only to a held, connected child and returns what send returned; false otherwise |
| ExtHost.ExtensionHost.OnMessage | lib/vscode/src/vs/workbench/services/extensions/node/extensionHost.ts:86-98 | logs go to the host log tagged `IPC Library: <serverName>`; every handshake fires ready; others ignored |
| ExtHost.ExtensionHost.OnHostExit | lib/vscode/src/vs/workbench/services/extensions/node/extensionHost.ts:100-101 | the once-listener, if still registered, is consumed and disposes the client |
| ExtHost.ExtensionHost.OnChildExit | lib/vscode/src/vs/workbench/services/extensions/node/extensionHost.ts:105-113 | removes the host hook, warns exactly on a crash, delivers the exit unless disposed |
| ExtHost.ExtensionHost.OnChildError | lib/vscode/src/vs/workbench/services/extensions/node/extensionHost.ts:103 | an error is only warned about |
| ExtHost.ExtensionHost.OnChannelClosed | lib/vscode/src/vs/workbench/services/extensions/node/extensionHost.ts:42 | the child stays held but is no longer connected |
| CommentStripper.MatchAt | lib/vscode/src/vs/server/nls.ts:91 | a match has length at least two; a string starts at a protected quote and a comment at a slash |
| CommentStripper.StripNoLonger | lib/vscode/src/vs/server/nls.ts:93-110 | stripping never lengthens the text |
| CommentStripper.StripPlainPrefix | lib/vscode/src/vs/server/nls.ts:91-93 | text with no slash and no protected quote is copied unchanged in front of the rest |
| CommentStripper.StripKeepsStringLiteral | lib/vscode/src/vs/server/nls.ts:106-108 | a complete protected string literal (escapes included) is copied verbatim, comment markers inside it too |
| CommentStripper.StripDeletesBlockComment | lib/vscode/src/vs/server/nls.ts:95-97 | a complete block comment disappears |
| CommentStripper.StripLineCommentLf | lib/vscode/src/vs/server/nls.ts:98-102 | a line comment ended by LF leaves only the LF |
| CommentStripper.StripLineCommentCrLf | lib/vscode/src/vs/server/nls.ts:98-102 | a line comment ended by CRLF leaves only the CRLF |
| CommentStripper.StripLineCommentAtEnd | lib/vscode/src/vs/server/nls.ts:103-105 | a line comment running to the end of input disappears |
| CommentStripper.StripWithoutSlash | lib/vscode/src/vs/server/nls.ts:90-111 | input without a slash is returned unchanged |
| CommentStripper.StripCommentsCutsDoubleQuoted | lib/vscode/src/vs/server/nls.ts:91 | as written, text `p` free of `/` and `'` followed by `//` and the rest of the line keeps only `p`: for `p` = `{"a":"http:` a JSON member is cut at its URL |
| CommentStripper.StripCorrectedKeepsDoubleQuoted | lib/vscode/src/vs/server/nls.ts:91 | corrected, double-quoted literals are copied verbatim |
| CommentStripper.StripCorrectedKeepsJsonMember | lib/vscode/src/vs/server/nls.ts:80-81 | corrected, a JSON object of two double-quoted strings survives whatever they hold |
| Nls.DefaultConfiguration | lib/vscode/src/vs/server/nls.ts:21-26 | English with no available languages, not internal |
| Nls.ComputeConfiguration | lib/vscode/src/vs/server/nls.ts:34-47 | the language pack's configuration with a truthy commit and existing metadata, else the default; internal ones are marked as supporting language packs |
| Nls.DefaultKept | lib/vscode/src/vs/server/nls.ts:51 | the default configuration is never evicted |
| Nls.CacheKeyInjective | lib/vscode/src/vs/server/nls.ts:29 | distinct (locale, path) pairs get distinct keys when locales hold no colon |
| Nls.CacheKeyCollision | lib/vscode/src/vs/server/nls.ts:29 | without that condition two requests share a key |
| Nls.NlsConfigurationCache.constructor | lib/vscode/src/vs/server/nls.ts:18 | the cache starts empty |
| Nls.NlsConfigurationCache.GetNlsConfiguration | lib/vscode/src/vs/server/nls.ts:28-61 | a hit returns the stored configuration untouched; a miss computes it and stores it unless evictable; nothing evictable is ever stored |
| Nls.NlsConfigurationCache.GetTranslations | lib/vscode/src/vs/server/nls.ts:63-73 | the translations of the configuration the cache gives, with the cache updated exactly as `getNlsConfiguration` updates it |
| Nls.Translations | lib/vscode/src/vs/server/nls.ts:65-72 | the file's translations for an internal configuration whose file reads and parses; `{}` in every other case |
| Nls.NoLanguagePackNoTranslations | lib/vscode/src/vs/server/nls.ts:38-42 | without commit or metadata there are never translations |
| Nls.GetLocaleFromConfig | lib/vscode/src/vs/server/nls.ts:75-87 | the loop returns what the file-by-file reference `LocaleFrom` gives, each file parsed after the as-written `stripComments` |
| Nls.LocaleJsonWins | lib/vscode/src/vs/server/nls.ts:76-81 | a readable, parseable `locale.json` decides, even without a `locale` member |
| Nls.ArgvJsonNext | lib/vscode/src/vs/server/nls.ts:76-84 | when `locale.json` fails, `argv.json` decides |
| Nls.NeitherFileGivesEnglish | lib/vscode/src/vs/server/nls.ts:86 | when both fail the locale is `en` |
| Nls.UnreadableFileIsSkipped | lib/vscode/src/vs/server/nls.ts:78-84 | a file that cannot be read passes to the next |
| Nls.LocaleJsonWithUrlFallsThrough | lib/vscode/src/vs/server/nls.ts:80-81 | a `locale.json` cut at a double-quoted URL's `//` into text that does not parse is passed over, so `argv.json` or English decides |
| Requests.Get | lib/vscode/src/vs/server/net/webRequestHandler.ts:174 | null exactly when no pair has the name; otherwise the value of the first such pair |
| Requests.GetAll | lib/vscode/src/vs/server/environmentService.ts:68 | all values of the name, no more values than pairs |
| Requests.GetIsFirstOfGetAll | lib/vscode/src/vs/server/environmentService.ts:68-69 | `get` is the first of `getAll`, and null exactly when that is empty |
| Environment.Commit | lib/vscode/src/vs/server/environmentService.ts:188-191 | never empty: the product's commit when truthy, and `development` for a missing or empty one |
| Environment.IsBuiltIff | lib/vscode/src/vs/server/environmentService.ts:193-196 | built exactly when the product has a truthy commit other than `development` |
| Environment.WorkspaceArgPaths | lib/vscode/src/vs/server/environmentService.ts:211-214 | the positional arguments after the first, in order |
| Environment.RemoteUriFrom | lib/vscode/src/vs/server/environmentService.ts:164-168 | `URI.from` on the `vscode-remote` scheme succeeds exactly when the path passes the path rule (with an authority: empty or starting with `/`; without: not starting with `//`), giving that URI; with an authority it throws the relative-path error |
| Environment.WorkspaceFolders | lib/vscode/src/vs/server/environmentService.ts:162-170 | mapping `URI.from` over the paths succeeds exactly when every path passes the path rule, giving one URI per path in order; otherwise it throws |
| Environment.ParseWorkspace | lib/vscode/src/vs/server/environmentService.ts:154-181 | fails exactly when some path, not only the first, breaks the path rule; otherwise no workspace exactly when no paths, and else the first path as a `vscode-remote` folder on the authority |
| Environment.PwaIcons | lib/vscode/src/vs/server/environmentService.ts:86-97 | two PNG icons, 192x192 and 512x512, under `/static/` on the request's origin |
| Environment.ProductConfigurationFor | lib/vscode/src/vs/server/environmentService.ts:73-102 | the product copied through with logout (with `base`) and static endpoints and the two install icons; the update URL is the product's when checks are off and the server's check otherwise |
| Environment.CreateWorkbenchWebConfiguration | lib/vscode/src/vs/server/environmentService.ts:59-117 | fails exactly when the Host header is missing or empty (the host message) or a chosen path breaks the path rule (the relative-path error); otherwise the authority is the header, with the static part, the product configuration, and the first chosen path (the `folder` parameters, else the command line's) as the folder, none exactly when no paths are chosen |
| Environment.FolderParameterWins | lib/vscode/src/vs/server/environmentService.ts:68-69 | when every `folder` parameter passes the path rule, the first one is opened on the requested host, whatever the command line says |
| Environment.ArgumentFolderOtherwise | lib/vscode/src/vs/server/environmentService.ts:68-69 | without `folder` parameters, and with valid command-line paths, the second positional argument is opened, or nothing |
| Environment.RelativePathRejected | lib/vscode/src/vs/server/environmentService.ts:68-69 | one chosen path that is neither empty nor absolute, in any position, makes the configuration fail with the relative-path error |
| Environment.Payload | lib/vscode/src/vs/server/environmentService.ts:130-134 | the user data path and the enabled proposed APIs (empty list when unset), in that order |
| Environment.NlsLocale | lib/vscode/src/vs/server/environmentService.ts:136 | a non-empty `--locale` wins over the settings files |
| Environment.ComputeStaticConfiguration | lib/vscode/src/vs/server/environmentService.ts:124-139 | the payload, and the cache's NLS configuration for the chosen locale (settings files read only without `--locale`), with the cache updated as `getNlsConfiguration` updates it |
| WebServer.Route | lib/vscode/src/vs/server/net/webRequestHandler.ts:74-100 | favicon for any path containing `/favicon.ico`, else manifest for `/manifest.json` anywhere, else static under `/static/`; `/`, `/callback`, `/fetch-callback` and `/vscode-remote-resource` each give exactly its endpoint, and every other path is not found |
| WebServer.FaviconAnywhere | lib/vscode/src/vs/server/net/webRequestHandler.ts:74-76 | the unanchored test routes any path with `/favicon.ico` inside to the favicon |
| WebServer.StaticPathsAreStatic | lib/vscode/src/vs/server/net/webRequestHandler.ts:81-83 | paths under `/static/` without the special names are static files |
| WebServer.ServeError | lib/vscode/src/vs/server/net/webRequestHandler.ts:292-299 | the status, a plain-text type, the message as body |
| WebServer.ETagInjective | lib/vscode/src/vs/server/net/webRequestHandler.ts:270 | the weak validator differs whenever inode, size or mtime differ |
| WebServer.ServeFile | lib/vscode/src/vs/server/net/webRequestHandler.ts:261-290 | 404 `Not found` when stat fails; 304 with no headers when If-None-Match equals the validator; otherwise 200 with the type (plain text by default), the validator and the file |
| WebServer.RevalidateUnchanged | lib/vscode/src/vs/server/net/webRequestHandler.ts:270-274 | sending back a 200's validator yields 304 while the file is unchanged |
| WebServer.RevalidateChanged | lib/vscode/src/vs/server/net/webRequestHandler.ts:270-274 | after any change to the file's stat the old validator yields 200 |
| WebServer.StaticFile | lib/vscode/src/vs/server/net/webRequestHandler.ts:133-140 | the decoded path after `/static/`, to be joined to the app root; throws exactly when decoding does |
| WebServer.ManifestResponse | lib/vscode/src/vs/server/net/webRequestHandler.ts:111-128 | throws exactly when the configuration fails (no host, or a chosen path that breaks the path rule), with its error, and never hangs; otherwise 200 manifest JSON with the product names, the base path as start URL, fullscreen and no icons |
| WebServer.RootResponse | lib/vscode/src/vs/server/net/webRequestHandler.ts:146-165 | throws exactly when the configuration fails (no host, or a chosen path that breaks the path rule), with its error, and never hangs; otherwise 200 HTML with the trusted-types policy, the production page exactly when built, and the page carrying exactly the request's workbench configuration |
| WebServer.RootPageOpensFolderParameter | lib/vscode/src/vs/server/net/webRequestHandler.ts:147-153 | when every `folder` parameter passes the path rule, the served workbench page opens the first one on the requested host |
| WebServer.RemoteResourceResponse | lib/vscode/src/vs/server/net/webRequestHandler.ts:239-246 | no response exactly without a `path`; throws exactly for a `path` that cannot be read; a readable path is sent with its media type, plain text by default |
| WebServer.DecodeAll | lib/vscode/src/vs/server/net/webRequestHandler.ts:173-177 | one decoded value per key, in order; throws exactly when some key fails to decode |
| WebServer.CallbackQueryMembers | lib/vscode/src/vs/server/net/webRequestHandler.ts:184-192 | corrected, the callback query keeps exactly the pairs whose keys are not well-known |
| WebServer.CallbackQueryAsWrittenKeepsWellKnownKey | lib/vscode/src/vs/server/net/webRequestHandler.ts:185-199 | as written, a well-known pair inside `vscode-query` reaches the stored callback URI, where the intended deletion drops it |
| WebServer.RemoveWellKnownKeys | lib/vscode/src/vs/server/net/webRequestHandler.ts:187-192 | corrected, the deletion loop computes the query with the well-known keys removed |
| WebServer.CallbackRequest | lib/vscode/src/vs/server/net/webRequestHandler.ts:171-201 | throws exactly when a well-known parameter is malformed; no callback exactly without a non-empty decoded id; otherwise a given non-empty scheme is kept, authority, path and fragment are as decoded, and the query is the parsed `vscode-query` with every pair kept |
| WebServer.CallbackSchemeDefault | lib/vscode/src/vs/server/net/webRequestHandler.ts:173-196 | a missing or empty scheme becomes `code-oss` |
| WebServer.CallbackDecodesBeforeChecking | lib/vscode/src/vs/server/net/webRequestHandler.ts:173-182 | a malformed parameter throws even when the request id is missing |
| WebServer.WithCors | lib/vscode/src/vs/server/net/webRequestHandler.ts:71 | every response carries `Access-Control-Allow-Origin`, and keeps its own status, body and headers |
| WebServer.MissingHostUnanswered | lib/vscode/src/vs/server/net/webRequestHandler.ts:89-91 | as written, `/` without a Host header gets no response; awaited, it gets 500 |
| WebServer.RelativeFolderUnanswered | lib/vscode/src/vs/server/net/webRequestHandler.ts:89-91 | as written, `/` with a Host header and one relative `folder` parameter (`/?folder=foo`) throws the relative-path error and gets no response; awaited, it gets 500 |
| WebServer.SettleDiffersOnlyOnAsyncThrows | lib/vscode/src/vs/server/net/webRequestHandler.ts:73-105 | the as-written and awaited listeners differ exactly on throws of async handlers |
| WebServer.StatelessStatuses | lib/vscode/src/vs/server/net/webRequestHandler.ts:74-100 | the table-free endpoints answer only 200, 304 or 404 |
| WebServer.WebRequestHandler.constructor | lib/vscode/src/vs/server/net/webRequestHandler.ts:56 | the callback table starts empty |
| WebServer.WebRequestHandler.HandleCallback | lib/vscode/src/vs/server/net/webRequestHandler.ts:171-211 | throw or 400 leave the table alone; otherwise the callback is stored with a fresh timer and the page is sent; only 200 or 400 |
| WebServer.WebRequestHandler.Register | lib/vscode/src/vs/server/net/webRequestHandler.ts:194-207 | the id maps to the URI with a new timer; an earlier entry is replaced and its timer kept |
| WebServer.WebRequestHandler.HandleFetchCallback | lib/vscode/src/vs/server/net/webRequestHandler.ts:217-233 | 400 without a raw id; otherwise the stored URI as JSON (or nothing), removed with its timer; always answers, 200 or 400 |
| WebServer.WebRequestHandler.Expire | lib/vscode/src/vs/server/net/webRequestHandler.ts:203 | a firing timer drops whatever is stored under its id |
| WebServer.WebRequestHandler.Dispose | lib/vscode/src/vs/server/net/webRequestHandler.ts:301-304 | the table is emptied; timers are not cancelled |
| WebServer.WebRequestHandler.Dispatch | lib/vscode/src/vs/server/net/webRequestHandler.ts:74-100 | the routed endpoint's handler runs, with the new table, timers and timer count of the callback endpoints (`DispatchStep`); the others leave them alone; no handler answers 500 |
| WebServer.WebRequestHandler.HandleRequest | lib/vscode/src/vs/server/net/webRequestHandler.ts:68-106 | as written: the routed handler's result and new state (`DispatchStep`), settled so that async throws go unanswered: no request ever gets 500 |
| WebServer.WebRequestHandler.HandleRequestAwaited | lib/vscode/src/vs/server/net/webRequestHandler.ts:68-106 | corrected: the routed handler's result and new state (`DispatchStep`), and every throw is answered 500 `Internal Server Error.` |

## Left out

- Forking, the child process and Node's process events are not modelled as processes. The child is a handle given to the constructor, and each event is a method call that the environment makes.
- The fork options' `deepClone(process.env)` is a value copy here. Aliasing of the environment object is not modelled.
- `isRemoteConsoleLog` and `log` (in `vs/base/common/console`) are not part of this model. A message carries the test's verdict, and a forwarded log is recorded with its label.
- WebServer.ETagInjective: `ino` and `size` are exact naturals here. In the source they are JavaScript doubles: values above 2^53 are rounded, and `String` prints the shortest digits that round-trip (`String(2**60)` is `1152921504606847000`). So two inodes that differ above 2^53 can give the same validator in the source, and the `Etag` text of such a file differs from the model's. The validator's injectivity is proved only for the exact values; `RevalidateChanged` inherits the same proviso.
- `ExtHost.ExpectedExecArgv` renders the debug port with `IntToString`, which is right for integer ports. JavaScript's rendering of non-integer or huge numbers is not modelled.
- File-system access, `JSON.parse`, `path.join` and `path.normalize`, `new URL`, `URLSearchParams` parsing and serialisation, `decodeURIComponent` and the MIME tables are parameters or symbolic values. Examples: `Effects`, `NlsSources`, `readUserFile`, `Environment.Url`.
- The language-pack library (`vs/base/node/languagePacks`) is not part of this model. It is a function parameter.
- The NLS cache stores promises, so concurrent requests share one pending computation. The model is sequential: the pending promise, and an evictable result that is briefly visible while pending, are not modelled.
- Environment.ComputeStaticConfiguration: when the settings files have no `locale`, JavaScript passes `undefined` to `getNlsConfiguration`. The model passes the text `undefined`, which is what the cache key then holds. The language-pack library's handling of an undefined locale is not modelled.
- `vs/base/common/uri.ts` is not part of this model. Of `URI.from`'s checks only the path rule can fail here, because the scheme is the constant `vscode-remote`; that rule is modelled by `Environment.ValidUriPath`, and the resulting URI is kept as its three parts.
- `getLogLevel`, `createServerURITransformer` (the remote user-data URI is kept as its path), `toWorkspaceFolder` and `URI.toJSON` are not part of this model.
- `escapeJSON` and the template substitutions are not modelled. Page bodies name their template and data (`WorkbenchPage`, `CallbackPage`) instead of holding text. The templates read at start-up are not modelled either.
- The callback timers' duration, `ProtocolConstants.ReconnectionShortGraceTime`, is not part of this model. A timer firing is the event `Expire`.
- `super.dispose()` of the abstract network handler is not part of this model.
- Logging (`logService.error`, `logService.trace`, `console.warn` text) is not modelled. Warnings are recorded as values.
- `StaticFile`: the decoded path is passed to `normalize` and joined to the application root. `normalize` keeps a leading `..`, so an encoded path such as `/static/..%2f..%2fetc%2fpasswd` names a file outside the root. Path normalisation is not modelled, so the model neither excludes nor exhibits that escape.
- The language-pack library is modelled as always answering. If it rejects, the source's pending promise never settles and stays cached, so every later request for that key waits forever. That case is not modelled.
- `WebServer.RemoteResourceResponse`: the error text for an unreadable path is a placeholder. Only the fact that it throws is modelled.
- Strings are sequences of Dafny `char`, which are Unicode scalar values. JavaScript strings are UTF-16 code units, so lone surrogates and code-unit lengths are not modelled. The regular expressions are modelled only to the extent they are literal tests, or the `stripComments` alternation.
- `entry.ts` (command-line start-up) is context, not core, and is not modelled.

## Findings

| source | as written | input that shows it | evidently intended | confidence | as-written member | corrected member |
|---|---|---|---|---|---|---|
| lib/vscode/src/vs/server/nls.ts:91 | the first two alternatives are both the single-quoted string, so double-quoted JSON strings are not protected and a `//` inside one starts a line comment | `{"a":"http://x"}` becomes `{"a":"http:` | the first alternative matches double-quoted strings, so JSON strings are copied verbatim | high; not executed | CommentStripper.StripCommentsCutsDoubleQuoted | CommentStripper.StripCorrectedKeepsJsonMember |
| lib/vscode/src/vs/server/net/webRequestHandler.ts:73-105 | async handlers are returned inside `try`, not awaited, so their rejections skip the `catch`; only synchronous handlers could reach it, and they never throw | `GET /` with no Host header, or `GET /?folder=foo`: the workbench configuration rejects and no response is sent | every handler error is logged and answered `500 Internal Server Error.` | high; not executed | WebServer.MissingHostUnanswered | WebServer.WebRequestHandler.HandleRequestAwaited |
| lib/vscode/src/vs/server/net/webRequestHandler.ts:187-192 | `for (const key in query.keys())` walks the properties of an iterator object, never the query's keys, so nothing is deleted | `/callback?vscode-requestId=a&vscode-query=vscode-requestId%3Dother%26x%3D1` stores a URI whose query still has `vscode-requestId=other` | well-known keys given again inside `vscode-query` are removed ("Omit duplicate keys within query") | high; not executed | WebServer.CallbackQueryAsWrittenKeepsWellKnownKey | WebServer.CallbackQueryMembers |

The operations follow the code as written: `Nls.GetLocaleFromConfig` parses the settings after the as-written `StripComments`, and `Nls.LocaleJsonWithUrlFallsThrough` shows the first finding's effect on locale lookup. `CallbackRequest` stores the `vscode-query` pairs unfiltered. The corrected halves stand beside them: `StripCommentsCorrected` with `StripCorrectedKeepsJsonMember`, and `CallbackQuery` with `CallbackQueryMembers` and the loop `RemoveWellKnownKeys`. Both listeners are modelled, as written (`HandleRequest`) and awaited (`HandleRequestAwaited`).
