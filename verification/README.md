# prpl-server-go request dispatch, in Dafny

This project models the request handler of prpl-server-go, a server for the
PRPL pattern (push, render, pre-cache, lazy-load). For each request the
handler takes the build chosen for the browser and decides what to reply:

- an error when no build suits the browser;
- an error when the URL path cannot be made absolute;
- an error when the file cannot be opened;
- otherwise the file itself, with the `Service-Worker-Allowed: /` header for
  the service-worker script and HTTP/2 push hints from the build's push
  manifest.

Application routes have no file extension. For them, and for the root `/`,
the build's entrypoint is served.

Modules:

- `Wrappers` (wrappers.dfy): `Option`, `Result` and `Outcome`. They stand in
  for Go's nil values and `(value, error)` returns.
- `Patterns` (patterns.dfy): the two routing regular expressions,
  `\.[^/]*$` and `service-worker.js$`, as hand-written string matchers. Each
  matcher is proved equal to a ghost predicate. That predicate states what
  Go's regexp search accepts for the pattern.
- `Server` (server.dfy): the build, the request, the
  header map and the response plan. `Dispatch` is the whole decision as
  one pure function. It returns `Error(status, message)` or
  `Serve(filename, contentName, headers, push)`.
- `Effects` (effects.dfy): the same handler read as the ordered log of calls
  it makes on its collaborators, including the deferred `file.Close()`. The
  module also has a response writer that replays such a log. Only the first
  status and headers count, because a later `WriteHeader` is ignored. The
  handler never writes twice, so the writer does not model a second body
  write.
- `Lifecycle` (lifecycle.dfy): facts about the log. Replaying it yields
  exactly the plan of `Dispatch`. An opened file is closed exactly once,
  and that close is the last call. Headers are set before the content is
  sent. Each failing step ends the request at once.
- `Properties` (properties.dfy): the promises about the response, stated
  against independent characterisations:
  - the last path segment, for the entrypoint fallback;
  - the regular-expression semantics, for the service-worker header;
  - the manifest entry of the served file, for push.

Strings are sequences of characters, read as Go runes. Go's regexp is used
with `MatchString`, which searches anywhere in the text. Under Go's default
flags:

- `$` matches only at the end of the text.
- `.` matches any character except a newline.
- `[^/]` matches every character except `/`, a newline included.

Some behaviours of the code are easy to misread; the model follows the
code:

- A browser with no suitable build gets status 500
  (`http.StatusInternalServerError`), not a client-error status.
- The service-worker pattern leaves its `.` unescaped. So `/service-worker-js`
  matches too, and any one character other than a newline may stand between
  `service-worker` and `js`.
- The `Service-Worker-Allowed` test reads the raw URL path, not the resolved
  file name. A route such as `/service-worker-js` is served from the
  entrypoint and still gets the header.
- `filepath.Abs` runs before the entrypoint override, so its failure is the
  reply even for `/` and for extensionless routes.
- The test `urlPath == "/"` never changes the outcome, because `/` has no
  extension anyway.

## Model

| member | source | states |
|---|---|---|
| Patterns.HasFileExtension | server.go:13-14 | the matcher holds exactly when the regexp search `\.[^/]*$` matches: some `.` has no `/` after it up to the end of the path |
| Patterns.ExtensionIsDotInLastSegment | server.go:13-14 | a path carries an extension exactly when the text after its last `/` contains a `.` |
| Patterns.ExtensionCommentExample | server.go:13-14 | the comment's example holds for both the regexp search and the hand-written matcher: "/foo/bar.png" matches and "/foo.png/bar" does not |
| Patterns.ServiceWorkerMatcherIsRegex | server.go:16-17 | the matcher holds exactly when the path ends with "service-worker", one character other than a newline, and "js" |
| Patterns.ServiceWorkerExamples | server.go:17 | "/sw/service-worker.js" and "/service-workerXjs" match; a newline in the wildcard slot, a trailing ".map" or "/other.js" do not |
| Server.Scheme | server.go:56-62 | the push scheme is never empty. It is the forwarded protocol when that header is set, else "https" exactly when TLS is present, else "http" |
| Server.Dispatch | server.go:21-71 | every error reply has status 500. No build gives "This browser is not supported". Otherwise a failing `Abs` gives its error text. Otherwise a failing open of the resolved file gives its error text. Otherwise that file is served under the raw URL path as content name |
| Properties.ServedFileFollowsLastSegment | server.go:30-39 | a served file is the build's entrypoint when the URL's last segment has no `.` (including "/"), and the absolutised URL path otherwise |
| Properties.OpenFailureOnEntrypoint | server.go:30-44 | when `Abs` succeeds on a route whose last segment has no `.`, the entrypoint is what gets opened: if that open fails, the reply is a 500 carrying the open error |
| Properties.RootHasNoExtension | server.go:37 | "/" has an empty last segment and no extension, so the separate root test never changes the served file |
| Properties.RouteExamples | server.go:30-39 | "/" and "/app/settings" are served from the entrypoint; "/static/app.js" is served from its absolute path |
| Properties.ResolutionFailureBeatsEntrypoint | server.go:31-39 | a failing `Abs` is the reply even for an extensionless route whose entrypoint would open |
| Properties.ServiceWorkerHeaderRule | server.go:48-53 | `Service-Worker-Allowed` is set to "/" exactly when the raw URL path matches `service-worker.js$`. Every other header keeps its presence and value |
| Properties.ServiceWorkerHeaderFollowsRawPath | server.go:30-53 | the route "/service-worker-js" is served from the entrypoint with the header. The route "/app" gets no header, even when the entrypoint it serves is "/service-worker.js" |
| Properties.PushKeyedOnServedFile | server.go:55-77 | a preload call is made exactly when the build has a manifest with an entry under the exact served file name. It carries that entry, the request host and the chosen scheme |
| Properties.PushSchemeExamples | server.go:55-75 | an "/index.html" entry is pushed for "/": with scheme "http" on a plain connection, "https" when forwarded as https, and the forwarded protocol beats TLS |
| Lifecycle.RunRealisesDispatch | server.go:21-77 | replaying the handler's call log on a fresh response writer yields exactly the reply `Dispatch` describes |
| Lifecycle.FileClosedExactlyOnce | server.go:41-46 | for every file, the number of closes equals the number of successful opens, and is at most one |
| Lifecycle.CloseIsLast | server.go:46-70 | a close, when there is one, is the handler's last call: nothing, the content included, is sent after the file is closed |
| Lifecycle.HeadersBeforeContent | server.go:51-70 | every header and preload call comes before the content is sent |
| Lifecycle.StepsRunInOrder | server.go:22-45 | no build means no path resolution and no open. An open comes right after a successful path resolution. Nothing follows an error reply. Every request ends with a reply or with the close. An error reply is the only reply call: no header, preload or content precedes it |

## Left out

- `findBuild` and `browserCapabilities`: their bodies are not part of this model. The selected build is an `Option<Build>` input, with `None` for "no build".
- `http2preload.AddHeader`: a foreign library whose header format is not visible. The plan records the call's arguments (scheme, host, assets) as a `Push` value, not the header lines the library writes.
- `filepath.Abs`: the working-directory lookup and path cleaning are not modelled. It is a function parameter returning a path or an error text.
- `p.root.Open`, the file's bytes and `http.ServeContent` (content type, ranges, conditional requests, the `time.Now()` timestamp): these are I/O. Open is a function parameter returning success or an error text. Serving is recorded as the content name and the opened file.
- `http.Error`: only its status and message are kept. The model drops the `Content-Type` and `X-Content-Type-Options` headers it sets and the newline it appends to the body.
- Header name canonicalisation in `http.Header.Set`: the only name set, `Service-Worker-Allowed`, is already canonical.
- UTF-8 decoding: Go turns invalid bytes into U+FFFD before matching. Paths here are already sequences of characters.
- A second reply on one response writer: `http.Error` or `http.ServeContent` called after a first reply would still append to the body. The writer model keeps only the first reply, because the handler never replies twice.
- Concurrency of the HTTP server: the handler keeps no shared mutable state.
