/**
 * The request handler of server.go: `(*prpl).ServeHTTP` and
 * `(*build).addHeaders`, as one pure decision from the request and the
 * answers of the handler's collaborators to the response it produces.
 */
module Server {
  import opened Wrappers
  import opened Patterns

  /** `http.StatusInternalServerError`, used on every error path. */
  const StatusInternalServerError: int := 500

  /** Body text when no build suits the browser. */
  const UnsupportedBrowser := "This browser is not supported"

  /** Header that lets a service worker claim a scope above its own path. */
  const ServiceWorkerAllowed := "Service-Worker-Allowed"
  const RootScope := "/"

  /** One resource named by a push manifest. The handler passes these to
      the preload library unread, so only their identity matters here. */
  datatype Asset = Asset(path: string, kind: string)

  /** Served file name -> resources to push along with it. */
  type Manifest = map<string, seq<Asset>>

  /** A selected build: the file served for application routes and an
      optional (possibly nil) push manifest. */
  datatype Build = Build(entrypoint: string, pushManifest: Option<Manifest>)

  /** The parts of an `http.Request` the handler reads. `forwardedProto` is
      the value of the `x-forwarded-proto` header, "" when absent, as
      `Header.Get` returns it; `tls` says whether `r.TLS` is non-nil. */
  datatype Request = Request(path: string, forwardedProto: string, tls: bool, host: string)

  /** The collaborators whose answers steer the handler: `filepath.Abs`
      and the root file system's `Open`. */
  datatype Env = Env(abs: string -> Result<string>, open: string -> Outcome)

  /** Response header map: canonical name -> values, as `http.Header`. */
  type Header = map<string, seq<string>>

  /** The arguments handed to `http2preload.AddHeader`. */
  datatype Push = Push(scheme: string, host: string, assets: seq<Asset>)

  /** What the client receives: an `http.Error` reply, or the content of
      `filename` sent by `http.ServeContent` under the name `contentName`
      with the response headers `headers` and, when present, the push
      directives of `push` added to them. */
  datatype Plan =
    | Error(status: int, message: string)
    | Serve(filename: string, contentName: string, headers: Header, push: Option<Push>)

  /** The file to open: the build's entrypoint for the root and for paths
      without an extension (client-side routes), else the absolute path. */
  function ServedFile(urlPath: string, absPath: string, entrypoint: string): string
  {
    if urlPath == "/" || !HasFileExtension(urlPath) then entrypoint else absPath
  }

  /** The scheme used in push directives: the forwarded protocol when the
      header is set, else "https" over TLS, else "http". */
  function Scheme(forwardedProto: string, tls: bool): (s: string)
    ensures s != ""
    ensures forwardedProto != "" ==> s == forwardedProto
    ensures forwardedProto == "" ==> (tls <==> s == "https")
    ensures forwardedProto == "" ==> (!tls <==> s == "http")
  {
    var s0 := forwardedProto;
    var s1 := if s0 == "" && tls then "https" else s0;
    if s1 == "" then "http" else s1
  }

  /** Header map after the service-worker step. */
  function ServiceWorkerScope(header: Header, urlPath: string): Header
  {
    if IsServiceWorker(urlPath) then header[ServiceWorkerAllowed := [RootScope]] else header
  }

  /** `addHeaders`: the preload call made for `filename`, if the manifest
      has an entry under exactly that name. */
  function AddHeaders(manifest: Manifest, scheme: string, host: string, filename: string): Option<Push>
  {
    if filename in manifest then Some(Push(scheme, host, manifest[filename])) else None
  }

  /** The push step: only a build with a manifest computes a scheme and
      looks the served file up. */
  function PushFor(build: Build, req: Request, filename: string): Option<Push>
  {
    match build.pushManifest
    case None => None
    case Some(manifest) => AddHeaders(manifest, Scheme(req.forwardedProto, req.tls), req.host, filename)
  }

  /** The response to `req` given the selected build (None when no build
      suits the browser), the header map the handler starts from and the
      collaborators' answers. The steps exit early in the order: no build,
      path resolution failure, open failure. */
  function Dispatch(build: Option<Build>, req: Request, header: Header, env: Env): (p: Plan)
    ensures p.Error? ==> p.status == StatusInternalServerError
    ensures build.None? ==> p == Error(StatusInternalServerError, UnsupportedBrowser)
    ensures build.Some? && env.abs(req.path).Err? ==> p == Error(StatusInternalServerError, env.abs(req.path).error)
    ensures build.Some? && env.abs(req.path).Ok? ==>
              var f := ServedFile(req.path, env.abs(req.path).value, build.value.entrypoint);
              (env.open(f).Fail? ==> p == Error(StatusInternalServerError, env.open(f).error))
              && (env.open(f).Pass? ==> p.Serve? && p.filename == f && p.contentName == req.path)
  {
    match build
    case None => Error(StatusInternalServerError, UnsupportedBrowser)
    case Some(b) =>
      var urlPath := req.path;
      match env.abs(urlPath)
      case Err(e) => Error(StatusInternalServerError, e)
      case Ok(absPath) =>
        var serveFilename := ServedFile(urlPath, absPath, b.entrypoint);
        match env.open(serveFilename)
        case Fail(e) => Error(StatusInternalServerError, e)
        case Pass =>
          Serve(serveFilename, urlPath, ServiceWorkerScope(header, urlPath), PushFor(b, req, serveFilename))
  }
}
