/**
 * The same handler read as the sequence of calls it makes on its
 * collaborators, in order, including the deferred `file.Close()`; and a
 * response writer that turns such a sequence into what the client sees.
 */
module Effects {
  import opened Wrappers
  import opened Patterns
  import opened Server

  /** One call the handler makes, with the answer it got where it reads one. */
  datatype Effect =
    | Resolve(path: string, result: Result<string>)   // filepath.Abs
    | Open(name: string, outcome: Outcome)            // p.root.Open
    | WriteError(status: int, message: string)        // http.Error
    | SetHeader(name: string, value: string)          // w.Header().Set
    | Preload(push: Push)                             // http2preload.AddHeader
    | ServeContent(name: string, file: string)        // http.ServeContent on the opened file
    | Close(file: string)                             // deferred file.Close

  /** The calls `ServeHTTP` makes for one request, in the order it makes them. */
  function Run(build: Option<Build>, req: Request, env: Env): seq<Effect>
  {
    match build
    case None => [WriteError(StatusInternalServerError, UnsupportedBrowser)]
    case Some(b) =>
      var urlPath := req.path;
      var resolved := env.abs(urlPath);
      [Resolve(urlPath, resolved)] +
      (match resolved
       case Err(e) => [WriteError(StatusInternalServerError, e)]
       case Ok(absPath) =>
         var serveFilename := ServedFile(urlPath, absPath, b.entrypoint);
         var outcome := env.open(serveFilename);
         [Open(serveFilename, outcome)] +
         (match outcome
          case Fail(e) => [WriteError(StatusInternalServerError, e)]
          case Pass =>
            ServiceWorkerEffects(urlPath)
            + PushEffects(PushFor(b, req, serveFilename))
            + [ServeContent(urlPath, serveFilename), Close(serveFilename)]))
  }

  function ServiceWorkerEffects(urlPath: string): seq<Effect>
  {
    if IsServiceWorker(urlPath) then [SetHeader(ServiceWorkerAllowed, RootScope)] else []
  }

  function PushEffects(push: Option<Push>): seq<Effect>
  {
    match push
    case None => []
    case Some(p) => [Preload(p)]
  }

  /** A response writer: its header map, the preload call made on it, and
      the reply once one has been written. */
  datatype Writer = Writer(header: Header, push: Option<Push>, sent: Option<Plan>)

  /** The writer after one call. Only the first status and headers count,
      as with `http.ResponseWriter`, where a later `WriteHeader` is ignored.
      The handler never replies twice, so a second body write is not
      modelled. */
  function Step(w: Writer, e: Effect): Writer
  {
    match e
    case WriteError(status, message) =>
      if w.sent.Some? then w else w.(sent := Some(Error(status, message)))
    case SetHeader(name, value) => w.(header := w.header[name := [value]])
    case Preload(p) => w.(push := Some(p))
    case ServeContent(name, file) =>
      if w.sent.Some? then w else w.(sent := Some(Serve(file, name, w.header, w.push)))
    case Resolve(_, _) => w
    case Open(_, _) => w
    case Close(_) => w
  }

  /** The writer after a sequence of calls, first to last. */
  function Replay(t: seq<Effect>, w: Writer): Writer
    decreases |t|
  {
    if |t| == 0 then w else Replay(t[1..], Step(w, t[0]))
  }
}
