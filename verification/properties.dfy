/**
 * What the handler promises about the response, stated against
 * characterisations that do not repeat its code: the last path segment
 * for the route fallback, the regular-expression semantics for the
 * service-worker header, and the manifest for push.
 */
module Properties {
  import opened Wrappers
  import opened Patterns
  import opened Server

  /** Application routes fall back to the entrypoint: a served file is the
      entrypoint when the last segment of the URL path has no '.', the
      root "/" included, and the absolutised path otherwise. */
  lemma ServedFileFollowsLastSegment(build: Option<Build>, req: Request, header: Header, env: Env)
    ensures var p := Dispatch(build, req, header, env);
            p.Serve? ==>
              && build.Some? && env.abs(req.path).Ok?
              && ('.' !in LastSegment(req.path) ==> p.filename == build.value.entrypoint)
              && ('.' in LastSegment(req.path) ==> p.filename == env.abs(req.path).value)
  {
    ExtensionIsDotInLastSegment(req.path);
    if req.path == "/" {
      assert LastSegment(req.path) == [];
    }
  }

  /** On the open-failure path the attempted file follows the same rule:
      for a route whose last segment has no '.', the entrypoint is opened,
      and its open error is the reply. */
  lemma OpenFailureOnEntrypoint(b: Build, req: Request, header: Header, env: Env)
    requires env.abs(req.path).Ok? && '.' !in LastSegment(req.path)
    requires env.open(b.entrypoint).Fail?
    ensures Dispatch(Some(b), req, header, env) == Error(StatusInternalServerError, env.open(b.entrypoint).error)
  {
    ExtensionIsDotInLastSegment(req.path);
  }

  /** The root path has an empty last segment, so the explicit `"/"` test
      in front of the extension test never changes which file is served. */
  lemma RootHasNoExtension()
    ensures LastSegment("/") == []
    ensures !MatchesExtensionRegex("/")
  {
  }

  /** Three typical routes: "/" and "/app/settings" are served from
      the entrypoint, "/static/app.js" from its absolute path. */
  lemma RouteExamples(b: Build, req: Request, header: Header, env: Env)
    requires env.abs(req.path).Ok?
    requires env.open(b.entrypoint).Pass? && env.open(env.abs(req.path).value).Pass?
    ensures req.path == "/" ==> Dispatch(Some(b), req, header, env).filename == b.entrypoint
    ensures req.path == "/app/settings" ==> Dispatch(Some(b), req, header, env).filename == b.entrypoint
    ensures req.path == "/static/app.js" ==>
              Dispatch(Some(b), req, header, env).filename == env.abs(req.path).value
  {
    RouteLiterals();
  }

  /** How the matchers classify the paths used in the lemmas below. */
  lemma RouteLiterals()
    ensures !HasFileExtension("/app/settings") && HasFileExtension("/static/app.js")
    ensures !HasFileExtension("/service-worker-js") && !HasFileExtension("/app")
    ensures IsServiceWorker("/service-worker-js") && !IsServiceWorker("/app")
  {
    NoDotNoExtension("/app/settings");
    NoDotNoExtension("/service-worker-js");
    NoDotNoExtension("/app");
    assert ExtensionAt("/static/app.js", 11);
    assert "/service-worker-js" == WithServiceWorkerName("/", '-');
    ServiceWorkerMatcherIsRegex("/service-worker-js");
    assert |"/app"| < ServiceWorkerMatchLength;
  }

  /** Path resolution runs before the entrypoint override: its failure is
      the reply even for a route that would be served from the entrypoint
      and whose entrypoint would open. */
  lemma ResolutionFailureBeatsEntrypoint(b: Build, req: Request, header: Header, env: Env)
    requires !HasFileExtension(req.path) && env.open(b.entrypoint).Pass?
    requires env.abs(req.path).Err?
    ensures Dispatch(Some(b), req, header, env) == Error(StatusInternalServerError, env.abs(req.path).error)
  {
  }

  /** The service-worker step sets exactly one header, to "/", and only
      when the raw URL path matches `service-worker.js$`; every other
      header is left as it was. */
  lemma ServiceWorkerHeaderRule(build: Option<Build>, req: Request, header: Header, env: Env)
    ensures var p := Dispatch(build, req, header, env);
            p.Serve? ==>
              && (MatchesServiceWorkerRegex(req.path) ==>
                    ServiceWorkerAllowed in p.headers && p.headers[ServiceWorkerAllowed] == [RootScope])
              && (!MatchesServiceWorkerRegex(req.path) ==> p.headers == header)
              && (forall k :: k != ServiceWorkerAllowed ==> (k in p.headers <==> k in header))
              && (forall k :: k != ServiceWorkerAllowed && k in header ==> p.headers[k] == header[k])
  {
    ServiceWorkerMatcherIsRegex(req.path);
  }

  /** The header follows the raw URL path, not the served file: the route
      "/service-worker-js" (the '-' fills the wildcard) is served from the
      entrypoint with the header, and the route "/app" is served from an
      entrypoint named "/service-worker.js" without it. */
  lemma ServiceWorkerHeaderFollowsRawPath(b: Build, req: Request, header: Header, env: Env)
    requires ServiceWorkerAllowed !in header
    requires env.abs(req.path).Ok? && env.open(b.entrypoint).Pass?
    ensures req.path == "/service-worker-js" ==>
              var p := Dispatch(Some(b), req, header, env);
              p.filename == b.entrypoint && ServiceWorkerAllowed in p.headers
    ensures req.path == "/app" && b.entrypoint == "/service-worker.js" ==>
              var p := Dispatch(Some(b), req, header, env);
              IsServiceWorker(p.filename) && ServiceWorkerAllowed !in p.headers
  {
    RouteLiterals();
  }

  /** Push follows the manifest entry of the served file: a preload call is
      made exactly when the build has a manifest with an entry under that
      exact name, and it carries that entry, the request host and the
      chosen scheme. */
  lemma PushKeyedOnServedFile(build: Option<Build>, req: Request, header: Header, env: Env)
    ensures var p := Dispatch(build, req, header, env);
            p.Serve? ==>
              && (p.push.Some? <==> build.value.pushManifest.Some? && p.filename in build.value.pushManifest.value)
              && (p.push.Some? ==>
                    && p.push.value.assets == build.value.pushManifest.value[p.filename]
                    && p.push.value.host == req.host
                    && p.push.value.scheme == Scheme(req.forwardedProto, req.tls))
  {
  }

  /** Push for the root route when the manifest has an "/index.html"
      entry: the entry is pushed with scheme "http" on a plain connection,
      "https" when the forwarded protocol says so, and the forwarded
      protocol wins over TLS. */
  lemma PushSchemeExamples(req: Request, header: Header, env: Env)
    requires req.path == "/" && env.abs("/").Ok? && env.open("/index.html").Pass?
    ensures var assets := [Asset("/app.js", "script"), Asset("/app.css", "style")];
            var b := Build("/index.html", Some(map["/index.html" := assets]));
            var p := Dispatch(Some(b), req, header, env);
            && p.push == Some(Push(Scheme(req.forwardedProto, req.tls), req.host, assets))
            && (req.forwardedProto == "" && !req.tls ==> p.push.value.scheme == "http")
            && (req.forwardedProto == "https" ==> p.push.value.scheme == "https")
            && (req.forwardedProto == "http" && req.tls ==> p.push.value.scheme == "http")
  {
  }
}
