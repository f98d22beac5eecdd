/**
 * Facts about the order of the handler's calls: the log replayed on a
 * response writer yields exactly the plan of `Dispatch`, an opened file is
 * closed exactly once and last, headers are set before the content is
 * sent, and each failing step ends the request at once.
 */
module Lifecycle {
  import opened Wrappers
  import opened Patterns
  import opened Server
  import opened Effects

  lemma {:induction false} ReplayAppend(a: seq<Effect>, b: seq<Effect>, w: Writer)
    ensures Replay(a + b, w) == Replay(b, Replay(a, w))
    decreases |a|
  {
    if |a| == 0 {
      assert a + b == b;
    } else {
      assert (a + b)[0] == a[0];
      assert (a + b)[1..] == a[1..] + b;
      ReplayAppend(a[1..], b, Step(w, a[0]));
    }
  }

  lemma ReplayOne(e: Effect, w: Writer)
    ensures Replay([e], w) == Step(w, e)
  {
  }

  /** The tail of a successful request: headers, push, content, close. */
  lemma ReplayServing(urlPath: string, push: Option<Push>, file: string, w: Writer)
    requires w.sent.None? && w.push.None?
    ensures Replay(ServiceWorkerEffects(urlPath) + PushEffects(push)
                   + [ServeContent(urlPath, file), Close(file)], w).sent
            == Some(Serve(file, urlPath, ServiceWorkerScope(w.header, urlPath), push))
  {
    var sw := ServiceWorkerEffects(urlPath);
    var pe := PushEffects(push);
    var tail := [ServeContent(urlPath, file), Close(file)];
    ReplayAppend(sw + pe, tail, w);
    ReplayAppend(sw, pe, w);
    var w1 := Replay(sw, w);
    if IsServiceWorker(urlPath) {
      ReplayOne(SetHeader(ServiceWorkerAllowed, RootScope), w);
    }
    assert w1 == w.(header := ServiceWorkerScope(w.header, urlPath));
    var w2 := Replay(pe, w1);
    if push.Some? {
      ReplayOne(Preload(push.value), w1);
    }
    assert w2 == w1.(push := push);
    ReplayAppend([ServeContent(urlPath, file)], [Close(file)], w2);
    ReplayOne(ServeContent(urlPath, file), w2);
    ReplayOne(Close(file), Step(w2, ServeContent(urlPath, file)));
  }

  /** Replaying the handler's calls on a fresh writer produces exactly the
      response `Dispatch` describes. */
  lemma RunRealisesDispatch(build: Option<Build>, req: Request, header: Header, env: Env)
    ensures Replay(Run(build, req, env), Writer(header, None, None)).sent
            == Some(Dispatch(build, req, header, env))
  {
    var w := Writer(header, None, None);
    match build
    case None =>
      ReplayOne(WriteError(StatusInternalServerError, UnsupportedBrowser), w);
    case Some(b) =>
      var urlPath := req.path;
      var resolved := env.abs(urlPath);
      var rest := Run(build, req, env)[1..];
      assert Run(build, req, env) == [Resolve(urlPath, resolved)] + rest;
      ReplayAppend([Resolve(urlPath, resolved)], rest, w);
      ReplayOne(Resolve(urlPath, resolved), w);
      match resolved
      case Err(e) =>
        ReplayOne(WriteError(StatusInternalServerError, e), w);
      case Ok(absPath) =>
        var f := ServedFile(urlPath, absPath, b.entrypoint);
        var outcome := env.open(f);
        var tail := rest[1..];
        assert rest == [Open(f, outcome)] + tail;
        ReplayAppend([Open(f, outcome)], tail, w);
        ReplayOne(Open(f, outcome), w);
        match outcome
        case Fail(e) =>
          ReplayOne(WriteError(StatusInternalServerError, e), w);
        case Pass =>
          ReplayServing(urlPath, PushFor(b, req, f), f, w);
  }

  /** How many times the call e occurs in the log t. */
  function Count(t: seq<Effect>, e: Effect): nat
    decreases |t|
  {
    if |t| == 0 then 0 else (if t[0] == e then 1 else 0) + Count(t[1..], e)
  }

  lemma {:induction false} CountAppend(a: seq<Effect>, b: seq<Effect>, e: Effect)
    ensures Count(a + b, e) == Count(a, e) + Count(b, e)
    decreases |a|
  {
    if |a| == 0 {
      assert a + b == b;
    } else {
      assert (a + b)[0] == a[0];
      assert (a + b)[1..] == a[1..] + b;
      CountAppend(a[1..], b, e);
    }
  }

  lemma {:induction false} CountAbsent(t: seq<Effect>, e: Effect)
    requires e !in t
    ensures Count(t, e) == 0
    decreases |t|
  {
    if |t| > 0 {
      assert t[0] in t;
      assert forall x :: x in t[1..] ==> x in t;
      CountAbsent(t[1..], e);
    }
  }

  /** Resource safety: for every file, the number of closes equals the
      number of successful opens, and is at most one. */
  lemma FileClosedExactlyOnce(build: Option<Build>, req: Request, env: Env)
    ensures var t := Run(build, req, env);
            forall f :: Count(t, Close(f)) == Count(t, Open(f, Pass)) <= 1
  {
    var t := Run(build, req, env);
    forall g
      ensures Count(t, Close(g)) == Count(t, Open(g, Pass)) <= 1
    {
      match build
      case None =>
        CountAbsent(t, Close(g));
        CountAbsent(t, Open(g, Pass));
      case Some(b) =>
        var resolve := Resolve(req.path, env.abs(req.path));
        match env.abs(req.path)
        case Err(e) =>
          assert t == [resolve, WriteError(StatusInternalServerError, e)];
          CountAbsent(t, Close(g));
          CountAbsent(t, Open(g, Pass));
        case Ok(absPath) =>
          var f := ServedFile(req.path, absPath, b.entrypoint);
          match env.open(f)
          case Fail(e) =>
            assert t == [resolve, Open(f, Fail(e)), WriteError(StatusInternalServerError, e)];
            CountAbsent(t, Close(g));
            CountAbsent(t, Open(g, Pass));
          case Pass =>
            var mid := ServiceWorkerEffects(req.path) + PushEffects(PushFor(b, req, f));
            assert t == [resolve, Open(f, Pass)] + mid + [ServeContent(req.path, f), Close(f)];
            ServingLogCounts(resolve, f, mid, req.path, g);
    }
  }

  /** Counting in the log of a request that opened `f`: only header calls
      stand between the open and the content. */
  lemma ServingLogCounts(resolve: Effect, f: string, mid: seq<Effect>, urlPath: string, g: string)
    requires resolve.Resolve?
    requires forall e :: e in mid ==> e.SetHeader? || e.Preload?
    ensures var t := [resolve, Open(f, Pass)] + mid + [ServeContent(urlPath, f), Close(f)];
            Count(t, Close(g)) == Count(t, Open(g, Pass)) <= 1
  {
    var head := [resolve, Open(f, Pass)];
    var tail := [ServeContent(urlPath, f), Close(f)];
    CountAppend(head + mid, tail, Close(g));
    CountAppend(head, mid, Close(g));
    CountAppend(head + mid, tail, Open(g, Pass));
    CountAppend(head, mid, Open(g, Pass));
    CountAbsent(mid, Close(g));
    CountAbsent(mid, Open(g, Pass));
    CountAbsent(head, Close(g));
    CountAbsent(tail, Open(g, Pass));
    assert head[1..] == [Open(f, Pass)] && tail[1..] == [Close(f)];
    CountAbsent([Close(f)][1..], Close(g));
    CountAbsent([Open(f, Pass)][1..], Open(g, Pass));
  }

  /** A close, when there is one, is the handler's last call. */
  lemma CloseIsLast(build: Option<Build>, req: Request, env: Env)
    ensures var t := Run(build, req, env);
            forall f :: Close(f) in t ==> t[|t| - 1] == Close(f)
  {
  }

  /** Every response header is set before the content is sent. */
  lemma HeadersBeforeContent(build: Option<Build>, req: Request, env: Env)
    ensures var t := Run(build, req, env);
            forall i, j ::
              0 <= i < |t| && 0 <= j < |t| && (t[i].SetHeader? || t[i].Preload?) && t[j].ServeContent?
              ==> i < j
  {
  }

  /** The steps run in order and every failure ends the request: no I/O
      without a build, no open unless path resolution succeeded, nothing
      after an error reply, every request ends with a reply or with the
      close that follows the content, and an error reply is the only reply
      call of its request: no header, preload or content precedes it. */
  lemma StepsRunInOrder(build: Option<Build>, req: Request, env: Env)
    ensures var t := Run(build, req, env);
            build.None? ==> forall e :: e in t ==> !e.Resolve? && !e.Open?
    ensures var t := Run(build, req, env);
            forall i :: 0 <= i < |t| && t[i].Open? ==> 0 < i && t[i - 1].Resolve? && t[i - 1].result.Ok?
    ensures var t := Run(build, req, env);
            forall i :: 0 <= i < |t| && t[i].WriteError? ==> i == |t| - 1
    ensures var t := Run(build, req, env);
            |t| > 0 && (t[|t| - 1].WriteError? || t[|t| - 1].Close?)
    ensures var t := Run(build, req, env);
            t[|t| - 1].WriteError? ==> forall e :: e in t ==> !e.SetHeader? && !e.Preload? && !e.ServeContent?
  {
  }
}
