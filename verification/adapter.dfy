/** adapter.py: ProxyAdapter's add_headers, build_response and send over the mw.py
    pool. Unlike greenmw's adapter it never raises on a status, the middleware is
    optional, and the header hook receives the proxy's `uuid` and `device`. */
module Adapter {
  import opened Base
  import opened ProxyPool
  import opened Routing
  import MeshPool

  /** `add_headers(request)` as written: it reads `request.proxy`, which send only
      attaches when there is a middleware; then the hook's output and the static
      headers are merged in, in that order. `hookOut` is what the hook returns. */
  function AddHeaders(hookOut: Headers, req: Request): (r: Result<Headers>)
    ensures r.Err? <==> req.proxy.None?
    ensures r.Err? ==> r.error == AttributeError("proxy")
    ensures r.Ok? ==>
      r.value.Keys == req.headers.Keys + req.proxy.value.headers.Keys + (if req.proxy.value.hasHook then hookOut.Keys else {})
    ensures r.Ok? ==> forall k :: k in req.proxy.value.headers ==> k in r.value && r.value[k] == req.proxy.value.headers[k]
    ensures r.Ok? && req.proxy.value.hasHook ==>
      forall k :: k in hookOut && k !in req.proxy.value.headers ==> k in r.value && r.value[k] == hookOut[k]
    ensures r.Ok? ==>
      forall k :: k in req.headers && k !in req.proxy.value.headers && !(req.proxy.value.hasHook && k in hookOut) ==>
        k in r.value && r.value[k] == req.headers[k]
  {
    if req.proxy.None? then Err(AttributeError("proxy"))
    else
      var p := req.proxy.value;
      if p.hasHook then Ok(Update(Update(req.headers, hookOut), p.headers))
      else Ok(Update(req.headers, p.headers))
  }

  /** add_headers as evidently intended: with no proxy attached it leaves the
      headers alone. */
  function AddHeadersFixed(hookOut: Headers, req: Request): (r: Result<Headers>)
    ensures r.Ok?
    ensures req.proxy.None? ==> r.value == req.headers
    ensures req.proxy.Some? ==> r == AddHeaders(hookOut, req)
  {
    if req.proxy.None? then Ok(req.headers) else AddHeaders(hookOut, req)
  }

  /** The headers send puts on the request: the proxy's static headers, then the
      hook's output, so the hook wins a clash. */
  function SendHeaders(h: Headers, p: Proxy, hookOut: Headers): (r: Headers)
    ensures r.Keys == h.Keys + p.headers.Keys + (if p.hasHook then hookOut.Keys else {})
    ensures p.hasHook ==> forall k :: k in hookOut ==> k in r && r[k] == hookOut[k]
    ensures forall k :: k in p.headers && !(p.hasHook && k in hookOut) ==> k in r && r[k] == p.headers[k]
    ensures forall k :: k in h && k !in p.headers && !(p.hasHook && k in hookOut) ==> k in r && r[k] == h[k]
  {
    var withStatic := Update(h, p.headers);
    if p.hasHook then Update(withStatic, hookOut) else withStatic
  }

  /** send merges the static headers and then the hook's (the hook wins a clash);
      add_headers, which runs afterwards inside the library's send, merges the
      hook's and then the static headers (static wins). The request that goes out
      therefore carries the static headers over the hook's on a clash. */
  lemma HeaderPrecedence(h: Headers, p: Proxy, hookOut: Headers)
    ensures var sent := SendHeaders(h, p, hookOut);
      AddHeaders(hookOut, Request(sent, Some(p))) == Ok(if p.hasHook then Update(Update(h, hookOut), p.headers) else Update(h, p.headers))
  {
    var sent := SendHeaders(h, p, hookOut);
    if p.hasHook {
      UpdateIdempotent(Update(h, p.headers), hookOut);
      UpdateLastWins(h, p.headers, hookOut);
    } else {
      UpdateIdempotent(h, p.headers);
    }
  }

  /** build_response's classification, with the 5xx demotion `server` left as a
      parameter: the listed statuses and a decode failure other than
      JSONDecodeError demote through the guarded call, and the response is
      returned in every case that does not raise. */
  function BuildWith(server: (Option<Pool>, Option<Proxy>, Clock) -> Result<Option<Pool>>,
                     mw: Option<Pool>, req: Request, status: int, decode: Decode, rd: Readings): (h: Handled<Response>)
    ensures h.out.Returned? ==> h.out.value == Response(status, DataOf(decode), None)
    ensures (mw.None? || req.proxy.Some?) && !StartsWithFive(status) ==> h.out.Returned?
    ensures mw.None? && !StartsWithFive(status) ==> h == Handled(None, Returned(Response(status, DataOf(decode), None)))
    ensures h.out.Raised? && !StartsWithFive(status) ==>
      h.out.error == AttributeError("proxy") && mw.Some? && req.proxy.None?
  {
    var listed := if status in ListedCodes then Guarded(mw, req.proxy, rd.listed) else Ok(mw);
    match listed
    case Err(e) => Handled(mw, Raised(e))
    case Ok(mw1) =>
      var decoded := if decode == OtherDecodeError then Guarded(mw1, req.proxy, rd.decode) else Ok(mw1);
      match decoded
      case Err(e) => Handled(mw1, Raised(e))
      case Ok(mw2) =>
        var response := Response(status, DataOf(decode), None);
        if !StartsWithFive(status) then Handled(mw2, Returned(response))
        else
          match server(mw2, req.proxy, rd.server)
          case Err(e) => Handled(mw2, Raised(e))
          case Ok(mw3) => Handled(mw3, Returned(response))
  }

  /** `build_response(req, resp)` as written: the 5xx branch calls
      mark_proxy_dead without checking that there is a middleware. */
  function BuildResponse(mw: Option<Pool>, req: Request, status: int, decode: Decode, rd: Readings): (h: Handled<Response>)
    ensures mw.Some? && req.proxy.Some? ==> h.out == Returned(Response(status, DataOf(decode), None))
    ensures mw.None? ==> h.mw == None
    ensures mw.None? && StartsWithFive(status) ==> h.out == Raised(AttributeError("mark_proxy_dead"))
    ensures mw.None? && !StartsWithFive(status) ==> h.out == Returned(Response(status, DataOf(decode), None))
  {
    BuildWith(Unguarded, mw, req, status, decode, rd)
  }

  /** build_response with the 5xx demotion guarded like the others: it never
      raises once a proxy is attached or there is no middleware. */
  function BuildResponseFixed(mw: Option<Pool>, req: Request, status: int, decode: Decode, rd: Readings): (h: Handled<Response>)
    ensures mw.None? || req.proxy.Some? ==> h.out == Returned(Response(status, DataOf(decode), None))
    ensures mw.None? ==> h.mw == None
    ensures mw.Some? ==> h == BuildResponse(mw, req, status, decode, rd)
  {
    BuildWith(Guarded, mw, req, status, decode, rd)
  }

  /** The number of mark_proxy_dead calls build_response makes for a proxy the
      pool holds: one for a listed status, one for a failed decode, one for a
      status starting with '5'. A status alone demotes at most once, since no
      listed status starts with '5'. */
  lemma BuildResponseDemotions(pool: Pool, p: Proxy, req: Request, status: int, decode: Decode, rd: Readings)
    requires req.proxy == Some(p) && p.id in pool.byId
    ensures var h := BuildResponse(Some(pool), req, status, decode, rd);
      var byStatus := (if status in ListedCodes then 1 else 0) + (if StartsWithFive(status) then 1 else 0);
      && byStatus <= 1
      && h.mw.Some? && h.mw.value.byId.Keys == pool.byId.Keys
      && h.mw.value.byId[p.id].failedAttempts ==
           pool.byId[p.id].failedAttempts + byStatus + (if decode == OtherDecodeError then 1 else 0)
      && (byStatus + (if decode == OtherDecodeError then 1 else 0) > 0 ==> p.id in h.mw.value.dead)
      && (byStatus + (if decode == OtherDecodeError then 1 else 0) == 0 ==> h.mw == Some(pool))
      && (forall k :: k in pool.byId && k != p.id ==> h.mw.value.byId[k] == pool.byId[k])
      && (Sound(pool) ==> Sound(h.mw.value))
  {
    if status in ListedCodes {
      ListedNotServerError(status);
    }
    var listed := if status in ListedCodes then MarkDead(pool, p.id, rd.listed) else pool;
    var decoded := if decode == OtherDecodeError then MarkDead(listed, p.id, rd.decode) else listed;
    var served := if StartsWithFive(status) then MarkDead(decoded, p.id, rd.server) else decoded;
    MarkDeadKeepsInvariants(pool, p.id, rd.listed);
    MarkDeadKeepsInvariants(listed, p.id, rd.decode);
    MarkDeadKeepsInvariants(decoded, p.id, rd.server);
    assert BuildResponse(Some(pool), req, status, decode, rd).mw == Some(served);
    assert listed.byId.Keys == pool.byId.Keys && p.id in listed.byId;
    assert decoded.byId.Keys == pool.byId.Keys && p.id in decoded.byId;
    assert served.byId[p.id].failedAttempts ==
      pool.byId[p.id].failedAttempts + (if status in ListedCodes then 1 else 0)
        + (if decode == OtherDecodeError then 1 else 0) + (if StartsWithFive(status) then 1 else 0);
  }

  /** build_response with its readings fixed, as written and corrected. */
  function Builder(rd: Readings): (Option<Pool>, Request, int, Decode) -> Handled<Response>
  {
    (mw, req, status, decode) => BuildResponse(mw, req, status, decode, rd)
  }

  function FixedBuilder(rd: Readings): (Option<Pool>, Request, int, Decode) -> Handled<Response>
  {
    (mw, req, status, decode) => BuildResponseFixed(mw, req, status, decode, rd)
  }

  /** send's body around the library call, with add_headers and build_response
      given: with no middleware the request goes out untouched with the caller's
      `proxies`; otherwise a proxy is selected (resetting once if needed), attached,
      its headers merged, and its `formatted` routes replace the caller's. */
  function SendWith(add: Request -> Result<Headers>,
                    build: (Option<Pool>, Request, int, Decode) -> Handled<Response>,
                    get: Pool -> Step<Option<Proxy>>, mw: Option<Pool>, req: Request,
                    callerProxies: Option<Routes>, hookOut: Headers, ex: Exchange, rd: Readings): (s: Sent)
    ensures mw.None? ==> s == Transmit(add, build, None, req, callerProxies, ex, rd)
    ensures mw.Some? && Select(get, mw.value).out.Returned? ==>
      var sel := Select(get, mw.value);
      && s.dispatch == Handed(Some(Formatted(sel.out.value)))
      && s == Transmit(add, build, Some(sel.pool),
                       Request(SendHeaders(req.headers, sel.out.value, hookOut), Some(sel.out.value)),
                       Some(Formatted(sel.out.value)), ex, rd)
    ensures mw.Some? && !Select(get, mw.value).out.Returned? ==>
      s.dispatch == NotSent && s.mw == Some(Select(get, mw.value).pool) && !s.out.Returned?
  {
    if mw.None? then Transmit(add, build, None, req, callerProxies, ex, rd)
    else
      var sel := Select(get, mw.value);
      match sel.out
      case Raised(e) => Sent(Some(sel.pool), req, NotSent, Raised(e))
      case Diverges => Sent(Some(sel.pool), req, NotSent, Diverges)
      case Returned(p) =>
        var req1 := Request(SendHeaders(req.headers, p, hookOut), Some(p));
        Transmit(add, build, Some(sel.pool), req1, Some(Formatted(p)), ex, rd)
  }

  /** `send(request, proxies=...)` as written. */
  function Send(get: Pool -> Step<Option<Proxy>>, mw: Option<Pool>, req: Request,
                callerProxies: Option<Routes>, hookOut: Headers, ex: Exchange, rd: Readings): (s: Sent)
    ensures mw.None? && req.proxy.None? ==> s == Sent(None, req, Handed(callerProxies), Raised(AttributeError("proxy")))
    ensures mw.Some? && s.dispatch.Handed? ==>
      s.request.proxy.Some? && s.dispatch == Handed(Some(Formatted(s.request.proxy.value)))
  {
    SendWith(r => AddHeaders(hookOut, r), Builder(rd), get, mw, req, callerProxies, hookOut, ex, rd)
  }

  /** send with add_headers and build_response corrected. */
  function SendFixed(get: Pool -> Step<Option<Proxy>>, mw: Option<Pool>, req: Request,
                     callerProxies: Option<Routes>, hookOut: Headers, ex: Exchange, rd: Readings): (s: Sent)
    ensures mw.Some? ==> s == Send(get, mw, req, callerProxies, hookOut, ex, rd)
  {
    SendWith(r => AddHeadersFixed(hookOut, r), FixedBuilder(rd), get, mw, req, callerProxies, hookOut, ex, rd)
  }

  /** Without a middleware, the corrected send passes the request and the caller's
      `proxies` through unchanged: a transport failure is re-raised and an answer
      is returned, whatever its status. */
  lemma FixedPassThrough(get: Pool -> Step<Option<Proxy>>, req: Request, callerProxies: Option<Routes>,
                         hookOut: Headers, ex: Exchange, rd: Readings)
    requires req.proxy.None?
    ensures var s := SendFixed(get, None, req, callerProxies, hookOut, ex, rd);
      && s.mw == None && s.request == req && s.dispatch == Handed(callerProxies)
      && (ex.TransportFailure? ==> s.out == Raised(TransportError(ex.detail)))
      && (ex.Answered? ==> s.out == Returned(Response(ex.status, DataOf(ex.decode), None)))
  {
  }

  /** The mw.py pool's get_proxy with its mesh and random choices fixed. */
  function Getter(mesh: MeshPool.Mesh, pick: set<Id> -> Id): Pool -> Step<Option<Proxy>>
    requires Chooser(pick)
  {
    pool => MeshPool.GetProxy(pool, mesh, pick)
  }

  /** With a middleware, send raises "No Proxy Available after reset()" exactly
      when get_proxy gives None both before and after reset. */
  lemma FailsOnlyAfterReset(mesh: MeshPool.Mesh, pick: set<Id> -> Id, pool: Pool, req: Request,
                            callerProxies: Option<Routes>, hookOut: Headers, ex: Exchange, rd: Readings)
    requires Chooser(pick)
    ensures var first := MeshPool.GetProxy(pool, mesh, pick);
      Send(Getter(mesh, pick), Some(pool), req, callerProxies, hookOut, ex, rd).out == Raised(NoProxyAvailable)
      <==> first.out == Returned(None) && MeshPool.GetProxy(Reset(first.pool), mesh, pick).out == Returned(None)
  {
    var get := Getter(mesh, pick);
    var sel := Select(get, pool);
    var s := Send(get, Some(pool), req, callerProxies, hookOut, ex, rd);
    if sel.out.Returned? {
      var p := sel.out.value;
      var sent := Request(SendHeaders(req.headers, p, hookOut), Some(p));
      assert AddHeaders(hookOut, sent).Ok?;
      assert s.out != Raised(NoProxyAvailable);
    }
  }

  /** A transport failure after a proxy was selected demotes it exactly once and
      re-raises the same failure. */
  lemma TransportFailureDemotesOnce(get: Pool -> Step<Option<Proxy>>, pool: Pool, req: Request,
                                    callerProxies: Option<Routes>, hookOut: Headers, detail: string, rd: Readings)
    requires Select(get, pool).out.Returned?
    ensures var sel := Select(get, pool);
      var p := sel.out.value;
      var s := Send(get, Some(pool), req, callerProxies, hookOut, TransportFailure(detail), rd);
      && s.out == Raised(TransportError(detail))
      && s.dispatch == Handed(Some(Formatted(p)))
      && s.mw == Some(MarkDead(sel.pool, p.id, rd.handler))
  {
  }

  /** A listed status is demoted once and the answer is still returned; any
      answer to a request with a selected proxy is returned. */
  lemma AnswerReturned(get: Pool -> Step<Option<Proxy>>, pool: Pool, req: Request,
                       callerProxies: Option<Routes>, hookOut: Headers, status: int, decode: Decode, rd: Readings)
    requires Select(get, pool).out.Returned?
    ensures var sel := Select(get, pool);
      var p := sel.out.value;
      var s := Send(get, Some(pool), req, callerProxies, hookOut, Answered(status, decode), rd);
      && s.out == Returned(Response(status, DataOf(decode), None))
      && (status in ListedCodes && decode != OtherDecodeError ==>
            s.mw == Some(MarkDead(sel.pool, p.id, rd.listed)))
      && (!StartsWithFive(status) && status !in ListedCodes && decode != OtherDecodeError ==>
            s.mw == Some(sel.pool))
  {
    var sel := Select(get, pool);
    var p := sel.out.value;
    var sent := Request(SendHeaders(req.headers, p, hookOut), Some(p));
    var h := AddHeaders(hookOut, sent);
    assert h.Ok?;
    var req2 := sent.(headers := h.value);
    var b := BuildResponse(Some(sel.pool), req2, status, decode, rd);
    assert b.out == Returned(Response(status, DataOf(decode), None));
    var s := Send(get, Some(pool), req, callerProxies, hookOut, Answered(status, decode), rd);
    assert s == Transmit(r => AddHeaders(hookOut, r), Builder(rd), Some(sel.pool), sent,
                         Some(Formatted(p)), Answered(status, decode), rd);
    assert s.mw == b.mw && s.out == b.out;
    if status in ListedCodes {
      ListedNotServerError(status);
    }
  }

  /** Without a mesh, send's selection keeps the pool's invariant and hands out a
      proxy the pool holds. */
  lemma SelectKeepsSound(pick: set<Id> -> Id, pool: Pool)
    requires Chooser(pick) && Sound(pool)
    ensures var sel := Select(Getter(MeshPool.NoMesh, pick), pool);
      && Sound(sel.pool)
      && (sel.out.Returned? ==> sel.out.value.id in sel.pool.byId)
  {
    var first := MeshPool.GetProxy(pool, MeshPool.NoMesh, pick);
    MeshPool.GetProxyKeepsSound(pool, pick);
    if first.out == Returned(None) {
      ResetKeepsSound(first.pool);
      MeshPool.GetProxyKeepsSound(Reset(first.pool), pick);
    }
  }

  /** Without a mesh, a send keeps the pool's invariant whatever the exchange: the
      selection, the reset it may need, and every demotion keep it. */
  lemma SendKeepsSound(pick: set<Id> -> Id, pool: Pool, req: Request, callerProxies: Option<Routes>,
                       hookOut: Headers, ex: Exchange, rd: Readings)
    requires Chooser(pick) && Sound(pool)
    ensures var s := Send(Getter(MeshPool.NoMesh, pick), Some(pool), req, callerProxies, hookOut, ex, rd);
      s.mw.Some? && Sound(s.mw.value)
  {
    var get := Getter(MeshPool.NoMesh, pick);
    var sel := Select(get, pool);
    SelectKeepsSound(pick, pool);
    var s := Send(get, Some(pool), req, callerProxies, hookOut, ex, rd);
    if sel.out.Returned? {
      var p := sel.out.value;
      var sent := Request(SendHeaders(req.headers, p, hookOut), Some(p));
      var add := r => AddHeaders(hookOut, r);
      assert s == Transmit(add, Builder(rd), Some(sel.pool), sent, Some(Formatted(p)), ex, rd);
      var req2 := sent.(headers := AddHeaders(hookOut, sent).value);
      match ex
      case TransportFailure(d) =>
        MarkDeadKeepsInvariants(sel.pool, p.id, rd.handler);
        assert s == Handler(Some(sel.pool), req2, Some(Formatted(p)), TransportError(d), rd);
      case Answered(status, decode) =>
        BuildResponseDemotions(sel.pool, p, req2, status, decode, rd);
        var b := BuildResponse(Some(sel.pool), req2, status, decode, rd);
        assert s.mw == b.mw;
    }
  }
}
