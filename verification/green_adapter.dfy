/** greenmw/adapter.py: ProxyAdapter's retry configuration, add_headers,
    build_response and send, over the greenmw pool. */
module GreenAdapter {
  import opened Base
  import opened ProxyPool
  import opened Routing
  import GreenPool

  /** The exception class the constructor appends to `retry_on_exceptions`. */
  const StatusCodeExceptionName: string := "StatusCodeException"

  /** The settings `__init__` stores for the retry decorator; exception classes are
      named by strings. */
  datatype Config = Config(
    retryOnExceptions: seq<string>,
    retryOnStatusCodes: seq<int>,
    tries: int,
    delay: int,
    backoff: int,
    maxDelay: int,
    jitter: int)

  /** `ProxyAdapter(retry_on_exceptions=..., retry_on_status_codes=..., ...)`: a
      non-empty status tuple is truthy, and then StatusCodeException joins the
      retried exceptions. */
  function NewAdapter(exceptions: seq<string>, codes: seq<int>, tries: int, delay: int,
                      backoff: int, maxDelay: int, jitter: int): (cfg: Config)
    ensures cfg.retryOnStatusCodes == codes
    ensures cfg.tries == tries && cfg.delay == delay && cfg.backoff == backoff
    ensures cfg.maxDelay == maxDelay && cfg.jitter == jitter
    ensures |cfg.retryOnExceptions| == |exceptions| + (if |codes| > 0 then 1 else 0)
    ensures cfg.retryOnExceptions[..|exceptions|] == exceptions
    ensures |codes| > 0 ==> cfg.retryOnExceptions[|exceptions|] == StatusCodeExceptionName
  {
    var retried := if |codes| > 0 then exceptions + [StatusCodeExceptionName] else exceptions;
    Config(retried, codes, tries, delay, backoff, maxDelay, jitter)
  }

  /** `ProxyAdapter()` with every default. */
  function DefaultAdapter(): Config
  {
    NewAdapter(["Exception"], ListedCodes, 3, 1, 2, 4, 0)
  }

  /** StatusCodeException is retried exactly when the status tuple is non-empty
      (unless the caller already listed it). */
  lemma RetriesOnStatus(exceptions: seq<string>, codes: seq<int>, tries: int, delay: int,
                        backoff: int, maxDelay: int, jitter: int)
    requires StatusCodeExceptionName !in exceptions
    ensures var cfg := NewAdapter(exceptions, codes, tries, delay, backoff, maxDelay, jitter);
      StatusCodeExceptionName in cfg.retryOnExceptions <==> |codes| > 0
  {
    var cfg := NewAdapter(exceptions, codes, tries, delay, backoff, maxDelay, jitter);
    if |codes| > 0 {
      assert cfg.retryOnExceptions[|exceptions|] == StatusCodeExceptionName;
    }
  }

  /** The defaults: everything is retried, StatusCodeException included, on the
      six listed statuses, three tries with delay 1 doubling up to 4 and no jitter. */
  lemma DefaultSettings()
    ensures DefaultAdapter() == Config(["Exception", StatusCodeExceptionName], ListedCodes, 3, 1, 2, 4, 0)
  {
    var cfg := DefaultAdapter();
    assert cfg.retryOnExceptions[..1] == ["Exception"];
  }

  /** `add_headers(request)`: a header hook is called as `hook(proxy.uuid, ...)`,
      and a greenmw Proxy has no `uuid` attribute, so that raises; otherwise the
      proxy's static headers are merged in. */
  function AddHeaders(req: Request): (r: Result<Headers>)
    ensures req.proxy.None? ==> r == Err(AttributeError("proxy"))
    ensures req.proxy.Some? && req.proxy.value.hasHook ==> r == Err(AttributeError("uuid"))
    ensures req.proxy.Some? && !req.proxy.value.hasHook ==>
      && r.Ok?
      && r.value.Keys == req.headers.Keys + req.proxy.value.headers.Keys
      && (forall k :: k in req.proxy.value.headers ==> r.value[k] == req.proxy.value.headers[k])
      && (forall k :: k in req.headers && k !in req.proxy.value.headers ==> r.value[k] == req.headers[k])
  {
    if req.proxy.None? then Err(AttributeError("proxy"))
    else if req.proxy.value.hasHook then Err(AttributeError("uuid"))
    else Ok(Update(req.headers, req.proxy.value.headers))
  }

  /** `response.proxy`, which is the request's proxy object itself. The model keeps
      mark_proxy_dead's changes to that object in the pool's record under its id,
      so once build_response has demoted a proxy the pool holds, the attached
      proxy is read back from the pool. */
  function Attached(mw: Option<Pool>, proxy: Proxy, demoted: bool): (a: Proxy)
    ensures !demoted ==> a == proxy
    ensures demoted && mw.Some? && proxy.id in mw.value.byId ==> a == mw.value.byId[proxy.id]
  {
    if demoted && mw.Some? && proxy.id in mw.value.byId then mw.value.byId[proxy.id] else proxy
  }

  /** send has already merged the proxy's static headers when the library calls
      add_headers, so for a proxy without a hook add_headers changes nothing more. */
  lemma AddHeadersAfterSend(h: Headers, p: Proxy)
    requires !p.hasHook
    ensures AddHeaders(Request(Update(h, p.headers), Some(p))) == Ok(Update(h, p.headers))
  {
    UpdateIdempotent(h, p.headers);
  }

  /** `build_response(req, resp)` once the library's response exists: a status in
      the retry set demotes the proxy (when there is a middleware) and raises; a
      decode failure other than JSONDecodeError demotes it and stores
      `{"success": "false"}`; a status whose text starts with '5' demotes it
      without a None-check on the middleware, and the response is returned with
      the (possibly demoted) proxy attached. */
  function BuildResponse(codes: seq<int>, mw: Option<Pool>, req: Request, status: int,
                         decode: Decode, rd: Readings): (h: Handled<Response>)
    ensures req.proxy.Some? && status in codes ==>
      h.out == Raised(StatusCodeException(status))
      && h.mw == (if mw.Some? then Some(MarkDead(mw.value, req.proxy.value.id, rd.listed)) else None)
    ensures req.proxy.Some? && mw.Some? && status !in codes ==>
      && h.mw.Some? && h.out.Returned?
      && h.out.value.status == status && h.out.value.data == DataOf(decode)
    ensures req.proxy.Some? && status !in codes && !StartsWithFive(status) && decode != OtherDecodeError ==>
      h == Handled(mw, Returned(Response(status, DataOf(decode), req.proxy)))
    ensures req.proxy.Some? && mw.Some? && status !in codes && (StartsWithFive(status) || decode == OtherDecodeError) ==>
      && h.mw.Some? && req.proxy.value.id in h.mw.value.dead
      && h.mw.value.byId.Keys == mw.value.byId.Keys
      && (req.proxy.value.id in mw.value.byId ==>
            && h.out.value.proxy == Some(h.mw.value.byId[req.proxy.value.id])
            && h.out.value.proxy.value.dead
            && h.out.value.proxy.value.failedAttempts > mw.value.byId[req.proxy.value.id].failedAttempts)
    ensures mw.None? && status !in codes && StartsWithFive(status) ==> h.out.Raised?
  {
    if status in codes then
      match Guarded(mw, req.proxy, rd.listed)
      case Err(e) => Handled(mw, Raised(e))
      case Ok(mw1) => Handled(mw1, Raised(StatusCodeException(status)))
    else
      var decoded := if decode == OtherDecodeError then Guarded(mw, req.proxy, rd.decode) else Ok(mw);
      match decoded
      case Err(e) => Handled(mw, Raised(e))
      case Ok(mw1) =>
        if req.proxy.None? then Handled(mw1, Raised(AttributeError("proxy")))
        else
          var p := req.proxy.value;
          if !StartsWithFive(status) then
            Handled(mw1, Returned(Response(status, DataOf(decode), Some(Attached(mw1, p, decode == OtherDecodeError)))))
          else
            match Unguarded(mw1, req.proxy, rd.server)
            case Err(e) => Handled(mw1, Raised(e))
            case Ok(mw2) => Handled(mw2, Returned(Response(status, DataOf(decode), Some(Attached(mw2, p, true)))))
  }

  /** The number of mark_proxy_dead calls build_response makes for a proxy the
      pool holds: one for a retry status and nothing else; otherwise one for a
      failed decode plus one for a status starting with '5'. */
  lemma BuildResponseDemotions(codes: seq<int>, pool: Pool, p: Proxy, req: Request, status: int,
                               decode: Decode, rd: Readings)
    requires req.proxy == Some(p) && p.id in pool.byId
    ensures var h := BuildResponse(codes, Some(pool), req, status, decode, rd);
      && h.mw.Some? && h.mw.value.byId.Keys == pool.byId.Keys
      && h.mw.value.byId[p.id].failedAttempts == pool.byId[p.id].failedAttempts +
           (if status in codes then 1
            else (if decode == OtherDecodeError then 1 else 0) + (if StartsWithFive(status) then 1 else 0))
      && forall k :: k in pool.byId && k != p.id ==> h.mw.value.byId[k] == pool.byId[k]
  {
    if status !in codes && decode == OtherDecodeError && StartsWithFive(status) {
      var once := MarkDead(pool, p.id, rd.decode);
      assert once.byId[p.id].failedAttempts == pool.byId[p.id].failedAttempts + 1;
    }
  }

  /** The adapter's build_response with its retry set and readings fixed. */
  function Builder(codes: seq<int>, rd: Readings): (Option<Pool>, Request, int, Decode) -> Handled<Response>
  {
    (mw, req, status, decode) => BuildResponse(codes, mw, req, status, decode, rd)
  }

  /** The greenmw pool's get_proxy as written, with its random choices fixed. */
  function Getter(pick: set<Id> -> Id): Pool -> Step<Option<Proxy>>
    requires Chooser(pick)
  {
    pool => GreenPool.GetProxy(pool, pick)
  }

  /** The same with set_new_proxies corrected. */
  function FixedGetter(pick: set<Id> -> Id): Pool -> Step<Option<Proxy>>
    requires Chooser(pick)
  {
    pool => GreenPool.GetProxyFixed(pool, pick)
  }

  /** `send(request, proxies=...)` (without the retry decorator). It calls
      get_proxy on the middleware unconditionally, so a missing middleware raises
      AttributeError; it selects a proxy (resetting once if needed), attaches it to
      the request, merges the proxy's headers, raises on a header hook, and hands
      the request to the library with `proxies = proxy.formatted`, whatever the
      caller passed. `get` is the middleware's get_proxy. */
  function Send(cfg: Config, get: Pool -> Step<Option<Proxy>>, mw: Option<Pool>, req: Request,
                callerProxies: Option<Routes>, ex: Exchange, rd: Readings): (s: Sent)
    ensures mw.None? ==> s == Sent(None, req, NotSent, Raised(AttributeError("get_proxy")))
    ensures s.dispatch.Handed? ==>
      && s.request.proxy.Some? && !s.request.proxy.value.hasHook
      && s.dispatch.proxies == Some(Formatted(s.request.proxy.value))
    ensures s.out.Returned? ==> s.dispatch.Handed? && ex.Answered? && s.out.value.status == ex.status
    ensures s.out == Raised(NoProxyAvailable) ==> mw.Some? && Select(get, mw.value).out == Raised(NoProxyAvailable)
  {
    if mw.None? then Sent(None, req, NotSent, Raised(AttributeError("get_proxy")))
    else
      var sel := Select(get, mw.value);
      match sel.out
      case Raised(e) => Sent(Some(sel.pool), req, NotSent, Raised(e))
      case Diverges => Sent(Some(sel.pool), req, NotSent, Diverges)
      case Returned(p) =>
        var req1 := Request(Update(req.headers, p.headers), Some(p));
        if p.hasHook then Sent(Some(sel.pool), req1, NotSent, Raised(AttributeError("uuid")))
        else Transmit(AddHeaders, Builder(cfg.retryOnStatusCodes, rd), Some(sel.pool), req1,
                      Some(Formatted(p)), ex, rd)
  }

  /** With the pool's get_proxy as written, send never reaches its reset branch:
      get_proxy raises instead of returning None, so "No Proxy Available after
      reset()" is never raised. */
  lemma NeverResets(cfg: Config, pick: set<Id> -> Id, pool: Pool, req: Request,
                    callerProxies: Option<Routes>, ex: Exchange, rd: Readings)
    requires Chooser(pick)
    ensures Select(Getter(pick), pool) == Step(GreenPool.GetProxy(pool, pick).pool,
      match GreenPool.GetProxy(pool, pick).out
      case Returned(p) => Returned(p.value)
      case Raised(e) => Raised(e)
      case Diverges => Diverges)
    ensures Send(cfg, Getter(pick), Some(pool), req, callerProxies, ex, rd).out != Raised(NoProxyAvailable)
  {
  }

  /** With set_new_proxies corrected, send raises "No Proxy Available after
      reset()" exactly when get_proxy gives None both before and after reset. */
  lemma FixedFailsOnlyAfterReset(cfg: Config, pick: set<Id> -> Id, pool: Pool, req: Request,
                                 callerProxies: Option<Routes>, ex: Exchange, rd: Readings)
    requires Chooser(pick)
    ensures var first := GreenPool.GetProxyFixed(pool, pick);
      Send(cfg, FixedGetter(pick), Some(pool), req, callerProxies, ex, rd).out == Raised(NoProxyAvailable)
      <==> first.out == Returned(None) && GreenPool.GetProxyFixed(Reset(first.pool), pick).out == Returned(None)
  {
  }

  /** A selected proxy with a header hook stops send before the library is called:
      the request carries the proxy and its static headers, and AttributeError
      escapes without a demotion. */
  lemma HookStopsSend(cfg: Config, get: Pool -> Step<Option<Proxy>>, pool: Pool, req: Request,
                      callerProxies: Option<Routes>, ex: Exchange, rd: Readings)
    requires Select(get, pool).out.Returned? && Select(get, pool).out.value.hasHook
    ensures var p := Select(get, pool).out.value;
      Send(cfg, get, Some(pool), req, callerProxies, ex, rd)
      == Sent(Some(Select(get, pool).pool), Request(Update(req.headers, p.headers), Some(p)), NotSent,
              Raised(AttributeError("uuid")))
  {
  }

  /** A transport failure after a proxy was selected demotes it exactly once and
      re-raises the same failure; the library was handed the proxy's routes. */
  lemma TransportFailureDemotesOnce(cfg: Config, get: Pool -> Step<Option<Proxy>>, pool: Pool, req: Request,
                                    callerProxies: Option<Routes>, detail: string, rd: Readings)
    requires Select(get, pool).out.Returned? && !Select(get, pool).out.value.hasHook
    ensures var sel := Select(get, pool);
      var p := sel.out.value;
      var s := Send(cfg, get, Some(pool), req, callerProxies, TransportFailure(detail), rd);
      && s.out == Raised(TransportError(detail))
      && s.dispatch == Handed(Some(Formatted(p)))
      && s.mw == Some(MarkDead(sel.pool, p.id, rd.handler))
      && s.request.headers == Update(req.headers, p.headers)
  {
    var p := Select(get, pool).out.value;
    UpdateIdempotent(req.headers, p.headers);
  }

  /** A retry status is demoted twice: once by build_response, and again by send's
      exception handler when the StatusCodeException passes through it. */
  lemma RetryStatusDemotesTwice(cfg: Config, get: Pool -> Step<Option<Proxy>>, pool: Pool, req: Request,
                                callerProxies: Option<Routes>, status: int, decode: Decode, rd: Readings)
    requires Select(get, pool).out.Returned? && !Select(get, pool).out.value.hasHook
    requires status in cfg.retryOnStatusCodes
    ensures var sel := Select(get, pool);
      var p := sel.out.value;
      var s := Send(cfg, get, Some(pool), req, callerProxies, Answered(status, decode), rd);
      && s.out == Raised(StatusCodeException(status))
      && s.mw == Some(MarkDead(MarkDead(sel.pool, p.id, rd.listed), p.id, rd.handler))
      && (p.id in sel.pool.byId ==>
            s.mw.value.byId[p.id].failedAttempts == sel.pool.byId[p.id].failedAttempts + 2)
  {
  }

  /** Any other answer is returned with the proxy attached, and the proxy is
      demoted only for a failed decode or a status starting with '5'; a demoted
      proxy is attached in its demoted state. */
  lemma AnswerReturned(cfg: Config, get: Pool -> Step<Option<Proxy>>, pool: Pool, req: Request,
                       callerProxies: Option<Routes>, status: int, decode: Decode, rd: Readings)
    requires Select(get, pool).out.Returned? && !Select(get, pool).out.value.hasHook
    requires status !in cfg.retryOnStatusCodes
    ensures var sel := Select(get, pool);
      var p := sel.out.value;
      var s := Send(cfg, get, Some(pool), req, callerProxies, Answered(status, decode), rd);
      && s.out.Returned? && s.out.value.status == status && s.out.value.data == DataOf(decode)
      && (!StartsWithFive(status) && decode != OtherDecodeError ==>
            s.mw == Some(sel.pool) && s.out.value.proxy == Some(p))
      && (StartsWithFive(status) || decode == OtherDecodeError ==> p.id in s.mw.value.dead)
      && (p.id in sel.pool.byId && (StartsWithFive(status) || decode == OtherDecodeError) ==>
            s.out.value.proxy == Some(s.mw.value.byId[p.id]) && s.out.value.proxy.value.dead)
  {
  }
}
