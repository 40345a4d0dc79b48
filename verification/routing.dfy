/** The pieces both adapters (greenmw/adapter.py and adapter.py) share: the request
    and response values, the exchange with the HTTP library, header merging,
    `str(status)[0] == "5"`, the guarded and unguarded mark_proxy_dead calls, and
    send's "select, else reset and reselect, else fail". */
module Routing {
  import opened Base
  import opened ProxyPool

  /** How `orjson.loads(response.content)` ends. */
  datatype Decode = Parsed | JsonDecodeError | OtherDecodeError

  /** What build_response stores in `response.data`: the parsed JSON, the raw
      content, or `{"success": "false"}`. */
  datatype Data = Json | RawContent | SuccessFalse

  /** A response build_response hands back; `proxy` is `response.proxy`, which
      only greenmw sets. */
  datatype Response = Response(status: int, data: Data, proxy: Option<Proxy>)

  /** What the HTTP library's transmission of the request does: it raises, or it
      gets an answer with a status and a body whose decoding ends as given. */
  datatype Exchange = TransportFailure(detail: string) | Answered(status: int, decode: Decode)

  /** A prepared request: its headers and the `proxy` attribute send attaches
      (None while it is absent). */
  datatype Request = Request(headers: Headers, proxy: Option<Proxy>)

  /** Whether send reached the HTTP library's send, and with which `proxies`. */
  datatype Dispatch = NotSent | Handed(proxies: Option<Routes>)

  /** The readings taken by each mark_proxy_dead call site a request can reach:
      the retry-status branch, the decode-failure branch, the 5xx branch, and
      send's exception handler. */
  datatype Readings = Readings(listed: Clock, decode: Clock, server: Clock, handler: Clock)

  /** The adapter's `proxy_mw` after a call, and how the call ended. */
  datatype Handled<+T> = Handled(mw: Option<Pool>, out: Outcome<T>)

  /** What a call to an adapter's send leaves behind. */
  datatype Sent = Sent(mw: Option<Pool>, request: Request, dispatch: Dispatch, out: Outcome<Response>)

  /** The retry-status default of greenmw and the fixed list of adapter.py. */
  const ListedCodes: seq<int> := [400, 403, 407, 408, 429, 499]

  /** `h.update(u)`: every key of `u` takes `u`'s value, the others keep `h`'s. */
  function Update(h: Headers, u: Headers): (r: Headers)
    ensures r.Keys == h.Keys + u.Keys
    ensures forall k :: k in u ==> r[k] == u[k]
    ensures forall k :: k in h && k !in u ==> r[k] == h[k]
  {
    h + u
  }

  /** Applying the same update twice changes nothing more. */
  lemma UpdateIdempotent(h: Headers, u: Headers)
    ensures Update(Update(h, u), u) == Update(h, u)
  {
  }

  /** Re-applying an update that was overridden by a later one hands the clashing
      keys back to it: the last update wins. */
  lemma UpdateLastWins(h: Headers, a: Headers, b: Headers)
    ensures Update(Update(Update(h, a), b), a) == Update(Update(h, b), a)
  {
  }

  function DigitChar(d: nat): char
    requires d < 10
  {
    "0123456789"[d]
  }

  /** The most significant decimal digit of n. */
  function Leading(n: nat): (d: nat)
    ensures d < 10
  {
    if n < 10 then n else Leading(n / 10)
  }

  /** `str(n)` for a non-negative n: decimal digits, no leading zeros. */
  function Digits(n: nat): (s: string)
    ensures |s| >= 1
    ensures s[0] == DigitChar(Leading(n))
    ensures forall i :: 0 <= i < |s| ==> '0' <= s[i] <= '9'
  {
    if n < 10 then [DigitChar(n)] else Digits(n / 10) + [DigitChar(n % 10)]
  }

  /** The value of a string of decimal digits, as `int(s)` reads it. */
  function Value(s: string): int
  {
    if s == [] then 0 else 10 * Value(s[..|s| - 1]) + ((s[|s| - 1] as int) - ('0' as int))
  }

  /** `int(str(n)) == n`: the digits are those of n. */
  lemma {:induction false} DigitsRoundTrip(n: nat)
    ensures Value(Digits(n)) == n
  {
    if n >= 10 {
      var s := Digits(n);
      assert s[..|s| - 1] == Digits(n / 10);
      DigitsRoundTrip(n / 10);
    }
  }

  /** `str(n)` for any integer. */
  function Str(n: int): (s: string)
    ensures |s| >= 1
  {
    if n < 0 then "-" + Digits(-n) else Digits(n)
  }

  /** `str(status)[0] == "5"`. */
  predicate StartsWithFive(status: int)
    ensures StartsWithFive(status) ==> status >= 5
  {
    Str(status)[0] == '5'
  }

  /** The first character is '5' exactly when the status is non-negative and its
      leading digit is 5. */
  lemma StartsWithFiveLeading(status: int)
    ensures StartsWithFive(status) <==> status >= 0 && Leading(status) == 5
  {
  }

  /** Among three-digit statuses, the test selects exactly 500 to 599. */
  lemma FiveHundreds(status: int)
    requires 100 <= status <= 999
    ensures StartsWithFive(status) <==> 500 <= status <= 599
  {
    assert Leading(status) == status / 100 by {
      assert Leading(status) == Leading(status / 10);
      assert Leading(status / 10) == Leading(status / 10 / 10);
      assert status / 10 / 10 == status / 100;
    }
  }

  /** The test is wider than the 5xx class: 5, 50 and 5000 pass it too. */
  lemma NotOnlyServerErrors()
    ensures StartsWithFive(5) && StartsWithFive(50) && StartsWithFive(5000)
    ensures !StartsWithFive(-500)
  {
    assert Leading(50) == Leading(5);
    assert Leading(5000) == Leading(500) == Leading(50);
  }

  /** No listed status starts with '5', so a status triggers at most one of the two
      status-based demotions. */
  lemma ListedNotServerError(status: int)
    requires status in ListedCodes
    ensures !StartsWithFive(status)
  {
    FiveHundreds(status);
  }

  /** `if self.proxy_mw: self.proxy_mw.mark_proxy_dead(req.proxy)`. Reading an
      absent `req.proxy` raises AttributeError. */
  function Guarded(mw: Option<Pool>, proxy: Option<Proxy>, c: Clock): (r: Result<Option<Pool>>)
    ensures r == Ok(None) <==> mw.None?
    ensures r.Err? <==> mw.Some? && proxy.None?
    ensures r.Err? ==> r.error == AttributeError("proxy")
    ensures r.Ok? && r.value.Some? ==>
      && mw.Some? && proxy.Some?
      && proxy.value.id in r.value.value.dead && proxy.value.id !in Available(r.value.value)
  {
    if mw.None? then Ok(None)
    else if proxy.None? then Err(AttributeError("proxy"))
    else Ok(Some(MarkDead(mw.value, proxy.value.id, c)))
  }

  /** `self.proxy_mw.mark_proxy_dead(req.proxy)` without the guard: with no
      middleware the attribute lookup on None raises first. */
  function Unguarded(mw: Option<Pool>, proxy: Option<Proxy>, c: Clock): (r: Result<Option<Pool>>)
    ensures r.Err? <==> mw.None? || proxy.None?
    ensures mw.None? ==> r == Err(AttributeError("mark_proxy_dead"))
    ensures mw.Some? ==> r == Guarded(mw, proxy, c)
  {
    if mw.None? then Err(AttributeError("mark_proxy_dead")) else Guarded(mw, proxy, c)
  }

  /** A demotion through either call moves the proxy's id to dead, counts one
      more failure on its record, and touches no other record. */
  lemma DemotionEffect(mw: Option<Pool>, proxy: Option<Proxy>, c: Clock)
    requires mw.Some? && proxy.Some? && proxy.value.id in mw.value.byId
    ensures var r := Unguarded(mw, proxy, c);
      && r == Guarded(mw, proxy, c)
      && r.Ok? && r.value.Some?
      && var id := proxy.value.id;
      && id in r.value.value.dead && id !in Available(r.value.value)
      && r.value.value.byId[id].failedAttempts == mw.value.byId[id].failedAttempts + 1
      && forall k :: k in mw.value.byId && k != id ==> r.value.value.byId[k] == mw.value.byId[k]
  {
  }

  /** The `data` the decode branch stores. */
  function DataOf(decode: Decode): (d: Data)
    ensures d == Json <==> decode == Parsed
    ensures d == RawContent <==> decode == JsonDecodeError
    ensures d == SuccessFalse <==> decode == OtherDecodeError
  {
    match decode
    case Parsed => Json
    case JsonDecodeError => RawContent
    case OtherDecodeError => SuccessFalse
  }

  /** send's selection: get_proxy; if it gives None, reset and get_proxy again; if
      that gives None too, raise "No Proxy Available after reset()". `get` is the
      pool's get_proxy with its random choices fixed. */
  function Select(get: Pool -> Step<Option<Proxy>>, pool: Pool): (s: Step<Proxy>)
    ensures s.out.Returned? ==>
      || get(pool).out == Returned(Some(s.out.value))
      || (get(pool).out == Returned(None) && get(Reset(get(pool).pool)).out == Returned(Some(s.out.value)))
    ensures get(pool).out.Returned? && get(pool).out.value.Some? ==> s == Step(get(pool).pool, Returned(get(pool).out.value.value))
    ensures s.out == Raised(NoProxyAvailable) <==>
      || get(pool).out == Raised(NoProxyAvailable)
      || (get(pool).out == Returned(None) && get(Reset(get(pool).pool)).out in {Returned(None), Raised(NoProxyAvailable)})
  {
    var first := get(pool);
    match first.out
    case Raised(e) => Step(first.pool, Raised(e))
    case Diverges => Step(first.pool, Diverges)
    case Returned(Some(p)) => Step(first.pool, Returned(p))
    case Returned(None) =>
      var second := get(Reset(first.pool));
      match second.out
      case Raised(e) => Step(second.pool, Raised(e))
      case Diverges => Step(second.pool, Diverges)
      case Returned(Some(p)) => Step(second.pool, Returned(p))
      case Returned(None) => Step(second.pool, Raised(NoProxyAvailable))
  }

  /** send's `except Exception as e: if self.proxy_mw: mark_proxy_dead(request.proxy);
      raise e`, reached after the HTTP library's send was called with `proxies`. */
  function Handler(mw: Option<Pool>, req: Request, proxies: Option<Routes>, e: Error, rd: Readings): (s: Sent)
    ensures s.dispatch == Handed(proxies) && s.request == req && s.out.Raised?
    ensures mw.None? ==> s.mw == None && s.out == Raised(e)
    ensures mw.Some? && req.proxy.Some? ==>
      s.out == Raised(e) && s.mw == Some(MarkDead(mw.value, req.proxy.value.id, rd.handler))
  {
    match Guarded(mw, req.proxy, rd.handler)
    case Err(e2) => Sent(mw, req, Handed(proxies), Raised(e2))
    case Ok(mw1) => Sent(mw1, req, Handed(proxies), Raised(e))
  }

  /** The call `super().send(request, ..., proxies)` inside send's try block, with
      its exception handler. The HTTP library's send calls the adapter's
      add_headers (`add`), transmits, and on an answer calls the adapter's
      build_response (`build`); any exception on the way reaches the handler. */
  function Transmit(add: Request -> Result<Headers>,
                    build: (Option<Pool>, Request, int, Decode) -> Handled<Response>,
                    mw: Option<Pool>, req: Request, proxies: Option<Routes>,
                    ex: Exchange, rd: Readings): (s: Sent)
    ensures s.dispatch == Handed(proxies)
    ensures add(req).Err? ==> s == Handler(mw, req, proxies, add(req).error, rd)
    ensures add(req).Ok? && ex.TransportFailure? ==>
      s == Handler(mw, req.(headers := add(req).value), proxies, TransportError(ex.detail), rd)
    ensures s.out.Returned? ==>
      && add(req).Ok? && ex.Answered?
      && s.request == req.(headers := add(req).value)
      && s.out == build(mw, s.request, ex.status, ex.decode).out
      && s.mw == build(mw, s.request, ex.status, ex.decode).mw
  {
    match add(req)
    case Err(e) => Handler(mw, req, proxies, e, rd)
    case Ok(h) =>
      var req1 := req.(headers := h);
      match ex
      case TransportFailure(detail) => Handler(mw, req1, proxies, TransportError(detail), rd)
      case Answered(status, decode) =>
        var b := build(mw, req1, status, decode);
        match b.out
        case Raised(e) => Handler(b.mw, req1, proxies, e, rd)
        case _ => Sent(b.mw, req1, Handed(proxies), b.out)
  }
}
