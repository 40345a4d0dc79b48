/** What greenmw/mw.py adds to the shared pool: a Proxy whose id is a caller-given
    or uuid4 value, and a set_new_proxies that can only fail. */
module GreenPool {
  import opened Base
  import opened ProxyPool

  /** `Proxy(address, id=id, headers=..., header_hook=..., device=...)` (attrs drops
      the leading underscore of `_id` from the keyword) with the
      defaults of the other fields; `id` stands for the uuid4 default factory's value
      when the caller gives none. */
  function NewProxy(address: string, id: Id, headers: Headers, hasHook: bool, device: string): (p: Proxy)
    ensures p.address == address && p.id == id && p.headers == headers
    ensures p.failedAttempts == 0 && !p.dead && p.nextCheck == None && p.used == 0
  {
    Proxy(address, id, 0, false, headers, None, None, hasHook, device, 0)
  }

  /** `set_new_proxies` as written: its log line reads `self.mesh`, which this class
      never defines, so every call raises AttributeError. */
  function SetNewProxies(pool: Pool): (s: Step<bool>)
    ensures s.pool == pool && !s.out.Returned? && !s.out.Diverges?
  {
    Step(pool, Raised(AttributeError("mesh")))
  }

  /** set_new_proxies as evidently intended: log and report that nothing changed. */
  function SetNewProxiesFixed(pool: Pool): (s: Step<bool>)
    ensures s == Step(pool, Returned(false))
  {
    Step(pool, Returned(false))
  }

  /** `get_proxy` as written. It counts the request; a rotation turn or an empty
      available set reaches set_new_proxies and so raises; otherwise it hands out a
      randomly chosen available proxy with `used` bumped. It never returns None. */
  function GetProxy(pool: Pool, pick: set<Id> -> Id): (s: Step<Option<Proxy>>)
    requires Chooser(pick)
    ensures s.out != Returned(None) && !s.out.Diverges?
    ensures pool.rotateEvery == 0 ==> s.out == Raised(ZeroDivisionError)
    ensures pool.rotateEvery != 0 && (pool.totalRequests + 1) % pool.rotateEvery == 0 ==>
      s.out == Raised(AttributeError("mesh"))
    ensures pool.rotateEvery != 0 && Available(pool) == {} ==> s.out == Raised(AttributeError("mesh"))
    ensures s.out.Raised? && !s.out.error.KeyError? ==>
      s.pool == pool.(totalRequests := pool.totalRequests + 1)
    ensures s.out.Returned? ==>
      var k := pick(Available(pool));
      && k in Available(pool) && k in pool.byId
      && s.out.value == Some(pool.byId[k].(used := pool.byId[k].used + 1))
      && s.pool == pool.(totalRequests := pool.totalRequests + 1, byId := pool.byId[k := s.out.value.value])
    ensures pool.rotateEvery != 0 && (pool.totalRequests + 1) % pool.rotateEvery != 0 && Available(pool) != {} ==>
      var k := pick(Available(pool));
      var counted := pool.(totalRequests := pool.totalRequests + 1);
      && (k in pool.byId ==>
            && s.out == Returned(Some(pool.byId[k].(used := pool.byId[k].used + 1)))
            && s.pool == counted.(byId := pool.byId[k := s.out.value.value]))
      && (k !in pool.byId ==> s == Step(counted, Raised(KeyError(k))))
  {
    if pool.rotateEvery != 0 && (pool.totalRequests + 1) % pool.rotateEvery != 0 && Available(pool) != {} then
      GetProxyWithHandOut(pool, SetNewProxies, pick, 0);
      GetProxyWith(pool, SetNewProxies, pick, 0)
    else GetProxyWith(pool, SetNewProxies, pick, 0)
  }

  /** get_proxy with the corrected set_new_proxies: a rotation turn does nothing and
      an empty available set yields None. */
  function GetProxyFixed(pool: Pool, pick: set<Id> -> Id): (s: Step<Option<Proxy>>)
    requires Chooser(pick)
    ensures s.out == Returned(None) <==> pool.rotateEvery != 0 && Available(pool) == {}
    ensures pool.rotateEvery == 0 ==> s.out == Raised(ZeroDivisionError)
    ensures s.out.Raised? ==> s.out.error == ZeroDivisionError || s.out.error.KeyError?
    ensures s.out.Returned? && s.out.value.Some? ==>
      var k := pick(Available(pool));
      && k in Available(pool) && k in pool.byId
      && s.out.value == Some(pool.byId[k].(used := pool.byId[k].used + 1))
  {
    GetProxyWith(pool, SetNewProxiesFixed, pick, 0)
  }

  /** get_proxy keeps both pool invariants. */
  lemma GetProxyKeepsInvariants(pool: Pool, pick: set<Id> -> Id)
    requires Chooser(pick)
    ensures Sound(pool) ==> Sound(GetProxy(pool, pick).pool)
    ensures Partitioned(pool) ==> Partitioned(GetProxy(pool, pick).pool)
  {
    var s := GetProxy(pool, pick);
    if s.out.Returned? && Sound(pool) {
      var k := pick(Available(pool));
      assert s.pool.byId[k].id == pool.byId[k].id;
    }
  }

  /** On a pool built by the constructor, get_proxy cannot meet a missing key: it
      returns a proxy unless the counter hits a rotation turn or nothing is
      available, and then it raises AttributeError. */
  lemma GetProxyOnSoundPool(pool: Pool, pick: set<Id> -> Id)
    requires Chooser(pick) && Sound(pool) && pool.rotateEvery != 0
    ensures var s := GetProxy(pool, pick);
      && (s.out.Returned? <==> (pool.totalRequests + 1) % pool.rotateEvery != 0 && Available(pool) != {})
      && (!s.out.Returned? ==> s.out == Raised(AttributeError("mesh")))
  {
  }

  /** A one-proxy pool: the first get_proxy hands the proxy out; after
      mark_proxy_dead the next get_proxy raises instead of returning None; after
      reanimate at or past next_check the proxy is handed out again. */
  lemma SingleProxyScenario(p: Proxy, pick: set<Id> -> Id, c: Clock, later: real)
    requires Chooser(pick)
    ensures var pool := Create([p], 2000);
      var first := GetProxy(pool, pick);
      && first.out.Returned? && first.out.value.value.id == p.id
      && var demoted := MarkDead(first.pool, p.id, c);
      && var failed := GetProxy(demoted, pick);
      && failed.out == Raised(AttributeError("mesh"))
      && failed.pool == demoted.(totalRequests := 2)
      && var due := demoted.byId[p.id].nextCheck.value;
      && (due <= later ==>
            var revived := Reanimate(failed.pool, later, [p.id]).pool;
            var again := GetProxy(revived, pick);
            && again.out.Returned? && again.out.value.value.id == p.id
            && again.pool.totalRequests == 3)
  {
    var pool := Create([p], 2000);
    assert IdSet([p]) == {p.id};
    assert Available(pool) == {p.id};
    var first := GetProxy(pool, pick);
    assert 1 % 2000 != 0;
    var demoted := MarkDead(first.pool, p.id, c);
    assert Available(demoted) == {};
    assert demoted.totalRequests == 1;
    assert 2 % 2000 != 0;
    assert 3 % 2000 != 0;
  }

  /** With the corrected set_new_proxies, a pool whose ids are all dead yields None. */
  lemma FixedReportsEmpty(pool: Pool, pick: set<Id> -> Id)
    requires Chooser(pick) && Partitioned(pool) && pool.rotateEvery != 0
    requires pool.dead == pool.byId.Keys
    ensures GetProxyFixed(pool, pick).out == Returned(None)
  {
  }
}
