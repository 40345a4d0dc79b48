/** What mw.py adds to the shared pool: proxy ids derived from the address and a
    ProxyMesh header, and a set_new_proxies that reseeds the pool from a mesh service
    once until reanimate clears the `changed` flag. */
module MeshPool {
  import opened Base
  import opened ProxyPool

  const PreferIpHeader: string := "X-ProxyMesh-Prefer-IP"
  const IpHeader: string := "X-ProxyMesh-IP"

  /** The text appended to the address before hashing, in the order the source
      runs its two checks: X-ProxyMesh-IP first, then X-ProxyMesh-Prefer-IP
      overwriting it. */
  function IdSuffix(headers: Headers): (r: string)
    ensures || (r == "" && PreferIpHeader !in headers && IpHeader !in headers)
            || (IpHeader in headers && r == headers[IpHeader])
            || (PreferIpHeader in headers && r == headers[PreferIpHeader])
  {
    var afterIp := if IpHeader in headers then headers[IpHeader] else "";
    if PreferIpHeader in headers then headers[PreferIpHeader] else afterIp
  }

  /** md5(key).hexdigest(). Only equality of ids matters to the pool, so the digest
      is represented by its input: equal keys give equal ids, and distinct keys are
      taken to give distinct ids. */
  function Digest(key: string): Id
  {
    key
  }

  /** `Proxy(address, headers=..., header_hook=..., device=...)` and its
      `__attrs_post_init__`. */
  function NewProxy(address: string, headers: Headers, hasHook: bool, device: string): (p: Proxy)
    ensures p.id == Digest(address + IdSuffix(headers))
    ensures p.address == address && p.headers == headers
    ensures p.failedAttempts == 0 && !p.dead && p.nextCheck == None && p.used == 0
  {
    Proxy(address, Digest(address + IdSuffix(headers)), 0, false, headers, None, None, hasHook, device, 0)
  }

  /** The id key is the address followed by the Prefer-IP value when that header is
      present, else the IP value when that one is, else nothing: Prefer-IP wins
      when both are present. */
  lemma IdSuffixPriority(headers: Headers)
    ensures PreferIpHeader in headers ==> IdSuffix(headers) == headers[PreferIpHeader]
    ensures PreferIpHeader !in headers && IpHeader in headers ==> IdSuffix(headers) == headers[IpHeader]
    ensures PreferIpHeader !in headers && IpHeader !in headers ==> IdSuffix(headers) == ""
  {
  }

  /** Two proxies with the same address and the same selected header value share an
      id, so when both are seeded the later one is the one `_proxies` keeps. */
  lemma SameKeySameId(a: string, h1: Headers, h2: Headers, hook1: bool, hook2: bool, d1: string, d2: string)
    requires IdSuffix(h1) == IdSuffix(h2)
    ensures var p1 := NewProxy(a, h1, hook1, d1);
      var p2 := NewProxy(a, h2, hook2, d2);
      && p1.id == p2.id
      && Index([p1, p2]) == map[p1.id := p2]
  {
    var p1 := NewProxy(a, h1, hook1, d1);
    var p2 := NewProxy(a, h2, hook2, d2);
    var ps := [p1, p2];
    assert IsLast(ps, 1);
    IdSetPair(p1, p2);
  }

  /** The `mesh` attribute: absent, or a mesh service whose get_proxies hands out
      `offer` (already passed through `proxy_init`) on the next location change. */
  datatype Mesh = NoMesh | Mesh(offer: seq<Proxy>)

  /** `set_new_proxies`: without a mesh it answers False; with one it answers True,
      and reseeds the pool from the mesh and sets `changed` unless `changed` is
      already set. */
  function SetNewProxies(pool: Pool, mesh: Mesh): (s: Step<bool>)
    ensures mesh.NoMesh? ==> s == Step(pool, Returned(false))
    ensures mesh.Mesh? ==> s.out == Returned(true) && s.pool.changed
    ensures mesh.Mesh? && pool.changed ==> s.pool == pool
    ensures mesh.Mesh? && !pool.changed ==> s.pool == InitProxies(pool, mesh.offer).(changed := true)
  {
    match mesh
    case NoMesh => Step(pool, Returned(false))
    case Mesh(offer) =>
      if pool.changed then Step(pool, Returned(true))
      else Step(InitProxies(pool, offer).(changed := true), Returned(true))
  }

  function Refresher(mesh: Mesh): Pool -> Step<bool>
  {
    pool => SetNewProxies(pool, mesh)
  }

  /** `get_proxy`. Its re-entry after a True from set_new_proxies is followed once;
      FuelIrrelevant shows deeper re-entries never change the outcome, so Diverges
      here is an endless re-entry. The lock is not modelled: in the program the
      re-entry blocks on the held semaphore or raises gevent's LoopExit. */
  function GetProxy(pool: Pool, mesh: Mesh, pick: set<Id> -> Id): (s: Step<Option<Proxy>>)
    requires Chooser(pick)
    ensures pool.rotateEvery == 0 ==> s.out == Raised(ZeroDivisionError)
    ensures s.out.Raised? ==> s.out.error == ZeroDivisionError || s.out.error.KeyError?
    ensures s.out.Returned? && s.out.value.Some? && Keyed(s.pool) ==>
      var p := s.out.value.value;
      p.id in Available(s.pool) && p.id in s.pool.byId && s.pool.byId[p.id] == p
    ensures pool.rotateEvery != 0 ==> pool.totalRequests + 1 <= s.pool.totalRequests <= pool.totalRequests + 2
    ensures pool.rotateEvery != 0 && (mesh.NoMesh? || pool.changed || (pool.totalRequests + 1) % pool.rotateEvery != 0)
            && Available(pool) != {} ==>
      var k := pick(Available(pool));
      var counted := pool.(totalRequests := pool.totalRequests + 1);
      && (k in pool.byId ==>
            && s.out == Returned(Some(pool.byId[k].(used := pool.byId[k].used + 1)))
            && s.pool == counted.(byId := pool.byId[k := s.out.value.value]))
      && (k !in pool.byId ==> s == Step(counted, Raised(KeyError(k))))
  {
    GetProxyWithRaises(pool, Refresher(mesh), pick, 1);
    var s := GetProxyWith(pool, Refresher(mesh), pick, 1);
    if pool.rotateEvery == 0 then s
    else
      GetProxyWithCount(pool, Refresher(mesh), pick, 1);
      if Available(pool) != {} && (mesh.NoMesh? || pool.changed || (pool.totalRequests + 1) % pool.rotateEvery != 0) then
        GetProxyWithHandOut(pool, Refresher(mesh), pick, 1);
        s
      else s
  }

  /** Without a mesh, set_new_proxies answers False, so get_proxy returns None
      exactly when nothing is available, and never reseeds. */
  lemma GetProxyWithoutMesh(pool: Pool, pick: set<Id> -> Id)
    requires Chooser(pick) && pool.rotateEvery != 0
    ensures var s := GetProxy(pool, NoMesh, pick);
      && (s.out == Returned(None) <==> Available(pool) == {})
      && s.pool.byId.Keys == pool.byId.Keys
      && s.pool.totalRequests == pool.totalRequests + 1
  {
  }

  /** With a mesh, get_proxy never returns None: an empty pool either reseeds or
      re-enters. */
  lemma GetProxyWithMesh(pool: Pool, offer: seq<Proxy>, pick: set<Id> -> Id)
    requires Chooser(pick)
    ensures GetProxy(pool, Mesh(offer), pick).out != Returned(None)
  {
    if pool.rotateEvery != 0 {
      var pool1 := pool.(totalRequests := pool.totalRequests + 1);
      var rotated :=
        if pool1.totalRequests % pool1.rotateEvery == 0 then SetNewProxies(pool1, Mesh(offer))
        else Step(pool1, Returned(false));
      var pool2 := rotated.pool;
      if Available(pool2) == {} {
        var again := SetNewProxies(pool2, Mesh(offer));
        assert again.out == Returned(true);
        SettledLevel(again.pool, Mesh(offer), pick, 0, 0);
      }
    }
  }

  /** Once set_new_proxies has reseeded, further calls answer True without
      reseeding, until reanimate clears the flag. */
  lemma ReseedOnce(pool: Pool, offer: seq<Proxy>, now: real, order: seq<Id>)
    requires !pool.changed
    ensures var first := SetNewProxies(pool, Mesh(offer)).pool;
      && first.changed && first.byId.Keys == IdSet(offer)
      && SetNewProxies(first, Mesh(offer)) == Step(first, Returned(true))
      && (Enumerates(order, first.dead) ==> !Reanimate(first, now, order).pool.changed)
  {
  }

  /** A pool with a mesh, `changed` set and nothing available re-enters get_proxy
      forever, at any depth. */
  lemma {:induction false} StuckForever(pool: Pool, mesh: Mesh, pick: set<Id> -> Id, fuel: nat)
    requires Chooser(pick) && mesh.Mesh? && pool.changed && pool.rotateEvery != 0
    requires Available(pool) == {}
    ensures GetProxyWith(pool, Refresher(mesh), pick, fuel).out == Diverges
    decreases fuel
  {
    var pool1 := pool.(totalRequests := pool.totalRequests + 1);
    assert SetNewProxies(pool1, mesh) == Step(pool1, Returned(true));
    if fuel > 0 {
      StuckForever(pool1, mesh, pick, fuel - 1);
    }
  }

  /** From a state with a mesh and `changed` set, the outcome of get_proxy does not
      depend on how deep re-entry is followed. */
  lemma {:induction false} SettledLevel(pool: Pool, mesh: Mesh, pick: set<Id> -> Id, f: nat, g: nat)
    requires Chooser(pick) && mesh.Mesh? && pool.changed
    ensures GetProxyWith(pool, Refresher(mesh), pick, f).out == GetProxyWith(pool, Refresher(mesh), pick, g).out
  {
    if pool.rotateEvery != 0 {
      var pool1 := pool.(totalRequests := pool.totalRequests + 1);
      assert SetNewProxies(pool1, mesh) == Step(pool1, Returned(true));
      if Available(pool) == {} {
        StuckForever(pool, mesh, pick, f);
        StuckForever(pool, mesh, pick, g);
      }
    }
  }

  /** Following re-entry once decides the outcome: any deeper bound gives the same. */
  lemma FuelIrrelevant(pool: Pool, mesh: Mesh, pick: set<Id> -> Id, fuel: nat)
    requires Chooser(pick) && fuel >= 1
    ensures GetProxyWith(pool, Refresher(mesh), pick, fuel).out == GetProxy(pool, mesh, pick).out
  {
    if pool.rotateEvery != 0 && mesh.Mesh? {
      var pool1 := pool.(totalRequests := pool.totalRequests + 1);
      var rotated :=
        if pool1.totalRequests % pool1.rotateEvery == 0 then SetNewProxies(pool1, mesh)
        else Step(pool1, Returned(false));
      var pool2 := rotated.pool;
      if Available(pool2) == {} {
        var again := SetNewProxies(pool2, mesh);
        SettledLevel(again.pool, mesh, pick, fuel - 1, 0);
      }
    }
  }

  /** With a mesh and `changed` already set, get_proxy on a pool with nothing
      available re-enters itself without end. */
  lemma ChangedEmptyDiverges(pool: Pool, offer: seq<Proxy>, pick: set<Id> -> Id)
    requires Chooser(pick) && pool.changed && pool.rotateEvery != 0 && Available(pool) == {}
    ensures GetProxy(pool, Mesh(offer), pick).out == Diverges
  {
    StuckForever(pool, Mesh(offer), pick, 1);
  }

  /** A rotation turn with a mesh and `changed` clear reseeds from the mesh; the
      constructor's ids are still added to unchecked by the reset inside
      init_proxies, so ids outside the new map become available. */
  lemma RotationReseeds(pool: Pool, offer: seq<Proxy>, pick: set<Id> -> Id)
    requires Chooser(pick) && !pool.changed && pool.rotateEvery != 0
    requires (pool.totalRequests + 1) % pool.rotateEvery == 0
    ensures var s := GetProxy(pool, Mesh(offer), pick);
      && s.pool.changed
      && s.pool.byId.Keys == IdSet(offer)
      && IdSet(pool.seeded) <= Available(s.pool)
  {
    var mesh := Mesh(offer);
    var pool1 := pool.(totalRequests := pool.totalRequests + 1);
    var reseeded := InitProxies(pool1, offer).(changed := true);
    assert Refresher(mesh)(pool1) == Step(reseeded, Returned(true));
    assert IdSet(pool.seeded) <= Available(reseeded);
    var s := GetProxy(pool, mesh, pick);
    if Available(reseeded) != {} {
      assert s == Choose(reseeded, pick);
    } else {
      assert Refresher(mesh)(reseeded) == Step(reseeded, Returned(true));
      var inner := GetProxyWith(reseeded, Refresher(mesh), pick, 0);
      assert s == inner;
      var pool2 := reseeded.(totalRequests := reseeded.totalRequests + 1);
      assert Refresher(mesh)(pool2) == Step(pool2, Returned(true));
      assert inner.pool == pool2;
    }
  }

  /** The constructor's list holds a proxy `a` the mesh no longer offers: after a
      reseed on a rotation turn `a`'s id is available but not a key, so a random
      choice of it raises KeyError, and the reseeded pool is no longer Sound. */
  lemma StaleIdAfterReseed(a: Proxy, b: Proxy, pick: set<Id> -> Id)
    requires Chooser(pick) && a.id != b.id
    requires pick({a.id, b.id}) == a.id
    ensures var pool := Create([a], 1);
      var s := GetProxy(pool, Mesh([b]), pick);
      && s.out == Raised(KeyError(a.id))
      && !Sound(s.pool)
  {
    var pool := Create([a], 1);
    IdSetPair(a, b);
    var pool1 := pool.(totalRequests := 1);
    assert pool1.totalRequests % pool1.rotateEvery == 0;
    var pool2 := InitProxies(pool1, [b]).(changed := true);
    assert Available(pool2) == {a.id, b.id};
  }

  /** reset after a reseed re-adds the constructor's ids, which need not be keys. */
  lemma ResetAfterReseed(a: Proxy, b: Proxy)
    requires a.id != b.id
    ensures var pool := InitProxies(Create([a], 2000), [b]);
      var r := Reset(pool);
      && a.id in r.unchecked && a.id !in r.byId && !Sound(r)
  {
    IdSetPair(a, b);
  }

  /** Without a mesh, get_proxy keeps the invariant. */
  lemma GetProxyKeepsSound(pool: Pool, pick: set<Id> -> Id)
    requires Chooser(pick) && Sound(pool)
    ensures Sound(GetProxy(pool, NoMesh, pick).pool)
  {
    var s := GetProxy(pool, NoMesh, pick);
    if s.out.Returned? && s.out.value.Some? {
      var k := pick(Available(pool.(totalRequests := pool.totalRequests + 1)));
      assert s.pool.byId[k].id == pool.byId[k].id;
    }
  }
}
