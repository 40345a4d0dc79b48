/** The proxy health pool, `ProxyMiddleware`, as far as greenmw/mw.py and mw.py share
    it: the Proxy record, the pool's state, init_proxies, get_proxy's control flow,
    mark_proxy_dead, mark_proxy_good, reanimate and reset. The two files differ only
    in how a proxy's id is made and in set_new_proxies; those parts live in the
    GreenPool and MeshPool modules. */
module ProxyPool {
  import opened Base
  import Backoff

  /** A `Proxy` instance. `hasHook` says whether `header_hook` is set; the hook's
      output is supplied to the adapter as a value. `backoffTime` is the attribute
      mark_proxy_dead attaches. */
  datatype Proxy = Proxy(
    address: string,
    id: Id,
    failedAttempts: nat,
    dead: bool,
    headers: Headers,
    nextCheck: Option<real>,
    backoffTime: Option<real>,
    hasHook: bool,
    device: string,
    used: nat)

  /** The `proxies` argument requests' send takes: scheme to proxy URL. */
  type Routes = map<string, string>

  /** `formatted`: both schemes are routed through the proxy's address. */
  function Formatted(p: Proxy): (r: Routes)
    ensures r.Keys == {"http", "https"}
    ensures forall scheme :: scheme in r ==> r[scheme] == p.address
  {
    map["http" := p.address, "https" := p.address]
  }

  /** A `ProxyMiddleware` instance. `seeded` is the `proxies` list given to the
      constructor (reset reads it, never the current map), `byId` is `_proxies`. */
  datatype Pool = Pool(
    seeded: seq<Proxy>,
    byId: map<Id, Proxy>,
    unchecked: set<Id>,
    good: set<Id>,
    dead: set<Id>,
    totalRequests: int,
    rotateEvery: int,
    changed: bool)

  /** The state a call leaves behind and how the call ended; state changed before
      an exception stays changed, as in Python. */
  datatype Step<+T> = Step(pool: Pool, out: Outcome<T>)

  function IdSet(ps: seq<Proxy>): set<Id>
  {
    set i | 0 <= i < |ps| :: ps[i].id
  }

  /** The ids of one- and two-element lists. */
  lemma IdSetPair(p: Proxy, q: Proxy)
    ensures IdSet([p]) == {p.id}
    ensures IdSet([p, q]) == {p.id, q.id}
  {
    assert [p][0] == p;
    assert [p, q][0] == p && [p, q][1] == q;
  }

  /** The `available` property. */
  function Available(pool: Pool): (r: set<Id>)
    ensures Partitioned(pool) ==> r == pool.byId.Keys - pool.dead
  {
    pool.unchecked + pool.good
  }

  /** Every bucketed id is a pool key and every key is in some bucket. */
  ghost predicate Covered(pool: Pool)
  {
    pool.unchecked + pool.good + pool.dead == pool.byId.Keys
  }

  /** The three buckets partition the keys of `_proxies`. */
  ghost predicate Partitioned(pool: Pool)
  {
    && Covered(pool)
    && pool.unchecked !! pool.good
    && pool.unchecked !! pool.dead
    && pool.good !! pool.dead
  }

  /** Every record sits under its own id, as `_proxies[proxy.id] = proxy` puts it. */
  ghost predicate Keyed(pool: Pool)
  {
    forall k :: k in pool.byId ==> pool.byId[k].id == k
  }

  /** The weaker invariant the source actually keeps: buckets cover the keys, no
      dead id is available, and every id reset will re-add is a key. */
  ghost predicate Sound(pool: Pool)
  {
    && Covered(pool)
    && pool.dead !! Available(pool)
    && IdSet(pool.seeded) <= pool.byId.Keys
    && Keyed(pool)
  }

  /** The loop `for proxy in proxies: self._proxies[proxy.id] = proxy`: a later
      proxy with an id already seen replaces the earlier one. */
  function Index(ps: seq<Proxy>): (m: map<Id, Proxy>)
    ensures m.Keys == IdSet(ps)
    ensures forall k :: k in m ==> m[k].id == k
    ensures forall i :: 0 <= i < |ps| && IsLast(ps, i) ==> m[ps[i].id] == ps[i]
    decreases |ps|
  {
    if ps == [] then map[]
    else
      var init := ps[..|ps| - 1];
      var last := ps[|ps| - 1];
      var prev := Index(init);
      IndexStep(ps, prev);
      prev[last.id := last]
  }

  /** One step of the loop keeps Index's contract. */
  lemma IndexStep(ps: seq<Proxy>, prev: map<Id, Proxy>)
    requires ps != []
    requires prev.Keys == IdSet(ps[..|ps| - 1])
    requires forall i :: 0 <= i < |ps| - 1 && IsLast(ps[..|ps| - 1], i) ==> prev[ps[i].id] == ps[i]
    ensures var m := prev[ps[|ps| - 1].id := ps[|ps| - 1]];
      && m.Keys == IdSet(ps)
      && forall i :: 0 <= i < |ps| && IsLast(ps, i) ==> m[ps[i].id] == ps[i]
  {
    var init := ps[..|ps| - 1];
    var last := ps[|ps| - 1];
    var m := prev[last.id := last];
    assert IdSet(ps) == IdSet(init) + {last.id} by {
      assert forall i :: 0 <= i < |init| ==> init[i] == ps[i];
    }
    forall i | 0 <= i < |ps| && IsLast(ps, i)
      ensures m[ps[i].id] == ps[i]
    {
      if i < |ps| - 1 {
        assert init[i] == ps[i];
        assert IsLast(init, i) by {
          forall j | i < j < |init| ensures init[j].id != init[i].id {
            assert init[j] == ps[j];
          }
        }
      }
    }
  }

  /** No later element of `ps` has the id of `ps[i]`. */
  ghost predicate IsLast(ps: seq<Proxy>, i: int)
    requires 0 <= i < |ps|
  {
    forall j :: i < j < |ps| ==> ps[j].id != ps[i].id
  }

  /** The loop body of reset, applied to the ids of `ps` in order. */
  function ResetFrom(pool: Pool, ps: seq<Proxy>): (r: Pool)
    ensures r.unchecked == pool.unchecked + IdSet(ps)
    ensures r.dead == pool.dead - IdSet(ps)
    ensures r == pool.(unchecked := r.unchecked, dead := r.dead)
    decreases |ps|
  {
    if ps == [] then pool
    else
      assert IdSet(ps) == {ps[0].id} + IdSet(ps[1..]) by {
        assert forall i :: 1 <= i < |ps| ==> ps[i] == ps[1..][i - 1];
        assert forall i :: 0 <= i < |ps| - 1 ==> ps[1..][i] == ps[i + 1];
      }
      var p := ps[0].id;
      ResetFrom(pool.(unchecked := pool.unchecked + {p}, dead := pool.dead - {p}), ps[1..])
  }

  /** `reset`: every id of the constructor's list goes into unchecked and out of
      dead; good is not touched. */
  function Reset(pool: Pool): (r: Pool)
    ensures r.unchecked == pool.unchecked + IdSet(pool.seeded)
    ensures r.dead == pool.dead - IdSet(pool.seeded)
    ensures r == pool.(unchecked := r.unchecked, dead := r.dead)
  {
    ResetFrom(pool, pool.seeded)
  }

  /** `init_proxies(proxies)`: a fresh map and fresh buckets holding `ps`, then reset. */
  function InitProxies(pool: Pool, ps: seq<Proxy>): (r: Pool)
    ensures r.byId.Keys == IdSet(ps)
    ensures forall i :: 0 <= i < |ps| && IsLast(ps, i) ==> r.byId[ps[i].id] == ps[i]
    ensures r.dead == {} && r.good == {}
    ensures r.unchecked == IdSet(ps) + IdSet(pool.seeded)
    ensures r.seeded == pool.seeded && r.totalRequests == pool.totalRequests
    ensures r.rotateEvery == pool.rotateEvery && r.changed == pool.changed
    ensures Keyed(r)
  {
    Reset(pool.(byId := Index(ps), unchecked := IdSet(ps), good := {}, dead := {}))
  }

  /** The constructor `ProxyMiddleware(proxies=ps, rotate_every_request=...)`, which
      calls init_proxies on its own list. */
  function Create(ps: seq<Proxy>, rotateEvery: int): (r: Pool)
    ensures Partitioned(r) && Sound(r)
    ensures r.unchecked == r.byId.Keys == IdSet(ps)
    ensures r.good == {} && r.dead == {}
    ensures r.seeded == ps && r.totalRequests == 0 && !r.changed
  {
    var r := InitProxies(Pool(ps, map[], {}, {}, {}, 0, rotateEvery, false), ps);
    assert r.byId == Index(ps);
    r
  }

  /** random.choice over a non-empty set names one of its members. */
  ghost predicate Chooser(pick: set<Id> -> Id)
  {
    forall s: set<Id> :: s != {} ==> pick(s) in s
  }

  /** `proxy = self._proxies[random.choice(self.available)]; proxy.used += 1`. */
  function Choose(pool: Pool, pick: set<Id> -> Id): (s: Step<Option<Proxy>>)
    requires Chooser(pick) && Available(pool) != {}
    ensures s.out.Returned? <==> pick(Available(pool)) in pool.byId
    ensures s.out.Raised? ==> s.pool == pool && s.out.error == KeyError(pick(Available(pool)))
    ensures s.out.Returned? ==>
      var k := pick(Available(pool));
      && k in Available(pool)
      && s.out.value == Some(pool.byId[k].(used := pool.byId[k].used + 1))
      && s.pool == pool.(byId := pool.byId[k := s.out.value.value])
  {
    var k := pick(Available(pool));
    if k !in pool.byId then Step(pool, Raised(KeyError(k)))
    else
      var p := pool.byId[k].(used := pool.byId[k].used + 1);
      Step(pool.(byId := pool.byId[k := p]), Returned(Some(p)))
  }

  /** `get_proxy`, shared by both files; `refresh` is the file's set_new_proxies.
      A true answer from it on an empty pool re-enters get_proxy; `fuel` bounds
      those re-entries, and running out of it is reported as Diverges. */
  function GetProxyWith(pool: Pool, refresh: Pool -> Step<bool>, pick: set<Id> -> Id, fuel: nat)
    : (s: Step<Option<Proxy>>)
    requires Chooser(pick)
    ensures s.out.Returned? && s.out.value.Some? && Keyed(s.pool) ==>
      var p := s.out.value.value;
      p.id in Available(s.pool) && p.id in s.pool.byId && s.pool.byId[p.id] == p
    decreases fuel
  {
    var pool1 := pool.(totalRequests := pool.totalRequests + 1);
    if pool1.rotateEvery == 0 then Step(pool1, Raised(ZeroDivisionError))
    else
      var rotated :=
        if pool1.totalRequests % pool1.rotateEvery == 0 then refresh(pool1)
        else Step(pool1, Returned(false));
      match rotated.out
      case Raised(e) => Step(rotated.pool, Raised(e))
      case Diverges => Step(rotated.pool, Diverges)
      case Returned(_) =>
        var pool2 := rotated.pool;
        if Available(pool2) != {} then
          var s := Choose(pool2, pick);
          assert s.out.Returned? && Keyed(s.pool) ==> s.out.value.value.id == pick(Available(pool2)) by {
            if s.out.Returned? && Keyed(s.pool) {
              var k := pick(Available(pool2));
              assert s.pool.byId[k] == s.out.value.value;
            }
          }
          s
        else
          var again := refresh(pool2);
          match again.out
          case Raised(e) => Step(again.pool, Raised(e))
          case Diverges => Step(again.pool, Diverges)
          case Returned(false) => Step(again.pool, Returned(None))
          case Returned(true) =>
            if fuel == 0 then Step(again.pool, Diverges)
            else GetProxyWith(again.pool, refresh, pick, fuel - 1)
  }

  /** When set_new_proxies never raises, get_proxy raises only on a zero rotation
      period or a chosen id that is not a key. */
  lemma {:induction false} GetProxyWithRaises(pool: Pool, refresh: Pool -> Step<bool>, pick: set<Id> -> Id, fuel: nat)
    requires Chooser(pick)
    requires forall q :: !refresh(q).out.Raised?
    ensures var s := GetProxyWith(pool, refresh, pick, fuel);
      s.out.Raised? ==> s.out.error == ZeroDivisionError || s.out.error.KeyError?
    decreases fuel
  {
    var pool1 := pool.(totalRequests := pool.totalRequests + 1);
    if pool1.rotateEvery != 0 {
      var rotated :=
        if pool1.totalRequests % pool1.rotateEvery == 0 then refresh(pool1)
        else Step(pool1, Returned(false));
      if rotated.out.Returned? && Available(rotated.pool) == {} {
        var again := refresh(rotated.pool);
        if again.out == Returned(true) && fuel > 0 {
          GetProxyWithRaises(again.pool, refresh, pick, fuel - 1);
        }
      }
    }
  }

  /** Each call of get_proxy counts one request, so when set_new_proxies leaves
      the counter and the period alone, a call that re-enters at most `fuel` times
      raises the counter by at least one and at most `fuel + 1`. */
  lemma {:induction false} GetProxyWithCount(pool: Pool, refresh: Pool -> Step<bool>, pick: set<Id> -> Id, fuel: nat)
    requires Chooser(pick) && pool.rotateEvery != 0
    requires forall q :: refresh(q).pool.totalRequests == q.totalRequests && refresh(q).pool.rotateEvery == q.rotateEvery
    ensures var s := GetProxyWith(pool, refresh, pick, fuel);
      pool.totalRequests + 1 <= s.pool.totalRequests <= pool.totalRequests + 1 + fuel
    decreases fuel
  {
    var pool1 := pool.(totalRequests := pool.totalRequests + 1);
    var rotated :=
      if pool1.totalRequests % pool1.rotateEvery == 0 then refresh(pool1)
      else Step(pool1, Returned(false));
    if rotated.out.Returned? && Available(rotated.pool) == {} {
      var again := refresh(rotated.pool);
      if again.out == Returned(true) && fuel > 0 {
        GetProxyWithCount(again.pool, refresh, pick, fuel - 1);
      }
    }
  }

  /** On a turn where set_new_proxies is not consulted, or answers without
      touching the pool (its answer is ignored there), and something is available, get_proxy counts the request
      and hands out the randomly chosen record with `used` bumped, or raises
      KeyError when the chosen id is not a key. */
  lemma GetProxyWithHandOut(pool: Pool, refresh: Pool -> Step<bool>, pick: set<Id> -> Id, fuel: nat)
    requires Chooser(pick) && pool.rotateEvery != 0 && Available(pool) != {}
    requires var counted := pool.(totalRequests := pool.totalRequests + 1);
      counted.totalRequests % counted.rotateEvery != 0
      || (refresh(counted).pool == counted && refresh(counted).out.Returned?)
    ensures var s := GetProxyWith(pool, refresh, pick, fuel);
      var k := pick(Available(pool));
      var counted := pool.(totalRequests := pool.totalRequests + 1);
      && (k in pool.byId ==>
            && s.out == Returned(Some(pool.byId[k].(used := pool.byId[k].used + 1)))
            && s.pool == counted.(byId := pool.byId[k := s.out.value.value]))
      && (k !in pool.byId ==> s == Step(counted, Raised(KeyError(k))))
  {
  }

  /** `mark_proxy_dead(proxy)` for the proxy the pool holds under `id`: the id moves
      to dead, and the record is flagged dead with next_check = now + backoff drawn
      from its failures so far, after which failed_attempts goes up by one. */
  function MarkDead(pool: Pool, id: Id, c: Clock): (r: Pool)
    ensures r.dead == pool.dead + {id}
    ensures r.good == pool.good - {id} && r.unchecked == pool.unchecked - {id}
    ensures r.byId.Keys == pool.byId.Keys
    ensures forall k :: k in pool.byId && k != id ==> r.byId[k] == pool.byId[k]
    ensures id in pool.byId ==>
      var before := pool.byId[id];
      var after := r.byId[id];
      && after.dead
      && after.failedAttempts == before.failedAttempts + 1
      && after.nextCheck.Some?
      && c.now <= after.nextCheck.value <= c.now + Backoff.JitterBound(before.failedAttempts) as real
      && after.backoffTime == Some(Backoff.Delay(before.failedAttempts, c.u))
      && after.nextCheck == Some(c.now + Backoff.Delay(before.failedAttempts, c.u))
      && after == before.(dead := true, failedAttempts := after.failedAttempts,
                          nextCheck := after.nextCheck, backoffTime := after.backoffTime)
    ensures r == pool.(byId := r.byId, dead := r.dead, good := r.good, unchecked := r.unchecked)
  {
    var moved := pool.(dead := pool.dead + {id}, good := pool.good - {id},
                       unchecked := pool.unchecked - {id});
    if id !in pool.byId then moved
    else
      var before := pool.byId[id];
      var delay := Backoff.Delay(before.failedAttempts, c.u);
      var after := before.(dead := true, backoffTime := Some(delay),
                           nextCheck := Some(c.now + delay),
                           failedAttempts := before.failedAttempts + 1);
      moved.(byId := pool.byId[id := after])
  }

  /** `mark_proxy_good(proxy)` as written: it adds the id to good, drops it from
      unchecked, and then raises on `self.bad`, an attribute the class lacks, so
      failed_attempts and the dead flag are never reset. */
  function MarkGood(pool: Pool, id: Id): (s: Step<()>)
    ensures s.out == Raised(AttributeError("bad"))
    ensures id in s.pool.good && id !in s.pool.unchecked
    ensures s.pool.dead == pool.dead && s.pool.byId == pool.byId
    ensures s.pool == pool.(good := pool.good + {id}, unchecked := pool.unchecked - {id})
  {
    Step(pool.(good := pool.good + {id}, unchecked := pool.unchecked - {id}), Raised(AttributeError("bad")))
  }

  /** mark_proxy_good as evidently intended (`self.dead` for `self.bad`): the id
      leaves unchecked and dead for good, and the record's failure count and dead
      flag are cleared. */
  function MarkGoodFixed(pool: Pool, id: Id): (r: Pool)
    ensures id in r.good && id !in r.unchecked && id !in r.dead
    ensures r.good - {id} == pool.good - {id} && r.unchecked + {id} == pool.unchecked + {id}
    ensures r.dead + {id} == pool.dead + {id}
    ensures r.byId.Keys == pool.byId.Keys
    ensures forall k :: k in pool.byId && k != id ==> r.byId[k] == pool.byId[k]
    ensures id in pool.byId ==> r.byId[id].failedAttempts == 0 && !r.byId[id].dead
  {
    var moved := pool.(good := pool.good + {id}, unchecked := pool.unchecked - {id},
                       dead := pool.dead - {id});
    if id in pool.byId then
      moved.(byId := pool.byId[id := pool.byId[id].(failedAttempts := 0, dead := false)])
    else moved
  }

  /** next_check is set and has passed. */
  predicate Ready(p: Proxy, now: real)
  {
    p.nextCheck.Some? && p.nextCheck.value <= now
  }

  /** The dead ids reanimate(now) revives. */
  function Revivable(pool: Pool, now: real): set<Id>
  {
    set k | k in pool.dead && k in pool.byId && Ready(pool.byId[k], now)
  }

  /** `order` lists the members of `ids` once each: the opaque order in which
      `list(self.dead)` iterates a set. */
  ghost predicate Enumerates(order: seq<Id>, ids: set<Id>)
  {
    && (forall i :: 0 <= i < |order| ==> order[i] in ids)
    && (forall k :: k in ids ==> k in order)
    && (forall i, j :: 0 <= i < j < |order| ==> order[i] != order[j])
  }

  /** The loop of reanimate over the ids in `order`: a missing key raises KeyError,
      a ready record moves from dead to unchecked. */
  function ReanimateIn(pool: Pool, order: seq<Id>, now: real): (s: Step<()>)
    ensures s.pool.byId == pool.byId && s.pool.good == pool.good && s.pool.changed == pool.changed
    ensures s.out.Raised? ==> s.out.error.KeyError? && s.out.error.key in order && s.out.error.key !in pool.byId
    decreases |order|
  {
    if order == [] then Step(pool, Returned(()))
    else
      var k := order[0];
      if k !in pool.byId then Step(pool, Raised(KeyError(k)))
      else
        var next :=
          if Ready(pool.byId[k], now)
          then pool.(dead := pool.dead - {k}, unchecked := pool.unchecked + {k})
          else pool;
        ReanimateIn(next, order[1..], now)
  }

  /** `reanimate(now)`: clears `changed`, then revives the dead ids whose
      next_check has passed. */
  function Reanimate(pool: Pool, now: real, order: seq<Id>): (s: Step<()>)
    requires Enumerates(order, pool.dead)
    ensures pool.dead <= pool.byId.Keys ==>
      && s.out == Returned(())
      && s.pool == pool.(changed := false,
                         dead := pool.dead - Revivable(pool, now),
                         unchecked := pool.unchecked + Revivable(pool, now))
    ensures !(pool.dead <= pool.byId.Keys) ==>
      s.out.Raised? && s.out.error.KeyError? && s.out.error.key in pool.dead - pool.byId.Keys
    ensures !s.pool.changed && s.pool.byId == pool.byId && s.pool.good == pool.good
  {
    ReanimateLoop(pool.(changed := false), order, now);
    ReanimateIn(pool.(changed := false), order, now)
  }

  /** The ids of `order` that the loop revives. */
  function ReadyIn(pool: Pool, order: seq<Id>, now: real): set<Id>
  {
    set i | 0 <= i < |order| && order[i] in pool.byId && Ready(pool.byId[order[i]], now) :: order[i]
  }

  /** What the loop does to the buckets: over distinct dead ids it revives exactly
      the ready ones, or stops at the first id that is not a key. */
  lemma ReanimateLoop(pool: Pool, order: seq<Id>, now: real)
    requires forall i :: 0 <= i < |order| ==> order[i] in pool.dead
    requires forall i, j :: 0 <= i < j < |order| ==> order[i] != order[j]
    ensures var s := ReanimateIn(pool, order, now);
      && s.pool.byId == pool.byId && s.pool.good == pool.good && s.pool.changed == pool.changed
      && ((forall i :: 0 <= i < |order| ==> order[i] in pool.byId) ==>
            s.out == Returned(())
            && s.pool == pool.(dead := pool.dead - ReadyIn(pool, order, now),
                               unchecked := pool.unchecked + ReadyIn(pool, order, now)))
      && (!(forall i :: 0 <= i < |order| ==> order[i] in pool.byId) ==>
            s.out.Raised? && s.out.error.KeyError?
            && s.out.error.key in order && s.out.error.key !in pool.byId)
    ensures var s := ReanimateIn(pool, order, now);
      forall j :: 0 <= j < |order| && order[j] !in pool.byId && (forall i :: 0 <= i < j ==> order[i] in pool.byId) ==>
        && s.out == Raised(KeyError(order[j]))
        && s.pool == pool.(dead := pool.dead - ReadyIn(pool, order[..j], now),
                           unchecked := pool.unchecked + ReadyIn(pool, order[..j], now))
  {
    if forall i :: 0 <= i < |order| ==> order[i] in pool.byId {
      ReanimateRuns(pool, order, now);
    } else {
      var j := FirstMissing(pool, order);
      ReanimateStops(pool, order, now, j);
    }
    forall j | 0 <= j < |order| && order[j] !in pool.byId && (forall i :: 0 <= i < j ==> order[i] in pool.byId) {
      ReanimateStops(pool, order, now, j);
    }
  }

  /** The position of the first id of `order` that is not a key. */
  lemma {:induction false} FirstMissing(pool: Pool, order: seq<Id>) returns (j: nat)
    requires exists i :: 0 <= i < |order| && order[i] !in pool.byId
    ensures j < |order| && order[j] !in pool.byId
    ensures forall i :: 0 <= i < j ==> order[i] in pool.byId
    decreases |order|
  {
    if order[0] !in pool.byId {
      j := 0;
    } else {
      var i0 :| 0 <= i0 < |order| && order[i0] !in pool.byId;
      assert order[1..][i0 - 1] !in pool.byId;
      var j1 := FirstMissing(pool, order[1..]);
      j := j1 + 1;
      assert forall i :: 1 <= i < j ==> order[i] == order[1..][i - 1];
    }
  }

  /** When every id is a key, the loop over distinct dead ids revives exactly the
      ready ones, by induction over the order. */
  lemma {:induction false} ReanimateRuns(pool: Pool, order: seq<Id>, now: real)
    requires forall i :: 0 <= i < |order| ==> order[i] in pool.dead && order[i] in pool.byId
    requires forall i, j :: 0 <= i < j < |order| ==> order[i] != order[j]
    ensures ReanimateIn(pool, order, now) ==
      Step(pool.(dead := pool.dead - ReadyIn(pool, order, now),
                 unchecked := pool.unchecked + ReadyIn(pool, order, now)), Returned(()))
    decreases |order|
  {
    if order != [] {
      var k := order[0];
      var next :=
        if Ready(pool.byId[k], now)
        then pool.(dead := pool.dead - {k}, unchecked := pool.unchecked + {k})
        else pool;
      var rest := order[1..];
      assert forall i :: 0 <= i < |rest| ==> rest[i] == order[i + 1];
      ReanimateRuns(next, rest, now);
      assert ReadyIn(pool, order, now) == ReadyIn(next, rest, now) + (if Ready(pool.byId[k], now) then {k} else {}) by {
        assert forall i :: 1 <= i < |order| ==> order[i] == rest[i - 1];
      }
    }
  }

  /** The first id of `order` split off from the ids a prefix of it revives. */
  lemma ReadyInPrefix(pool: Pool, next: Pool, order: seq<Id>, now: real, j: nat)
    requires 1 <= j <= |order| && order[0] in pool.byId && next.byId == pool.byId
    ensures ReadyIn(pool, order[..j], now) ==
      ReadyIn(next, order[1..][..j - 1], now) + (if Ready(pool.byId[order[0]], now) then {order[0]} else {})
  {
    var a := order[..j];
    var b := order[1..][..j - 1];
    assert forall i :: 1 <= i < j ==> a[i] == b[i - 1];
    assert forall i :: 0 <= i < j - 1 ==> b[i] == a[i + 1];
  }

  /** The loop stops at the first id that is not a key, raising KeyError for it,
      after reviving the ready ids before it. */
  lemma {:induction false} ReanimateStops(pool: Pool, order: seq<Id>, now: real, j: nat)
    requires j < |order| && order[j] !in pool.byId
    requires forall i :: 0 <= i < j ==> order[i] in pool.byId
    ensures ReanimateIn(pool, order, now).out == Raised(KeyError(order[j]))
    ensures ReanimateIn(pool, order, now).pool ==
      pool.(dead := pool.dead - ReadyIn(pool, order[..j], now),
            unchecked := pool.unchecked + ReadyIn(pool, order[..j], now))
    decreases j
  {
    if j == 0 {
      assert ReadyIn(pool, order[..0], now) == {};
    } else {
      var k := order[0];
      var next :=
        if Ready(pool.byId[k], now)
        then pool.(dead := pool.dead - {k}, unchecked := pool.unchecked + {k})
        else pool;
      var rest := order[1..];
      assert rest[j - 1] == order[j];
      assert forall i :: 0 <= i < j - 1 ==> rest[i] == order[i + 1];
      ReanimateStops(next, rest, now, j - 1);
      ReadyInPrefix(pool, next, order, now, j);
    }
  }

  /** Over a full enumeration of dead, the ids the loop revives are Revivable. */
  lemma ReadyInIsRevivable(pool: Pool, order: seq<Id>, now: real)
    requires Enumerates(order, pool.dead)
    ensures ReadyIn(pool, order, now) == Revivable(pool, now)
  {
  }

  /** reset as evidently intended: walk the current `_proxies` rather than the
      constructor's list, and leave good ids where they are. Every key outside good
      ends in unchecked and nothing stays dead. */
  function ResetFixed(pool: Pool): (r: Pool)
    ensures r.byId == pool.byId && r.good == pool.good
    ensures forall k :: k in pool.byId && k !in pool.good ==> k in r.unchecked && k !in r.dead
    ensures pool.unchecked <= r.unchecked && r.dead <= pool.dead
    ensures r.unchecked * pool.good == pool.unchecked * pool.good
  {
    pool.(unchecked := pool.unchecked + (pool.byId.Keys - pool.good),
          dead := pool.dead - pool.byId.Keys)
  }

  // ---------------------------------------------------------------------------
  // What the operations keep and change

  /** Demoting a pool key keeps both the partition and the weaker invariant, and
      the demoted id is no longer available. */
  lemma MarkDeadKeepsInvariants(pool: Pool, id: Id, c: Clock)
    requires id in pool.byId
    ensures Sound(pool) ==> Sound(MarkDead(pool, id, c))
    ensures Partitioned(pool) ==> Partitioned(MarkDead(pool, id, c))
    ensures id !in Available(MarkDead(pool, id, c))
  {
    var r := MarkDead(pool, id, c);
    if Sound(pool) {
      assert r.byId[id].id == id;
    }
  }

  /** Marking a proxy dead twice leaves it dead both times with its failure count
      strictly growing, and the second backoff is drawn from the larger count. */
  lemma MarkDeadTwice(pool: Pool, id: Id, c1: Clock, c2: Clock)
    requires id in pool.byId
    ensures var once := MarkDead(pool, id, c1);
      var twice := MarkDead(once, id, c2);
      && id in once.dead && id in twice.dead
      && pool.byId[id].failedAttempts < once.byId[id].failedAttempts < twice.byId[id].failedAttempts
      && twice.byId[id].nextCheck == Some(c2.now + Backoff.Delay(pool.byId[id].failedAttempts + 1, c2.u))
      && twice.byId[id].nextCheck.value <= c2.now + Backoff.JitterBound(pool.byId[id].failedAttempts + 1) as real
  {
  }

  /** A proxy demoted at time c.now stays dead, and out of `available`, when
      reanimate runs before its next_check, and is back in unchecked when reanimate
      runs at or after it. */
  lemma BackoffWindow(pool: Pool, id: Id, c: Clock, now: real, order: seq<Id>)
    requires Sound(pool) && id in pool.byId
    requires Enumerates(order, MarkDead(pool, id, c).dead)
    ensures var demoted := MarkDead(pool, id, c);
      var due := demoted.byId[id].nextCheck.value;
      var revived := Reanimate(demoted, now, order);
      && c.now <= due
      && (now < due ==> id in revived.pool.dead && id !in Available(revived.pool))
      && (due <= now ==> id in revived.pool.unchecked && id !in revived.pool.dead)
  {
    var demoted := MarkDead(pool, id, c);
    MarkDeadKeepsInvariants(pool, id, c);
    assert demoted.dead <= demoted.byId.Keys;
  }

  /** reanimate keeps both invariants; under them it never meets a missing key. */
  lemma ReanimateKeepsInvariants(pool: Pool, now: real, order: seq<Id>)
    requires Enumerates(order, pool.dead)
    ensures Sound(pool) ==> Reanimate(pool, now, order).out == Returned(())
    ensures Sound(pool) ==> Sound(Reanimate(pool, now, order).pool)
    ensures Partitioned(pool) ==> Partitioned(Reanimate(pool, now, order).pool)
  {
  }

  /** For a fixed `now`, a second reanimate changes nothing. */
  lemma ReanimateIdempotent(pool: Pool, now: real, order: seq<Id>, order2: seq<Id>)
    requires pool.dead <= pool.byId.Keys
    requires Enumerates(order, pool.dead)
    requires Enumerates(order2, Reanimate(pool, now, order).pool.dead)
    ensures var once := Reanimate(pool, now, order).pool;
      Reanimate(once, now, order2) == Step(once, Returned(()))
  {
    var once := Reanimate(pool, now, order).pool;
    assert Revivable(once, now) == {};
  }

  /** reset empties dead of every id in the constructor's list and puts each in
      unchecked, leaves good alone, and keeps the weaker invariant. */
  lemma ResetKeepsSound(pool: Pool)
    ensures IdSet(pool.seeded) <= Reset(pool).unchecked
    ensures IdSet(pool.seeded) !! Reset(pool).dead
    ensures Reset(pool).good == pool.good && Reset(pool).byId == pool.byId
    ensures Sound(pool) ==> Sound(Reset(pool))
  {
  }

  /** ...but not the partition: a good id from the constructor's list ends in both
      good and unchecked. */
  lemma ResetOverlap(pool: Pool, id: Id)
    requires id in pool.good && id in IdSet(pool.seeded)
    ensures id in Reset(pool).good && id in Reset(pool).unchecked
    ensures !Partitioned(Reset(pool))
  {
  }

  /** When the map still holds exactly the constructor's list, reset leaves nothing
      dead. */
  lemma ResetRevivesAll(pool: Pool)
    requires Covered(pool) && IdSet(pool.seeded) == pool.byId.Keys
    ensures Reset(pool).dead == {}
    ensures Available(Reset(pool)) == pool.byId.Keys
  {
  }

  /** The corrected reset keeps the partition, empties dead and makes every key
      available. */
  lemma ResetFixedKeepsPartition(pool: Pool)
    ensures Partitioned(pool) ==> Partitioned(ResetFixed(pool))
    ensures Covered(pool) ==> ResetFixed(pool).dead == {} && Available(ResetFixed(pool)) == pool.byId.Keys
    ensures ResetFixed(pool).good == pool.good
  {
  }

  /** mark_proxy_good as written breaks the invariant on a dead proxy: the id ends
      in good and in dead at once, and the proxy's failure count is kept. */
  lemma MarkGoodBreaksSound(pool: Pool, id: Id)
    requires id in pool.dead
    ensures var s := MarkGood(pool, id);
      id in s.pool.good && id in s.pool.dead && !Sound(s.pool) && !Partitioned(s.pool)
  {
  }

  /** The corrected mark_proxy_good keeps the partition, leaves the id in good only,
      and clears the record's failure count and dead flag. */
  lemma MarkGoodFixedKeepsPartition(pool: Pool, id: Id)
    requires id in pool.byId
    ensures Partitioned(pool) ==> Partitioned(MarkGoodFixed(pool, id))
    ensures Sound(pool) ==> Sound(MarkGoodFixed(pool, id))
    ensures var r := MarkGoodFixed(pool, id);
      && id in r.good && id !in r.unchecked && id !in r.dead
      && r.byId[id].failedAttempts == 0 && !r.byId[id].dead
  {
  }
}
