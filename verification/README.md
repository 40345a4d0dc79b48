# Proxy pool middleware, modelled in Dafny

This project models the proxy health pool of green-middleware and the decision
logic its two HTTP adapters build on it.

The pool is `ProxyMiddleware`, in two near-identical variants: `greenmw/mw.py` and
the top-level `mw.py`. It keeps a map from proxy id to `Proxy` record, split into
three id buckets (`unchecked`, `good`, `dead`), plus a request counter. It offers
these operations:

- `init_proxies`
- `get_proxy` (random choice over `unchecked ∪ good`, with rotation every N requests)
- `mark_proxy_dead` (exponential backoff with full jitter)
- `mark_proxy_good`
- `reanimate`
- `reset`

The adapters (`greenmw/adapter.py` and `adapter.py`) do three things:

- classify responses in `build_response`;
- select a proxy in `send` ("get, else reset and get again, else fail");
- demote the proxy when the transport raises.

Everything is a pure function over immutable values:

- `Pool` is the middleware object and `Proxy` is one record.
- A call that can raise returns a `Step`, meaning the state it leaves behind plus an `Outcome`: `Returned`, `Raised(Error)` or `Diverges`. State changed before an exception stays changed, as in Python.
- `time.time()` and `random.random()` become a `Clock` parameter.
- `random.choice` becomes a chooser function `pick`, constrained to return a member of the non-empty set it is given.
- The order in which `list(self.dead)` iterates becomes a parameter that enumerates `dead`.

Modules:

- `Base`: options, errors, outcomes, clock readings.
- `Backoff`: `exp_backoff` and `exp_backoff_full_jitter`.
- `ProxyPool`: everything the two pool files share. `get_proxy` is written once, parameterised by the file's `set_new_proxies`.
- `GreenPool` and `MeshPool`: what each pool file adds.
  - `greenmw`'s uuid ids and its failing `set_new_proxies`.
  - `mw.py`'s md5 ids over the address plus a ProxyMesh header, and its mesh-driven `set_new_proxies` with the `changed` flag.
- `Routing`: what both adapters share.
- `GreenAdapter` and `Adapter`: the two adapter files.

Two invariants are stated about the pool:

- `Partitioned`: the three buckets are disjoint and cover the map's keys.
- `Sound`: the buckets cover the keys, `dead` is disjoint from the available ids, the constructor's ids are keys, and every record sits under its own id.

`reset` keeps `Sound` but not `Partitioned`.

Where the adapters hand a request to the HTTP library (`super().send`), the model follows what requests' `HTTPAdapter.send` does:

1. it calls the adapter's `add_headers`;
2. it transmits the request;
3. on an answer, it calls the adapter's `build_response`.

Any exception raised on the way reaches the `except` block of the adapter's `send` (`Routing.Transmit`).

A typical session of the behaviour this model describes:

| `mw.py` pool | greenmw adapter | adapter.py |
|---|---|---|
| `Create([a, b], 2000)` puts both ids in unchecked | a 429 demotes the proxy twice and raises `StatusCodeException` | a 429 demotes the proxy once and returns the response |
| `GetProxy` hands out one of them | a 503 demotes the proxy and returns the response | a 503 demotes the proxy and returns the response |
| `MarkDead` moves it to dead with `next_check` at most 31 s ahead | a transport error demotes the proxy once and re-raises | without a middleware, `add_headers` raises `AttributeError` |

## Model

| member | source | states |
|---|---|---|
| Backoff.ExpBackoff | greenmw/mw.py:137-144 | `cap / base` raises ZeroDivisionError exactly when base is 0; `math.log` raises ValueError exactly when the ratio is not positive; otherwise the result is cap or base·2^attempt |
| Backoff.ExpBackoffIsMin | greenmw/mw.py:139-144 | for positive cap and base, the log comparison computes min(cap, base·2^attempt), as the comment claims |
| Backoff.ExpBackoffBounds | mw.py:187-194 | a positive cap and base never raise, and the result lies in (0, cap] |
| Backoff.Uniform | greenmw/mw.py:149 | `random.uniform(0, hi)` lies between 0 and hi on whichever side of 0 hi is, and strictly below a positive hi |
| Backoff.FullJitter | greenmw/mw.py:147-149 | the jitter fails exactly when exp_backoff fails, with the same error; otherwise it is a uniform draw from [0, exp_backoff − 5] |
| Backoff.Delay | greenmw/mw.py:115 | the pool's backoff for n prior failures lies in [0, exp_backoff(n) − 5], strictly below a positive bound |
| Backoff.JitterBoundValues | greenmw/mw.py:137-149 | with the defaults cap 36 and base 5, the jitter bound is 0, 5 and 15 for 0, 1 and 2 failures, and 31 from then on |
| Backoff.JitterBoundMonotone | greenmw/mw.py:137-149 | the bound is 0 for a first failure, never decreases as failures grow, and never exceeds 31 |
| Backoff.DelayRange | mw.py:197-199 | every delay drawn lies in [0, 31], and it is 0 for a proxy with no prior failure |
| ProxyPool.Index | greenmw/mw.py:63-64 | the map's keys are the ids of the list, each record is stored under its own id, and of several proxies with one id the last one is kept |
| ProxyPool.Formatted | greenmw/mw.py:29-30 | `formatted` routes exactly "http" and "https", both to the proxy's address |
| ProxyPool.ResetFrom | greenmw/mw.py:131-134 | unchecked gains the ids of the list and dead loses them; nothing else changes |
| ProxyPool.Reset | greenmw/mw.py:131-134 | reset puts the ids of the constructor's list into unchecked and takes them out of dead; the map, good and everything else stay as they were |
| ProxyPool.InitProxies | greenmw/mw.py:55-66 | the map holds exactly the new list; good and dead are empty; unchecked is the new ids plus the constructor list's ids (reset walks the constructor list) |
| ProxyPool.Create | greenmw/mw.py:49-53 | a new middleware is Partitioned and Sound: every id is unchecked, nothing is good or dead, and the counter is 0 |
| ProxyPool.Available | greenmw/mw.py:101-106 | on a partitioned pool, the available ids are exactly the keys that are not dead |
| ProxyPool.Choose | greenmw/mw.py:86-88 | KeyError exactly when the random id is not a key; otherwise that record comes back with `used` one higher and is stored back, and no other record changes |
| ProxyPool.GetProxyWith | greenmw/mw.py:75-88 | a proxy get_proxy returns is available and is the record the pool holds under its id |
| ProxyPool.GetProxyWithRaises | mw.py:125-138 | when set_new_proxies cannot raise, get_proxy raises only ZeroDivisionError (rotation period 0) or KeyError |
| ProxyPool.GetProxyWithCount | mw.py:125-138 | when set_new_proxies leaves the counter and period alone, get_proxy counts at least one request and at most one more per re-entry |
| ProxyPool.GetProxyWithHandOut | greenmw/mw.py:75-88 | on a turn where set_new_proxies is skipped or returns without touching the pool (its answer is ignored there), and something is available, get_proxy counts the request and returns the randomly chosen record with `used` bumped, or raises KeyError for a chosen id that is not a key |
| ProxyPool.MarkDead | greenmw/mw.py:108-119 | the id moves to dead and leaves good and unchecked; the record is flagged dead; the backoff is the jitter drawn from the failure count before the call, and next_check is now plus that backoff, so it lies in [now, now + bound(old failures)]; failed_attempts goes up by exactly one; every other id and record is unchanged |
| ProxyPool.MarkDeadKeepsInvariants | mw.py:158-169 | demoting a key keeps Partitioned and Sound, and the id is no longer available |
| ProxyPool.MarkDeadTwice | greenmw/mw.py:114-117 | demoting twice leaves the proxy dead with its failure count rising each time, and the second next_check is the second reading plus the jitter drawn from the raised count |
| ProxyPool.MarkGood | greenmw/mw.py:121-125 | as written: the id joins good and leaves unchecked, then `self.bad` raises AttributeError; no other id changes bucket, and dead and the records stay as they were |
| ProxyPool.MarkGoodBreaksSound | greenmw/mw.py:121-129 | on a dead proxy, mark_proxy_good leaves the id in both good and dead, breaking both invariants |
| ProxyPool.MarkGoodFixed | mw.py:171-179 | corrected mark_proxy_good: the id ends in good only; every other id keeps its buckets; the keys and every other record are unchanged; the id's record has failure count 0 and is not dead |
| ProxyPool.MarkGoodFixedKeepsPartition | mw.py:171-179 | corrected mark_proxy_good: the id sits in good only, the failure count is 0, the record is not dead, and both invariants are kept |
| ProxyPool.Reanimate | greenmw/mw.py:90-99 | clears `changed`; when every dead id is a key, exactly the dead ids whose next_check is set and has passed move to unchecked; otherwise a KeyError names a dead id that is not a key |
| ProxyPool.ReanimateLoop | greenmw/mw.py:94-99 | the loop over any enumeration of dead revives exactly the ready ids it visits; when some id is not a key, it stops at the first such id j, raises KeyError for it, and leaves the pool with exactly the ready ids before j moved from dead to unchecked |
| ProxyPool.ReanimateIn | greenmw/mw.py:94-99 | one pass of the loop never touches the map, good or `changed`, and the only error it raises is KeyError for a visited id that is not a key |
| ProxyPool.ReanimateRuns | greenmw/mw.py:94-99 | when every visited id is a key, the loop over distinct dead ids returns and moves exactly the ready ones from dead to unchecked |
| ProxyPool.ReanimateStops | greenmw/mw.py:94-99 | when every id before position j is a key and `order[j]` is not, the loop raises KeyError(order[j]) after moving exactly the ready ids before j from dead to unchecked |
| ProxyPool.ReadyInIsRevivable | greenmw/mw.py:94-96 | over a full enumeration of dead, the ids the loop revives are exactly the ready dead keys, whatever the order |
| ProxyPool.BackoffWindow | greenmw/mw.py:90-119 | a proxy demoted at time t stays dead and out of available for a reanimate before its next_check, and is back in unchecked for one at or after it |
| ProxyPool.ReanimateKeepsInvariants | mw.py:140-149 | on a Sound pool, reanimate never meets a missing key; it keeps Sound and Partitioned |
| ProxyPool.ReanimateIdempotent | greenmw/mw.py:90-99 | a second reanimate with the same `now` changes nothing |
| ProxyPool.ResetKeepsSound | greenmw/mw.py:131-134 | reset puts every constructor id in unchecked and none in dead, leaves good and the map alone, and keeps Sound |
| ProxyPool.ResetOverlap | greenmw/mw.py:131-134 | a good constructor id ends in both good and unchecked, so reset breaks Partitioned |
| ProxyPool.ResetRevivesAll | mw.py:181-184 | when the map still holds exactly the constructor list, reset leaves nothing dead and every key available |
| ProxyPool.ResetFixed | greenmw/mw.py:131-134 | corrected reset: the map and good stay; every key outside good ends in unchecked and not dead; unchecked only grows, dead only shrinks, and no good id joins unchecked |
| ProxyPool.ResetFixedKeepsPartition | greenmw/mw.py:131-134 | corrected reset (walking the current map, skipping good ids): keeps Partitioned, empties dead, makes every key available |
| GreenPool.NewProxy | greenmw/mw.py:16-30 | a new greenmw Proxy has the given id and address, no failures, is not dead, and has no next_check |
| GreenPool.SetNewProxies | greenmw/mw.py:68-73 | as written: set_new_proxies never answers (it raises on `self.mesh`) and changes nothing |
| GreenPool.SetNewProxiesFixed | greenmw/mw.py:68-73 | corrected set_new_proxies: reports False (nothing changed) and leaves the pool alone |
| GreenPool.GetProxy | greenmw/mw.py:75-88 | as written, get_proxy never returns None. It raises AttributeError on every rotation turn and whenever nothing is available (set_new_proxies reads `self.mesh`), and ZeroDivisionError for a rotation period of 0. On every other turn with a non-zero period and something available it counts the request and hands out the randomly chosen record with `used` bumped, stored back, or raises KeyError when the chosen id is not a key |
| GreenPool.GetProxyFixed | greenmw/mw.py:68-73 | with set_new_proxies returning False, get_proxy returns None exactly when the rotation period is non-zero and nothing is available |
| GreenPool.GetProxyKeepsInvariants | greenmw/mw.py:75-88 | get_proxy keeps Sound and Partitioned |
| GreenPool.GetProxyOnSoundPool | greenmw/mw.py:77-85 | on a Sound pool, get_proxy returns exactly when the new count is no multiple of the period and something is available; otherwise it raises AttributeError |
| GreenPool.SingleProxyScenario | greenmw/mw.py:75-119 | one run with one proxy: it is handed out; after mark_proxy_dead the next get_proxy raises instead of returning None, still counting the request; a reanimate at or past next_check then lets the following get_proxy hand the proxy out again as the third request |
| GreenPool.FixedReportsEmpty | greenmw/mw.py:82-85 | with the corrected set_new_proxies, a pool whose keys are all dead yields None |
| MeshPool.NewProxy | mw.py:38-51 | a new mw.py Proxy's id is the digest of the address plus the selected ProxyMesh header value |
| MeshPool.IdSuffix | mw.py:40-48 | the text appended to the address is empty when neither ProxyMesh header is present, and otherwise the value of one of them |
| MeshPool.IdSuffixPriority | mw.py:40-49 | the id key appends X-ProxyMesh-Prefer-IP when present, else X-ProxyMesh-IP when present, else nothing |
| MeshPool.SameKeySameId | mw.py:49 | two proxies with the same address and selected header value share an id, and `_proxies` keeps the later one |
| MeshPool.SetNewProxies | mw.py:93-123 | without a mesh: False and no change. With a mesh: True and `changed` set; it reseeds through init_proxies only when `changed` was clear |
| MeshPool.GetProxy | mw.py:125-138 | ZeroDivisionError for a period of 0; the only errors are ZeroDivisionError and KeyError; a returned proxy is available and is the pool's record; every call counts one request and a re-entry one more; on a turn that does not reseed (no mesh, `changed` already set, or not a rotation turn) with something available it hands out the randomly chosen record with `used` bumped and stores it back, or raises KeyError when the chosen id is not a key |
| MeshPool.GetProxyWithoutMesh | mw.py:132-135 | without a mesh, get_proxy returns None exactly when nothing is available; it never reseeds and counts one request |
| MeshPool.GetProxyWithMesh | mw.py:132-135 | with a mesh, get_proxy never returns None |
| MeshPool.ReseedOnce | mw.py:102-120 | after a reseed, set_new_proxies answers True without reseeding until reanimate clears `changed` |
| MeshPool.StuckForever | mw.py:132-134 | with a mesh, `changed` set and nothing available, get_proxy re-enters itself at every depth |
| MeshPool.SettledLevel | mw.py:132-134 | from a state with `changed` set, get_proxy's outcome does not depend on how deep re-entry is followed |
| MeshPool.FuelIrrelevant | mw.py:125-138 | following re-entry once gives the same outcome as following it any deeper |
| MeshPool.ChangedEmptyDiverges | mw.py:132-134 | with a mesh, `changed` set and nothing available, get_proxy never hands out a proxy: it re-enters itself without end (in the program, the re-entry blocks or raises LoopExit) |
| MeshPool.RotationReseeds | mw.py:127-130 | a rotation turn with a mesh and `changed` clear reseeds the map from the mesh, and the constructor's ids become available |
| MeshPool.StaleIdAfterReseed | mw.py:88-91 | after a reseed on a rotation turn, a constructor id that is not a key is available; choosing it raises KeyError, and the pool is no longer Sound |
| MeshPool.ResetAfterReseed | mw.py:181-184 | reset after a reseed puts a constructor id that is no longer a key into unchecked, breaking Sound |
| MeshPool.GetProxyKeepsSound | mw.py:125-138 | without a mesh, get_proxy keeps Sound |
| Routing.Update | greenmw/adapter.py:147 | `dict.update`: keys of the update take its values, the other keys keep theirs |
| Routing.Digits | greenmw/adapter.py:127 | `str(n)` is a non-empty string of decimal digits whose first character is n's leading digit |
| Routing.DigitsRoundTrip | greenmw/adapter.py:127 | reading the digits of `str(n)` back gives n |
| Routing.StartsWithFive | greenmw/adapter.py:127 | a status whose text starts with '5' is at least 5 (a negative status starts with '-') |
| Routing.StartsWithFiveLeading | greenmw/adapter.py:127 | the text starts with '5' exactly when the status is non-negative and its leading decimal digit is 5 |
| Routing.FiveHundreds | greenmw/adapter.py:127 | among three-digit statuses, `str(status)[0] == "5"` selects exactly 500 to 599 |
| Routing.NotOnlyServerErrors | adapter.py:134 | the test also selects 5, 50 and 5000, and never a negative status |
| Routing.ListedNotServerError | adapter.py:104-111 | no status of the list 400, 403, 407, 408, 429, 499 passes the '5' test |
| Routing.Guarded | greenmw/adapter.py:106-107 | `if self.proxy_mw: mark_proxy_dead(req.proxy)`: no middleware means no call; a missing `req.proxy` raises AttributeError; otherwise the proxy ends dead and unavailable |
| Routing.Unguarded | adapter.py:134-136 | the unguarded call raises AttributeError without a middleware and otherwise behaves as the guarded one |
| Routing.DemotionEffect | greenmw/mw.py:108-119 | with a middleware holding the proxy, either call demotes it: dead, unavailable, one more failure, no other record touched |
| Routing.DataOf | greenmw/adapter.py:110-124 | `response.data` is the parsed JSON exactly when the decode succeeds, the raw content exactly on JSONDecodeError, and `{"success": "false"}` exactly on any other exception |
| Routing.Select | greenmw/adapter.py:137-143 | a returned proxy came from the first get_proxy or from the one after reset. "No Proxy Available after reset()" is raised exactly when both get_proxy calls give None, or when one of them raised it |
| Routing.Handler | greenmw/adapter.py:158-161 | send's except block demotes `request.proxy` once when there is a middleware and re-raises the same exception |
| Routing.Transmit | greenmw/adapter.py:154-161 | the library is handed the given `proxies`. A failing add_headers or transport goes through the handler; a returned response is build_response's |
| GreenAdapter.NewAdapter | greenmw/adapter.py:18-43 | the retry settings are stored as given; the retried exceptions keep the given ones in order, and StatusCodeException is appended after them exactly when the status tuple is non-empty |
| GreenAdapter.RetriesOnStatus | greenmw/adapter.py:36-37 | StatusCodeException is retried exactly when the status tuple is non-empty |
| GreenAdapter.DefaultSettings | greenmw/adapter.py:25-31 | the defaults: every Exception plus StatusCodeException, on 400, 403, 407, 408, 429, 499, with 3 tries, delay 1, backoff 2, max delay 4 and jitter 0 |
| GreenAdapter.AddHeaders | greenmw/adapter.py:86-91 | with a header hook it raises AttributeError on `proxy_cls.uuid`; without one the result is the request's headers updated by the proxy's static headers: the static value wins on a clash and every other request header keeps its value |
| GreenAdapter.AddHeadersAfterSend | greenmw/adapter.py:144-150 | send has already merged the static headers, so for a proxy without a hook add_headers leaves the request's headers exactly as send set them |
| GreenAdapter.BuildResponse | greenmw/adapter.py:105-131 | three outcomes. A retry status demotes once and raises. A status starting with '5' or a failed non-JSON decode demotes and returns the response, with `proxy` set to the proxy in its demoted state. Any other answer returns the response with the request's proxy and leaves the pool untouched |
| GreenAdapter.Attached | greenmw/adapter.py:125 | `response.proxy` is the request's proxy, read back from the pool after a demotion so that it carries the demoted state |
| GreenAdapter.BuildResponseDemotions | greenmw/adapter.py:105-131 | build_response makes one demotion for a retry status; otherwise one for a failed decode plus one for a '5' status. No other record changes |
| GreenAdapter.Send | greenmw/adapter.py:133-161 | without a middleware it raises AttributeError. The library is handed exactly the chosen proxy's `formatted` routes, never the caller's, and only for a proxy without a hook |
| GreenAdapter.NeverResets | greenmw/adapter.py:137-143 | with the pool's get_proxy as written, send never reaches reset and never raises "No Proxy Available after reset()" |
| GreenAdapter.FixedFailsOnlyAfterReset | greenmw/adapter.py:137-143 | with set_new_proxies corrected, send raises "No Proxy Available after reset()" exactly when get_proxy gives None before and after reset |
| GreenAdapter.HookStopsSend | greenmw/adapter.py:144-150 | a proxy with a header hook stops send before the library call: static headers merged, AttributeError, no demotion |
| GreenAdapter.TransportFailureDemotesOnce | greenmw/adapter.py:154-161 | a transport failure demotes the chosen proxy exactly once and re-raises the same failure |
| GreenAdapter.RetryStatusDemotesTwice | greenmw/adapter.py:105-108 | a retry status demotes the proxy twice (build_response, then send's handler), so failed_attempts rises by 2, and StatusCodeException escapes |
| GreenAdapter.AnswerReturned | greenmw/adapter.py:110-131 | any other status is returned with its data; the pool and the attached proxy are untouched unless the status starts with '5' or decoding failed, in which case the proxy is dead in the pool and the response carries that demoted record |
| Adapter.AddHeaders | adapter.py:85-90 | reading `request.proxy` raises AttributeError exactly when no proxy is attached. Otherwise the keys are exactly the request's, the static ones and (with a hook) the hook's; the static headers win, the hook's other keys come next, and every other request header keeps its value |
| Adapter.AddHeadersFixed | adapter.py:85-90 | corrected add_headers: never raises, and leaves the headers alone when no proxy is attached |
| Adapter.SendHeaders | adapter.py:154-157 | send merges static headers then the hook's output: the keys are exactly the request's, the static ones and (with a hook) the hook's; the hook wins a clash, and other keys are kept |
| Adapter.HeaderPrecedence | adapter.py:86-89 | once add_headers has run inside the library's send, the outgoing request carries the static headers over the hook's on a clash |
| Adapter.BuildWith | adapter.py:92-138 | a returned response carries the status and decoded data; with no middleware or with a proxy attached, a status not starting with '5' is always returned; such a status raises only AttributeError, for a missing proxy under a middleware |
| Adapter.BuildResponse | adapter.py:92-138 | with a middleware and a proxy, every answer is returned (no raise). Without a middleware, a status starting with '5' raises AttributeError and every other status is returned |
| Adapter.BuildResponseFixed | adapter.py:134-137 | with the 5xx demotion guarded, build_response returns every answer when there is no middleware |
| Adapter.BuildResponseDemotions | adapter.py:104-137 | one demotion for a listed status, one for a failed decode, one for a '5' status. A status alone demotes at most once. No other record changes, and Sound is kept |
| Adapter.SendWith | adapter.py:140-168 | without a middleware the request and the caller's `proxies` go to the library untouched. With one, the chosen proxy is attached, its headers merged, and its `formatted` routes replace the caller's |
| Adapter.Send | adapter.py:140-168 | as written, without a middleware, every send that reaches add_headers ends in AttributeError there, after handing the caller's `proxies` to the library |
| Adapter.SendFixed | adapter.py:140-168 | with a middleware, the corrected send behaves exactly as the as-written one: the corrections only matter without a middleware |
| Adapter.FixedPassThrough | adapter.py:143-164 | corrected send without a middleware passes the request and the caller's `proxies` through: a transport failure is re-raised, and any answer is returned |
| Adapter.FailsOnlyAfterReset | adapter.py:144-150 | with a middleware, "No Proxy Available after reset()" is raised exactly when get_proxy gives None before and after reset |
| Adapter.TransportFailureDemotesOnce | adapter.py:161-168 | a transport failure demotes the chosen proxy exactly once and re-raises the same failure |
| Adapter.AnswerReturned | adapter.py:104-138 | every answer to a request with a chosen proxy is returned. A listed status demotes once. A non-'5', unlisted, decodable answer leaves the pool untouched |
| Adapter.SelectKeepsSound | adapter.py:144-150 | without a mesh, the selection keeps Sound and hands out a proxy the pool holds |
| Adapter.SendKeepsSound | adapter.py:140-168 | without a mesh, a whole send keeps Sound, whatever the exchange |

## Left out

- The `@retry` decorator on greenmw's `send` is not modelled: `greenmw/retry.py` is not part of this model. The retry settings are stored as data (`GreenAdapter.Config`), and each model of `send` is one attempt.
- Locking is not modelled: the gevent `BoundedSemaphore` and all concurrency. The model runs each call on its own. Two things are therefore absent from it:
  - `mw.py` takes `BoundedSemaphore(1)` at line 126 and re-enters `get_proxy` at line 134 while holding it. The re-entry blocks on the semaphore, or raises gevent's `LoopExit` ("This operation would block forever") when no other greenlet can run. Either way the program never reaches anything after it;
  - `mark_proxy_good` never releases the semaphore after its exception.
- `proxy_init` is not modelled. It defaults to None (`mw.py`, line 69), so `set_new_proxies` with a mesh would raise TypeError at line 116 unless one is configured. `MeshPool.Mesh` hands out proxies that have already passed through a configured `proxy_init`.
- The mesh's country rotation is not modelled: `gevent.sleep`, `change_location`, `get_proxies`, the `locations` cycle and the retry after a failed `get_proxies` (`mw.py`, lines 99-113). A mesh is modelled as the list of proxies it will hand out (`MeshPool.Mesh`).
- Logging, `print`, cchardet encoding detection and orjson decoding are not modelled. The decode is an oracle that returns parsed, JSONDecodeError or another error.
- The requests/urllib3 overrides are not modelled: `init_poolmanager`, `proxy_manager_for`, `proxy_headers` and the SSL version choice. The same goes for `logging_hook` and `greenmw/__init__.py`.
- Ids are modelled as opaque values.
  - uuid4 ids come in as parameters.
  - md5 (`MeshPool.Digest`) is the identity on its key, so distinct keys give distinct ids. Hash collisions are not modelled.
- `math.log(cap / base, 2)` is replaced by the exact comparison of 2^attempt with cap/base over the reals. Floating-point rounding of the logarithm at exact powers of two is not modelled.
- `time.time()` is a real-valued reading and `random.random()` is a value in [0, 1). Both are passed in.
- Header dictionaries are plain maps. requests' case-insensitive header keys are not modelled.
- A header hook is modelled as the headers it returns. The same value is used for both calls (in `send` and in `add_headers`).
- `mark_proxy_dead(proxy)` is modelled on the pool's record under `proxy`'s id. The source mutates the object it is handed. That object is the pool's own record whenever it came from `get_proxy`, which is the only way the adapters obtain one. Since that record is the object `response.proxy` refers to, `response.proxy` in greenmw is read back from the pool after a demotion (`GreenAdapter.Attached`). A proxy the pool does not hold is attached as it was selected.
- MeshPool.GetProxy: models the re-entry at `mw.py`, line 134 as if the semaphore taken at line 126 were reentrant. It follows at most one re-entry and reports any deeper one as `Diverges`; `MeshPool.FuelIrrelevant` shows that a deeper bound gives the same outcome. In the program the re-entry blocks on the `BoundedSemaphore(1)`, or raises gevent's `LoopExit` when nothing else can run, so everything after it is not reached: the second count, the hand-out after a reseed, and the outcomes of `MeshPool.StuckForever`, `MeshPool.SettledLevel` and `MeshPool.ChangedEmptyDiverges`. `Diverges` stands for both: the hang and the `LoopExit`.
- `mark_proxy_good` is never called by either adapter, and `reanimate` is never called anywhere in the code. Both are modelled as operations on their own.

Choices where the model follows the code as written:

- `init_proxies` (`greenmw/mw.py`, line 55; `mw.py`, line 80) accepts an empty list and builds an empty pool.
- `get_proxy` does not call `reanimate` when nothing is available; it calls `set_new_proxies` (`greenmw/mw.py`, line 83; `mw.py`, line 133).
- `reset` walks the constructor's list, not the current map (`greenmw/mw.py`, line 131; `mw.py`, line 181).
- `mark_proxy_good` raises on `self.bad` before it clears the failure count (`greenmw/mw.py`, line 125; `mw.py`, line 175).

## Findings

| source | as written | input that shows it | evidently intended | confidence | as-written member | corrected member |
|---|---|---|---|---|---|---|
| greenmw/mw.py:125, mw.py:175 | `mark_proxy_good` discards the id from `self.bad`, which neither class defines | any proxy: AttributeError after good/unchecked are updated; a dead proxy stays in dead and also joins good | discard from `self.dead`, then clear the failure count and dead flag | high, not executed | ProxyPool.MarkGoodBreaksSound | ProxyPool.MarkGoodFixedKeepsPartition |
| greenmw/mw.py:72 | `set_new_proxies` logs `self.mesh`, which the greenmw class does not define | `get_proxy` on a pool whose only proxy is dead raises AttributeError instead of returning None | log and return False | high, not executed | GreenPool.GetProxy | GreenPool.FixedReportsEmpty |
| greenmw/mw.py:131-134 | `reset` adds every constructor id to unchecked, including ids in good | a good id ends in both good and unchecked | skip good ids | high, not executed | ProxyPool.ResetOverlap | ProxyPool.ResetFixedKeepsPartition |
| mw.py:181-184 | `reset` walks `self.proxies`, the constructor's list, not the map `init_proxies` last built | after a reseed from the mesh (`init_proxies` runs reset), a constructor id that is no longer a key becomes available, and `get_proxy` raises KeyError when it picks it | walk the current `_proxies` | high, not executed | MeshPool.StaleIdAfterReseed | ProxyPool.ResetFixedKeepsPartition |
| adapter.py:85 | `add_headers` reads `request.proxy`, which `send` only sets when there is a middleware | `ProxyAdapter(proxy_mw=None)`: every send that reaches add_headers ends in AttributeError there, before transmitting (requests' `HTTPAdapter.send` calls `add_headers`) | leave the headers alone when no proxy is attached | medium, not executed | Adapter.Send | Adapter.FixedPassThrough |
| adapter.py:134-136 | the 5xx branch calls `self.proxy_mw.mark_proxy_dead` without the None check the other branches have | `build_response` with `proxy_mw=None` and status 503 raises AttributeError | guard with `if self.proxy_mw` | high, not executed | Adapter.BuildResponse | Adapter.BuildResponseFixed |
