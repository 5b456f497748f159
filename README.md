# CacheMaster cache lifecycle holder, in Dafny

This project models `SingletonCache`, the process-wide holder of the one
`CoreCache` that CacheMaster shares across a process, and proves properties
of its lifecycle. The holder keeps two class-level fields: `_instance`, a
marker object made with `__new__`, and `_cache`, the `CoreCache`. Its
classmethods move these fields through a small state machine:

- `get_instance` creates the cache lazily, on the first call only, and returns `_cache`;
- `initialize_cache` makes sure an instance exists and starts the Redis backend of a REDIS cache. It passes only its own two arguments to `get_instance`, so it can build only a LOCAL cache itself; a Redis cache must already be held;
- `close_cache` closes the Redis backend and resets both fields;
- `get_redis_client` returns the Redis backend's client or raises "Redis cache is not initialized.";
- `SingletonCache()` itself always raises.

The project has three modules:

- `CacheCore` (`core_cache.dfy`) holds the collaborator `CoreCache`, treated as opaque. It has a cache type (LOCAL or REDIS) and exactly one of `local_cache`/`redis_cache`. A Redis backend has a URL and a `client` handle. `Build` gives the outcome of calling the constructor, which raises when the type is REDIS and no `redis_url` keyword argument is given. The exception kinds are a `CacheError` datatype, and operations that can raise return `Result`.
- `CacheLifecycle` (`lifecycle.dfy`) is the holder as a pure state machine. `State` is the pair (`_instance` set, `_cache`). `Step` takes one classmethod call and gives the new state, the calls made on collaborators in order (`NewCoreCache`, `Start`, `Close`), and the reply. `Run` chains steps. The lemmas about runs live here.
- `CacheConfig` (`cache_config.dfy`) holds the class `SingletonCache`, with the two fields and a ghost log of collaborator calls. Each method's `ensures` ties the new fields, the new calls and the reply to `Step` of the old state. The methods also state object identity: later calls return the same `CoreCache` object, and the returned client is the held backend's `client`.

Python exceptions are modelled as `Err` results. When an attribute is looked up on `None` (Python's `AttributeError`), the result is `Err(NoneAttribute)`.

Three consequences of the code are worth stating, because the docstrings suggest otherwise:

- `get_redis_client` ("Returns the Redis client instance.", src/config/cache_config.py:73) creates a missing instance with `get_instance(app_name, CacheType.REDIS_CACHE)` and passes no `redis_url`. `CoreCache` raises for REDIS without a URL, so from an absent holder the call raises the missing-URL exception and leaves the holder half-initialised. A second call raises "Redis cache is not initialized." (`RedisClientFromAbsent`).
- `initialize_cache` ("Initializes the cache connection.", src/config/cache_config.py:47) takes no keyword arguments and calls `get_instance(app_name, cache_type)` with those two only. With REDIS, its default type, on an absent holder it therefore raises the missing-URL exception and half-initialises the holder (`InitializeRedisFromAbsent`). It starts a Redis backend only when a Redis cache was already built by an earlier `get_instance` that was given a `redis_url`.
- `initialize_cache` calls `start` every time it runs on a held REDIS cache (`InitializeStartsOnlyRedis` with `_instance` already set). Whether a second `start` is harmless is up to the Redis backend, which is not part of this model.

## Model

| member | source | states |
|---|---|---|
| `CacheCore.Build` | tests/cache/test_core_cache.py:14-29 | CoreCache construction raises "Redis URL is missing" exactly when the type is REDIS and no `redis_url` is given; otherwise it keeps the type and sets exactly one backend, the Redis one iff the type is REDIS, with the given URL |
| `CacheCore.CoreCache.Create` | tests/cache/test_core_cache.py:20-29 | a construction call yields a fresh CoreCache whose view is `Build`'s, or the exception `Build` predicts |
| `CacheConfig.SingletonCache.constructor` | src/config/cache_config.py:13-14 | the class starts with `_instance` and `_cache` both None and no collaborator calls |
| `CacheConfig.SingletonCache.Instantiate` | src/config/cache_config.py:17-18 | direct construction always raises CacheException "Use `get_instance()` instead of instantiating directly." |
| `CacheConfig.SingletonCache.GetInstance` | src/config/cache_config.py:20-42 | the fields, the calls and the reply follow the get_instance step; the reply is the held `_cache` object itself; once `_instance` is set the held object is kept; a first successful call holds a fresh object |
| `CacheConfig.SingletonCache.InitializeCache` | src/config/cache_config.py:44-56 | the fields, the calls and the reply follow the initialize_cache step (get_instance with the app name and type only, then `start` on a REDIS backend); an existing cache is kept; `start` is called on the held `redis_cache` object itself |
| `CacheConfig.SingletonCache.CloseCache` | src/config/cache_config.py:58-68 | the fields, the calls and the reply follow the close_cache step; a successful close of a live holder leaves both fields None; `close` is called on the held `redis_cache` object itself |
| `CacheConfig.SingletonCache.GetRedisClient` | src/config/cache_config.py:70-90 | the fields, the calls and the reply follow the get_redis_client step; a returned client is the held Redis backend's `client` object; an existing cache is never replaced |
| `CacheLifecycle.FirstGetInstance` | src/config/cache_config.py:36-42 | on an absent holder get_instance calls CoreCache exactly once with the caller's arguments and holds and returns what it built; if CoreCache raises, the exception propagates and only `_instance` is set |
| `CacheLifecycle.FirstConfigurationWins` | src/config/cache_config.py:36-42 | once `_instance` is set, every run without close_cache leaves the state unchanged and never calls CoreCache, and every get_instance in it returns the held cache whatever its arguments |
| `CacheLifecycle.ConstructedAtMostOnce` | src/config/cache_config.py:36-41 | in any run without close_cache, CoreCache is called at most once, and not at all if `_instance` was already set |
| `CacheLifecycle.InitializeStartsOnlyRedis` | src/config/cache_config.py:54-56 | on a consistent holder that is live, or absent with a LOCAL request, initialize_cache leaves the state get_instance leaves, makes get_instance's calls and then calls `start` on the held backend exactly when the held cache is REDIS, and returns normally |
| `CacheLifecycle.InitializeRedisFromAbsent` | src/config/cache_config.py:45-56 | initialize_cache with REDIS on an absent holder calls CoreCache with no `redis_url`, raises the missing-URL error, starts nothing and leaves the holder half-initialised; a second call raises on the missing `_cache` without calling CoreCache |
| `CacheLifecycle.ForwardingInitializeStartsRedis` | src/config/cache_config.py:45-56 | if the caller's `redis_url` reached get_instance, initialize_cache with REDIS on an absent holder would construct the cache and start its backend, and a repeat call would start the same backend again without constructing |
| `CacheLifecycle.CloseResets` | src/config/cache_config.py:63-68 | close_cache on a live holder calls `close` on the held backend exactly when it is REDIS, then resets both fields to None |
| `CacheLifecycle.CloseWhenAbsentIsNoop` | src/config/cache_config.py:63 | close_cache with `_instance` unset makes no call, changes nothing and returns normally |
| `CacheLifecycle.RedisClientOfLiveHolder` | src/config/cache_config.py:84-90 | with `_instance` set, get_redis_client makes no call and changes nothing; it returns the held Redis backend's client, or raises "Redis cache is not initialized." when `_cache` is None or has no Redis backend (a LOCAL cache stays in place) |
| `CacheLifecycle.RedisClientFromAbsent` | src/config/cache_config.py:84-88 | from an absent holder get_redis_client calls CoreCache with REDIS and no URL, which raises; a second call raises "Redis cache is not initialized." without calling CoreCache again |
| `CacheLifecycle.StepKeepsInv` | src/config/cache_config.py:36-90 | every operation keeps the invariant: a held cache has the shape CoreCache builds, and `_instance` is set whenever `_cache` is |
| `CacheLifecycle.RunKeepsInv` | src/config/cache_config.py:36-90 | every run of operations keeps that invariant |
| `CacheLifecycle.ConsistentUnlessBuildFails` | src/config/cache_config.py:40-41 | as written, "`_instance` set iff `_cache` set" survives an operation exactly when the operation does not call CoreCache with arguments it rejects |
| `CacheLifecycle.HalfInitialisedIsStuck` | src/config/cache_config.py:40-42 | as written, a half-initialised holder stays half-initialised through every run: CoreCache is never called again, get_instance returns None, and close_cache cannot reset |
| `CacheLifecycle.CorrectedOrderStaysConsistent` | src/config/cache_config.py:40-41 | if CoreCache is constructed before `_instance` is marked, "`_instance` set iff `_cache` set" holds after every run |
| `CacheLifecycle.CorrectedOrderRetries` | src/config/cache_config.py:40-41 | with that order, a rejected configuration leaves the holder absent, and the next get_instance constructs and holds the new cache |

## Findings

| source | as written | input that shows it | evidently intended | confidence | as-written member | corrected member |
|---|---|---|---|---|---|---|
| src/config/cache_config.py:40-41 | `_instance` is set before `CoreCache(...)` runs, so if the constructor raises, `_instance` stays set and `_cache` stays None | `get_instance("app", CacheType.REDIS_CACHE)` without `redis_url`, then any calls: get_instance returns None and never retries; close_cache raises AttributeError on `_cache.cache_type` before it resets, so the holder can never be used again in the process | construct first and set `_instance` only on success, so a failed construction leaves the holder absent and a later call can retry | not executed; the lifecycle follows from the code, given that CoreCache raises for REDIS without a URL, as its tests show | `CacheLifecycle.HalfInitialisedIsStuck` | `CacheLifecycle.CorrectedOrderStaysConsistent` |
| src/config/cache_config.py:45-54 | initialize_cache takes no keyword arguments and calls `get_instance(app_name, cache_type)` only, so no `redis_url` can reach CoreCache through it | `initialize_cache("app")` (default REDIS) or `initialize_cache("app", CacheType.REDIS_CACHE)` on a fresh process: CoreCache raises "Redis URL is missing", nothing is started and the holder is left half-initialised | accept keyword arguments and hand them on to get_instance, so that initialize_cache can build and start a Redis cache | not executed; follows from the signature at line 45 and the call at line 54, given that CoreCache raises for REDIS without a URL, as its tests show | `CacheLifecycle.InitializeRedisFromAbsent` | `CacheLifecycle.ForwardingInitializeStartsRedis` |

The step functions take the initialisation order as a parameter (`InitOrder`). `InstanceFirst` is the code as written, and `CacheFirst` is the corrected order. `InitializeStep` takes the whole configuration handed to get_instance. As written, that configuration is `InitializeConfig`, with no URL; the forwarding correction passes the caller's configuration. The class `SingletonCache` keeps the code's behaviour in both places, because it models the code.

## Left out

- The `threading.Lock` and the double-checked locking in get_instance: each classmethod is one atomic step, so the first-call race across threads is not modelled.
- The `logging` calls: they have no behavioural effect.
- The internals of `CoreCache`, the in-memory store, the Redis adapter, key validation and the memoization decorator: these live in `src/cache/*.py`, which is not part of this model. CoreCache is reduced to what its tests show: the type, which backend is set, and the missing-URL failure.
- The conversion of a string `cache_type` to `CacheType` inside CoreCache: it is not part of this model. `Config` carries a `CacheType`. Default arguments are not modelled: callers always name the type, and REDIS stands for the default of get_instance and initialize_cache.
- Extra positional arguments to get_instance (`*args`), and keyword arguments other than `redis_url`: CoreCache's use of them is not part of this model.
- The Redis connection itself: `start` and `close` are network I/O. The model records only that they are called, on which backend and in what order (the ghost `calls` and `backendCalls` logs). `client` is an opaque `RedisConnection` object.
- Python truthiness: `if cls._instance` and `if not cls._cache` are read as "is not None". This assumes CoreCache and the Redis backend objects are always truthy.
