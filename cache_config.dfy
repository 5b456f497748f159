/** The process-wide holder of one CoreCache, `SingletonCache`.  An object of
    this class stands for the Python class object and its class-level fields
    `_instance` and `_cache`; each classmethod is a method here, proved to
    take the step of the lifecycle state machine in `CacheLifecycle` with the
    code's own order (`_instance` marked before CoreCache is called).  The
    lock is left out: every method runs as one atomic step. */
module CacheConfig {
  import opened CacheCore
  import opened CacheLifecycle

  /** The reply a get_instance result stands for. */
  function CacheReply(r: Result<CoreCache?>): Reply
  {
    match r
    case Ok(c) => Cache(if c == null then None else Some(c.View()))
    case Err(e) => Failed(e)
  }

  /** The reply of an operation that returns None or raises. */
  function DoneReply(r: Result<()>): Reply
  {
    match r
    case Ok(_) => Done
    case Err(e) => Failed(e)
  }

  class SingletonCache {
    /** `_instance is not None`; the object `__new__` makes carries nothing else. */
    var instance: bool
    /** `_cache` */
    var cache: CoreCache?
    /** The calls made on collaborators so far, in order. */
    ghost var calls: seq<Effect>
    /** The Redis backend objects `start` or `close` was called on, in order. */
    ghost var backendCalls: seq<RedisCacheClient>

    function View(): State
      reads this
    {
      State(instance, if cache == null then None else Some(cache.View()))
    }

    /** The class as defined: both class-level fields None. */
    constructor ()
      ensures View() == Absent && calls == [] && backendCalls == []
    {
      instance := false;
      cache := null;
      calls := [];
      backendCalls := [];
    }

    /** `SingletonCache()`: `__init__` always raises. */
    static method Instantiate() returns (r: Result<()>)
      ensures r.Err? && r.error == UseGetInstance
      ensures Message(r.error) == "Use `get_instance()` instead of instantiating directly."
    {
      r := Err(UseGetInstance);
    }

    /** get_instance: on first use marks `_instance`, then calls CoreCache;
        always answers `_cache`, or the exception CoreCache raised. */
    method GetInstance(cfg: Config) returns (r: Result<CoreCache?>)
      modifies this
      ensures var o := Step(old(View()), Op.GetInstance(cfg), InstanceFirst);
        View() == o.state && calls == old(calls) + o.effects && CacheReply(r) == o.reply
      ensures r.Ok? ==> r.value == cache
      ensures old(instance) ==> cache == old(cache)
      ensures !old(instance) && r.Ok? ==> fresh(cache)
      ensures backendCalls == old(backendCalls)
    {
      if !instance {
        instance := true;
        calls := calls + [NewCoreCache(cfg)];
        var built := CoreCache.Create(cfg);
        match built
        case Ok(c) =>
          cache := c;
        case Err(e) =>
          return Err(e);
      }
      r := Ok(cache);
    }

    /** initialize_cache: get_instance with the caller's two arguments only,
        then `start` on the held cache's Redis backend when its type is REDIS. */
    method InitializeCache(appName: string, cacheType: CacheType) returns (r: Result<()>)
      modifies this
      ensures var o := Step(old(View()), Op.InitializeCache(appName, cacheType), InstanceFirst);
        View() == o.state && calls == old(calls) + o.effects && DoneReply(r) == o.reply
      ensures old(instance) ==> cache == old(cache)
      ensures backendCalls ==
        if r.Ok? && cache.cacheType == RedisCache then old(backendCalls) + [cache.redisCache]
        else old(backendCalls)
    {
      var g := GetInstance(InitializeConfig(appName, cacheType));
      if g.Err? {
        return Err(g.error);
      }
      if cache == null {
        return Err(NoneAttribute);
      }
      if cache.cacheType == RedisCache {
        if cache.redisCache == null {
          return Err(NoneAttribute);
        }
        calls := calls + [Start(RedisView(cache.redisCache.url))];
        backendCalls := backendCalls + [cache.redisCache];
      }
      r := Ok(());
    }

    /** close_cache: when `_instance` is set, `close` a REDIS cache's backend,
        then reset both fields. */
    method CloseCache() returns (r: Result<()>)
      modifies this
      ensures var o := Step(old(View()), Op.CloseCache, InstanceFirst);
        View() == o.state && calls == old(calls) + o.effects && DoneReply(r) == o.reply
      ensures r.Ok? && old(instance) ==> !instance && cache == null
      ensures backendCalls ==
        if r.Ok? && old(instance) && old(cache).cacheType == RedisCache
        then old(backendCalls) + [old(cache).redisCache]
        else old(backendCalls)
    {
      if instance {
        if cache == null {
          return Err(NoneAttribute);
        }
        if cache.cacheType == RedisCache {
          if cache.redisCache == null {
            return Err(NoneAttribute);
          }
          calls := calls + [Close(RedisView(cache.redisCache.url))];
          backendCalls := backendCalls + [cache.redisCache];
        }
        instance := false;
        cache := null;
      }
      r := Ok(());
    }

    /** get_redis_client: get_instance(app_name, REDIS) only when `_instance`
        is unset, then the Redis backend's `client`, or "Redis cache is not
        initialized." */
    method GetRedisClient(appName: string) returns (r: Result<RedisConnection>)
      modifies this
      ensures var o := Step(old(View()), Op.GetRedisClient(appName), InstanceFirst);
        View() == o.state && calls == old(calls) + o.effects &&
        (r.Ok? <==> o.reply.Client?) && (r.Err? ==> o.reply == Failed(r.error))
      ensures r.Ok? ==> cache != null && cache.redisCache != null && r.value == cache.redisCache.client
      ensures old(instance) ==> cache == old(cache)
      ensures backendCalls == old(backendCalls)
    {
      if !instance {
        var g := GetInstance(RedisClientConfig(appName));
        if g.Err? {
          return Err(g.error);
        }
      }
      if cache == null || cache.redisCache == null {
        return Err(RedisNotInitialized);
      }
      r := Ok(cache.redisCache.client);
    }
  }

  /** Two get_instance calls return the same object and call CoreCache once,
      with the first call's arguments; close_cache then resets the holder. */
  method SingletonScenario(app: string)
  {
    var holder := new SingletonCache();
    var local := Config(app, LocalCache, None);
    var first := holder.GetInstance(local);
    var second := holder.GetInstance(Config(app, RedisCache, Some("redis://localhost:6379/0")));
    assert first.Ok? && second.Ok? && first.value == second.value;
    assert first.value.cacheType == LocalCache;
    assert holder.calls == [NewCoreCache(local)];
    var closed := holder.CloseCache();
    assert closed.Ok? && holder.View() == Absent;
    assert holder.calls == [NewCoreCache(local)];
  }

  /** get_instance with a `redis_url` builds the Redis cache; initialize_cache
      then starts its backend, get_redis_client returns that backend's
      client, and close_cache closes the same backend and resets the holder. */
  method RedisScenario(app: string, url: string)
  {
    var holder := new SingletonCache();
    var redis := Config(app, RedisCache, Some(url));
    var built := holder.GetInstance(redis);
    assert built.Ok? && built.value != null;
    var backend := built.value.redisCache;
    var started := holder.InitializeCache(app, RedisCache);
    assert started.Ok?;
    assert holder.calls == [NewCoreCache(redis), Start(RedisView(url))];
    assert holder.backendCalls == [backend];
    var client := holder.GetRedisClient(app);
    assert client.Ok? && client.value == backend.client;
    var closed := holder.CloseCache();
    assert closed.Ok? && holder.View() == Absent;
    assert holder.calls == [NewCoreCache(redis), Start(RedisView(url)), Close(RedisView(url))];
    assert holder.backendCalls == [backend, backend];
  }

  /** initialize_cache with its default type on a fresh holder raises the
      missing-URL error and leaves `_instance` set with no cache. */
  method DefaultInitializeScenario(app: string)
  {
    var holder := new SingletonCache();
    var started := holder.InitializeCache(app, RedisCache);
    assert started == Err(RedisUrlMissing);
    assert holder.View() == HalfInitialised && holder.backendCalls == [];
  }
}
