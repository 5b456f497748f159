/** The collaborator the lifecycle holder constructs: `CoreCache` and the two
    backends it may own.  Only what the holder relies on is modelled: the
    cache type, which backend a construction selects, the failure for a Redis
    cache without a URL, and the Redis backend's `client` handle.  The
    in-memory store and the Redis adapter are opaque here. */
module CacheCore {

  datatype Option<T> = None | Some(value: T)

  /** The exception kinds that reach a caller of the lifecycle holder. */
  datatype CacheError =
    | UseGetInstance       // direct construction of the holder
    | RedisUrlMissing      // CoreCache(REDIS) without `redis_url`
    | RedisNotInitialized  // get_redis_client found no Redis backend
    | NoneAttribute        // an attribute looked up on None (Python's AttributeError)

  datatype Result<T> = Ok(value: T) | Err(error: CacheError)

  /** The exception texts the source fixes; the AttributeError text is
      produced by the Python runtime and is not part of this model. */
  function Message(e: CacheError): string
  {
    match e
    case UseGetInstance => "Use `get_instance()` instead of instantiating directly."
    case RedisUrlMissing => "Redis URL is missing. Pass `redis_url` in kwargs."
    case RedisNotInitialized => "Redis cache is not initialized."
    case NoneAttribute => "'NoneType' object has no attribute"
  }

  datatype CacheType = LocalCache | RedisCache

  /** The arguments the holder forwards to CoreCache: the application name,
      the cache type and the `redis_url` keyword argument, if any. */
  datatype Config = Config(appName: string, cacheType: CacheType, redisUrl: Option<string>)

  /** What is observable of a Redis backend: the URL it was built for. */
  datatype RedisView = RedisView(url: string)

  /** What is observable of a constructed CoreCache: its type and which of
      `local_cache` / `redis_cache` is set. */
  datatype CacheView = CacheView(cacheType: CacheType, hasLocal: bool, redis: Option<RedisView>)

  /** The shape every constructed CoreCache has: exactly one backend, and it
      is the Redis one exactly when the type is REDIS. */
  predicate Shaped(c: CacheView)
  {
    (c.cacheType == RedisCache <==> c.redis.Some?) && (c.hasLocal <==> c.redis.None?)
  }

  /** The outcome of `CoreCache(app_name=..., cache_type=..., **kwargs)`. */
  function Build(cfg: Config): (r: Result<CacheView>)
    ensures r.Err? <==> cfg.cacheType == RedisCache && cfg.redisUrl.None?
    ensures r.Err? ==> r.error == RedisUrlMissing
    ensures r.Ok? ==> Shaped(r.value) && r.value.cacheType == cfg.cacheType
    ensures r.Ok? && r.value.redis.Some? ==> Some(r.value.redis.value.url) == cfg.redisUrl
  {
    match cfg.cacheType
    case LocalCache => Ok(CacheView(LocalCache, true, None))
    case RedisCache =>
      match cfg.redisUrl
      case None => Err(RedisUrlMissing)
      case Some(url) => Ok(CacheView(RedisCache, false, Some(RedisView(url))))
  }

  /** The in-process store; its contents are not part of this model. */
  class LocMemCache {
    constructor () {}
  }

  /** The handle of the Redis library client a backend wraps. */
  class RedisConnection {
    constructor () {}
  }

  /** The Redis backend: the URL it connects to and its client handle.  Its
      `start`/`close` are network calls and are recorded by the holder that
      issues them. */
  class RedisCacheClient {
    const url: string
    const client: RedisConnection

    constructor (url: string)
      ensures this.url == url && fresh(client)
    {
      this.url := url;
      client := new RedisConnection();
    }
  }

  class CoreCache {
    const cacheType: CacheType
    const localCache: LocMemCache?
    const redisCache: RedisCacheClient?

    function View(): CacheView
    {
      CacheView(cacheType, localCache != null,
                if redisCache == null then None else Some(RedisView(redisCache.url)))
    }

    constructor (cfg: Config)
      requires Build(cfg).Ok?
      ensures View() == Build(cfg).value
      ensures redisCache != null ==> fresh(redisCache) && fresh(redisCache.client)
    {
      cacheType := cfg.cacheType;
      if cfg.cacheType == RedisCache {
        localCache := null;
        redisCache := new RedisCacheClient(cfg.redisUrl.value);
      } else {
        localCache := new LocMemCache();
        redisCache := null;
      }
    }

    /** Construction as a caller sees it: a fresh cache, or the exception. */
    static method Create(cfg: Config) returns (r: Result<CoreCache>)
      ensures r.Err? <==> Build(cfg).Err?
      ensures r.Err? ==> r.error == Build(cfg).error
      ensures r.Ok? ==> fresh(r.value) && r.value.View() == Build(cfg).value
    {
      if cfg.cacheType == RedisCache && cfg.redisUrl.None? {
        r := Err(RedisUrlMissing);
      } else {
        var c := new CoreCache(cfg);
        r := Ok(c);
      }
    }
  }
}
