/** The lifecycle of the process-wide cache holder as a state machine over
    its two class-level fields, `_instance` and `_cache`.  Each operation of
    the holder is one step: it yields the new state, the calls it made on the
    collaborator (in order) and what the caller gets back.  The lock is left
    out, so every step is atomic.

    The holder's code marks `_instance` before it constructs the cache.  The
    step functions take that order as a parameter: `InstanceFirst` is the
    code as written, `CacheFirst` constructs first and marks `_instance` only
    on success. */
module CacheLifecycle {
  import opened CacheCore

  /** `instance` is `_instance is not None`; `cache` is `_cache`. */
  datatype State = State(instance: bool, cache: Option<CacheView>)

  const Absent := State(false, None)

  /** `_instance` set while `_cache` stayed None: left by a failed construction. */
  const HalfInitialised := State(true, None)

  datatype Op =
    | GetInstance(cfg: Config)
    | InitializeCache(appName: string, cacheType: CacheType)
    | CloseCache
    | GetRedisClient(appName: string)

  /** Calls the holder makes on its collaborators. */
  datatype Effect =
    | NewCoreCache(cfg: Config)   // CoreCache(...) is called, whether or not it raises
    | Start(backend: RedisView)   // redis_cache.start()
    | Close(backend: RedisView)   // redis_cache.close()

  datatype Reply =
    | Cache(held: Option<CacheView>)  // get_instance's return value
    | Done                            // the operation returned None
    | Client(backend: RedisView)      // the `client` of this Redis backend
    | Failed(error: CacheError)       // the operation raised

  datatype Outcome = Outcome(state: State, effects: seq<Effect>, reply: Reply)

  datatype InitOrder = InstanceFirst | CacheFirst

  /** get_instance: create if absent, then return `_cache`. */
  function GetInstanceStep(s: State, cfg: Config, order: InitOrder): Outcome
  {
    if s.instance then Outcome(s, [], Cache(s.cache))
    else
      match Build(cfg)
      case Ok(c) => Outcome(State(true, Some(c)), [NewCoreCache(cfg)], Cache(Some(c)))
      case Err(e) =>
        Outcome(if order == InstanceFirst then State(true, s.cache) else s,
                [NewCoreCache(cfg)], Failed(e))
  }

  /** The arguments initialize_cache hands to get_instance: its own two and
      no keyword arguments, so never a `redis_url`. */
  function InitializeConfig(appName: string, cacheType: CacheType): Config
  {
    Config(appName, cacheType, None)
  }

  /** initialize_cache: get_instance with `cfg`, then `start` on a REDIS
      cache's backend.  As written, `cfg` is `InitializeConfig` of the
      caller's arguments; a version that forwarded keyword arguments would
      pass the caller's whole configuration. */
  function InitializeStep(s: State, cfg: Config, order: InitOrder): Outcome
  {
    var g := GetInstanceStep(s, cfg, order);
    if g.reply.Failed? then g
    else
      match g.state.cache
      case None => Outcome(g.state, g.effects, Failed(NoneAttribute))
      case Some(c) =>
        if c.cacheType != RedisCache then Outcome(g.state, g.effects, Done)
        else
          match c.redis
          case None => Outcome(g.state, g.effects, Failed(NoneAttribute))
          case Some(b) => Outcome(g.state, g.effects + [Start(b)], Done)
  }

  /** close_cache: if `_instance` is set, `close` a REDIS cache's backend and
      reset both fields. */
  function CloseStep(s: State): Outcome
  {
    if !s.instance then Outcome(s, [], Done)
    else
      match s.cache
      case None => Outcome(s, [], Failed(NoneAttribute))
      case Some(c) =>
        if c.cacheType != RedisCache then Outcome(Absent, [], Done)
        else
          match c.redis
          case None => Outcome(s, [], Failed(NoneAttribute))
          case Some(b) => Outcome(Absent, [Close(b)], Done)
  }

  /** The configuration get_redis_client constructs with: REDIS and no kwargs. */
  function RedisClientConfig(appName: string): Config
  {
    Config(appName, RedisCache, None)
  }

  /** get_redis_client: get_instance(app_name, REDIS) only if `_instance` is
      unset, then the held cache's Redis client or "not initialized". */
  function RedisClientStep(s: State, appName: string, order: InitOrder): Outcome
  {
    var g := if s.instance then Outcome(s, [], Done)
             else GetInstanceStep(s, RedisClientConfig(appName), order);
    if g.reply.Failed? then g
    else
      match g.state.cache
      case None => Outcome(g.state, g.effects, Failed(RedisNotInitialized))
      case Some(c) =>
        match c.redis
        case None => Outcome(g.state, g.effects, Failed(RedisNotInitialized))
        case Some(b) => Outcome(g.state, g.effects, Client(b))
  }

  function Step(s: State, op: Op, order: InitOrder): Outcome
  {
    match op
    case GetInstance(cfg) => GetInstanceStep(s, cfg, order)
    case InitializeCache(app, kind) => InitializeStep(s, InitializeConfig(app, kind), order)
    case CloseCache => CloseStep(s)
    case GetRedisClient(app) => RedisClientStep(s, app, order)
  }

  /** A run of operations: the final state, every call made, and one reply per operation. */
  datatype Trace = Trace(state: State, effects: seq<Effect>, replies: seq<Reply>)

  function Run(s: State, ops: seq<Op>, order: InitOrder): (t: Trace)
    ensures |t.replies| == |ops|
    decreases |ops|
  {
    if ops == [] then Trace(s, [], [])
    else
      var o := Step(s, ops[0], order);
      var rest := Run(o.state, ops[1..], order);
      Trace(rest.state, o.effects + rest.effects, [o.reply] + rest.replies)
  }

  /** How many times CoreCache was called among the effects. */
  function Constructions(effects: seq<Effect>): nat
  {
    if effects == [] then 0
    else (if effects[0].NewCoreCache? then 1 else 0) + Constructions(effects[1..])
  }

  predicate CloseFree(ops: seq<Op>)
  {
    forall i :: 0 <= i < |ops| ==> !ops[i].CloseCache?
  }

  /** What every reachable state satisfies: a held cache was built by
      CoreCache and `_instance` is set whenever `_cache` is. */
  predicate Inv(s: State)
  {
    s.cache.Some? ==> s.instance && Shaped(s.cache.value)
  }

  /** `_instance` is set exactly when `_cache` is. */
  predicate Consistent(s: State)
  {
    s.instance <==> s.cache.Some?
  }

  /** The configuration an operation constructs with when `_instance` is unset. */
  function ConfigOf(op: Op): Option<Config>
  {
    match op
    case GetInstance(cfg) => Some(cfg)
    case InitializeCache(app, kind) => Some(InitializeConfig(app, kind))
    case CloseCache => None
    case GetRedisClient(app) => Some(RedisClientConfig(app))
  }

  /** The operation calls CoreCache from `s`, and that call raises. */
  predicate BuildFails(s: State, op: Op)
  {
    !s.instance && ConfigOf(op).Some? && Build(ConfigOf(op).value).Err?
  }

  // ---------------------------------------------------------------------
  // Construction: at most once, and the first configuration wins.

  lemma {:induction false} ConstructionsAppend(a: seq<Effect>, b: seq<Effect>)
    ensures Constructions(a + b) == Constructions(a) + Constructions(b)
    decreases |a|
  {
    if a == [] {
      assert a + b == b;
    } else {
      assert (a + b)[1..] == a[1..] + b;
      ConstructionsAppend(a[1..], b);
    }
  }

  /** The first get_instance on an absent holder calls CoreCache once, with
      the caller's arguments, and holds what it built; if CoreCache raises,
      the exception reaches the caller and only `_instance` is set. */
  lemma FirstGetInstance(cfg: Config)
    ensures var o := Step(Absent, GetInstance(cfg), InstanceFirst);
      o.effects == [NewCoreCache(cfg)] &&
      (Build(cfg).Ok? ==> o.state == State(true, Some(Build(cfg).value)) && o.reply == Cache(o.state.cache)) &&
      (Build(cfg).Err? ==> o.state == HalfInitialised && o.reply == Failed(RedisUrlMissing))
  {
  }

  /** Once `_instance` is set, no operation other than close_cache changes
      the state or calls CoreCache, and every get_instance returns the held
      cache whatever arguments it is given. */
  lemma {:induction false} FirstConfigurationWins(s: State, ops: seq<Op>, order: InitOrder)
    requires s.instance && CloseFree(ops)
    ensures var t := Run(s, ops, order);
      t.state == s && Constructions(t.effects) == 0 &&
      forall i :: 0 <= i < |ops| && ops[i].GetInstance? ==> t.replies[i] == Cache(s.cache)
    decreases |ops|
  {
    if ops != [] {
      var o := Step(s, ops[0], order);
      assert o.state == s && Constructions(o.effects) == 0;
      assert CloseFree(ops[1..]) by {
        forall i | 0 <= i < |ops[1..]| ensures !ops[1..][i].CloseCache? {
          assert ops[1..][i] == ops[i + 1];
        }
      }
      FirstConfigurationWins(s, ops[1..], order);
      ConstructionsAppend(o.effects, Run(s, ops[1..], order).effects);
      var t := Run(s, ops, order);
      forall i | 0 <= i < |ops| && ops[i].GetInstance?
        ensures t.replies[i] == Cache(s.cache)
      {
        if i > 0 {
          assert ops[1..][i - 1] == ops[i];
        }
      }
    }
  }

  /** Between two close_cache calls CoreCache is called at most once: never
      if `_instance` is already set, at most once if it is not. */
  lemma {:induction false} ConstructedAtMostOnce(s: State, ops: seq<Op>)
    requires CloseFree(ops)
    ensures Constructions(Run(s, ops, InstanceFirst).effects) <= if s.instance then 0 else 1
    decreases |ops|
  {
    if ops == [] {
    } else if s.instance {
      FirstConfigurationWins(s, ops, InstanceFirst);
    } else {
      var o := Step(s, ops[0], InstanceFirst);
      assert CloseFree(ops[1..]) by {
        forall i | 0 <= i < |ops[1..]| ensures !ops[1..][i].CloseCache? {
          assert ops[1..][i] == ops[i + 1];
        }
      }
      var rest := Run(o.state, ops[1..], InstanceFirst);
      ConstructionsAppend(o.effects, rest.effects);
      // as written, every operation but close_cache marks `_instance`
      assert o.state.instance;
      FirstConfigurationWins(o.state, ops[1..], InstanceFirst);
      assert Constructions(o.effects) <= 1;
    }
  }

  // ---------------------------------------------------------------------
  // Start and close of the Redis backend.

  /** initialize_cache makes sure an instance exists and then calls `start`
      exactly when the held cache is REDIS, after any construction.  On an
      absent holder it can only construct a LOCAL cache (see the next lemma). */
  lemma InitializeStartsOnlyRedis(s: State, appName: string, cacheType: CacheType)
    requires Inv(s) && Consistent(s)
    requires !s.instance ==> cacheType == LocalCache
    ensures var o := Step(s, InitializeCache(appName, cacheType), InstanceFirst);
      var g := Step(s, GetInstance(InitializeConfig(appName, cacheType)), InstanceFirst);
      o.reply == Done && o.state == g.state && o.state.cache.Some? &&
      var c := o.state.cache.value;
      o.effects == g.effects + (if c.cacheType == RedisCache then [Start(c.redis.value)] else [])
  {
  }

  /** As written, initialize_cache with REDIS (its default) on an absent
      holder calls CoreCache without a `redis_url`, which raises: nothing is
      started and the holder is left half-initialised.  A later
      initialize_cache then raises on the missing `_cache`. */
  lemma {:induction false} InitializeRedisFromAbsent(appName: string)
    ensures var ops := [InitializeCache(appName, RedisCache), InitializeCache(appName, RedisCache)];
      var t := Run(Absent, ops, InstanceFirst);
      t.state == HalfInitialised &&
      t.effects == [NewCoreCache(InitializeConfig(appName, RedisCache))] &&
      t.replies == [Failed(RedisUrlMissing), Failed(NoneAttribute)]
  {
    var ops := [InitializeCache(appName, RedisCache), InitializeCache(appName, RedisCache)];
    var o1 := Step(Absent, ops[0], InstanceFirst);
    assert o1 == Outcome(HalfInitialised, [NewCoreCache(InitializeConfig(appName, RedisCache))], Failed(RedisUrlMissing));
    var o2 := Step(HalfInitialised, ops[1], InstanceFirst);
    assert o2 == Outcome(HalfInitialised, [], Failed(NoneAttribute));
    assert ops[1..][1..] == [];
    assert Run(HalfInitialised, ops[1..], InstanceFirst) == Trace(HalfInitialised, [], [o2.reply]);
  }

  /** If initialize_cache handed the caller's `redis_url` on to get_instance,
      initialize_cache with REDIS on an absent holder would construct the
      cache and start its backend, and every later initialize_cache would
      start that same backend again without constructing. */
  lemma {:induction false} ForwardingInitializeStartsRedis(cfg: Config)
    requires cfg.cacheType == RedisCache && cfg.redisUrl.Some?
    ensures var o := InitializeStep(Absent, cfg, InstanceFirst);
      var b := RedisView(cfg.redisUrl.value);
      o.reply == Done && o.state == State(true, Some(Build(cfg).value)) &&
      o.effects == [NewCoreCache(cfg), Start(b)] &&
      InitializeStep(o.state, cfg, InstanceFirst) == Outcome(o.state, [Start(b)], Done)
  {
    var c := Build(cfg).value;
    assert c.redis == Some(RedisView(cfg.redisUrl.value));
  }

  /** close_cache on a live instance calls `close` on the held backend when
      it is REDIS and then resets both fields. */
  lemma CloseResets(s: State)
    requires Inv(s) && s.cache.Some?
    ensures var o := Step(s, CloseCache, InstanceFirst);
      var c := s.cache.value;
      o.state == Absent && o.reply == Done &&
      o.effects == (if c.cacheType == RedisCache then [Close(c.redis.value)] else [])
  {
  }

  /** close_cache when `_instance` is unset does nothing. */
  lemma CloseWhenAbsentIsNoop(s: State, order: InitOrder)
    requires !s.instance
    ensures Step(s, CloseCache, order) == Outcome(s, [], Done)
  {
  }

  // ---------------------------------------------------------------------
  // The Redis client accessor.

  /** With `_instance` set, get_redis_client changes nothing and calls
      nothing; it returns the held Redis backend's client, and raises "not
      initialized" when there is no cache or it is a LOCAL one. */
  lemma RedisClientOfLiveHolder(s: State, appName: string, order: InitOrder)
    requires s.instance
    ensures var o := Step(s, GetRedisClient(appName), order);
      o.state == s && o.effects == [] &&
      (s.cache.Some? && s.cache.value.redis.Some? ==> o.reply == Client(s.cache.value.redis.value)) &&
      (s.cache.None? || s.cache.value.redis.None? ==> o.reply == Failed(RedisNotInitialized))
  {
  }

  /** From an absent holder get_redis_client calls CoreCache with REDIS and
      no `redis_url`, which raises; a second call then reports "not
      initialized" without calling CoreCache again. */
  lemma {:induction false} RedisClientFromAbsent(appName: string)
    ensures var t := Run(Absent, [GetRedisClient(appName), GetRedisClient(appName)], InstanceFirst);
      t.state == HalfInitialised &&
      t.effects == [NewCoreCache(RedisClientConfig(appName))] &&
      t.replies == [Failed(RedisUrlMissing), Failed(RedisNotInitialized)]
  {
    var ops := [GetRedisClient(appName), GetRedisClient(appName)];
    var o1 := Step(Absent, ops[0], InstanceFirst);
    assert o1 == Outcome(HalfInitialised, [NewCoreCache(RedisClientConfig(appName))], Failed(RedisUrlMissing));
    var o2 := Step(HalfInitialised, ops[1], InstanceFirst);
    assert o2 == Outcome(HalfInitialised, [], Failed(RedisNotInitialized));
    assert ops[1..][1..] == [];
    assert Run(HalfInitialised, ops[1..], InstanceFirst) == Trace(HalfInitialised, [], [o2.reply]);
  }

  // ---------------------------------------------------------------------
  // Reachable states, and what a failed construction leaves behind.

  lemma StepKeepsInv(s: State, op: Op, order: InitOrder)
    requires Inv(s)
    ensures Inv(Step(s, op, order).state)
  {
  }

  lemma {:induction false} RunKeepsInv(s: State, ops: seq<Op>, order: InitOrder)
    requires Inv(s)
    ensures Inv(Run(s, ops, order).state)
    decreases |ops|
  {
    if ops != [] {
      StepKeepsInv(s, ops[0], order);
      RunKeepsInv(Step(s, ops[0], order).state, ops[1..], order);
    }
  }

  /** As written, "`_instance` set iff `_cache` set" survives a step exactly
      when the step does not call CoreCache with arguments it rejects. */
  lemma ConsistentUnlessBuildFails(s: State, op: Op)
    requires Inv(s) && Consistent(s)
    ensures Consistent(Step(s, op, InstanceFirst).state) <==> !BuildFails(s, op)
  {
  }

  /** As written, a half-initialised holder never recovers: get_instance
      returns None without calling CoreCache again, and close_cache raises
      before it can reset the fields. */
  lemma {:induction false} HalfInitialisedIsStuck(ops: seq<Op>)
    ensures var t := Run(HalfInitialised, ops, InstanceFirst);
      t.state == HalfInitialised && Constructions(t.effects) == 0 &&
      forall i :: 0 <= i < |ops| && ops[i].GetInstance? ==> t.replies[i] == Cache(None)
    decreases |ops|
  {
    if ops != [] {
      var o := Step(HalfInitialised, ops[0], InstanceFirst);
      assert o.state == HalfInitialised && o.effects == [];
      HalfInitialisedIsStuck(ops[1..]);
      var t := Run(HalfInitialised, ops, InstanceFirst);
      assert t.effects == Run(HalfInitialised, ops[1..], InstanceFirst).effects;
      forall i | 0 <= i < |ops| && ops[i].GetInstance?
        ensures t.replies[i] == Cache(None)
      {
        if i > 0 {
          assert ops[1..][i - 1] == ops[i];
        }
      }
    }
  }

  /** Constructing before marking `_instance` keeps "`_instance` set iff
      `_cache` set" through every run. */
  lemma {:induction false} CorrectedOrderStaysConsistent(s: State, ops: seq<Op>)
    requires Inv(s) && Consistent(s)
    ensures Consistent(Run(s, ops, CacheFirst).state)
    decreases |ops|
  {
    if ops != [] {
      var o := Step(s, ops[0], CacheFirst);
      StepKeepsInv(s, ops[0], CacheFirst);
      assert Consistent(o.state);
      CorrectedOrderStaysConsistent(o.state, ops[1..]);
    }
  }

  /** Constructing before marking `_instance`, a rejected configuration
      leaves the holder absent, so the next get_instance constructs again. */
  lemma {:induction false} CorrectedOrderRetries(bad: Config, good: Config)
    requires Build(bad).Err? && Build(good).Ok?
    ensures var t := Run(Absent, [GetInstance(bad), GetInstance(good)], CacheFirst);
      t.state == State(true, Some(Build(good).value)) &&
      t.effects == [NewCoreCache(bad), NewCoreCache(good)] &&
      t.replies == [Failed(RedisUrlMissing), Cache(Some(Build(good).value))]
  {
    var ops := [GetInstance(bad), GetInstance(good)];
    var o1 := Step(Absent, ops[0], CacheFirst);
    assert o1 == Outcome(Absent, [NewCoreCache(bad)], Failed(RedisUrlMissing));
    var o2 := Step(Absent, ops[1], CacheFirst);
    assert ops[1..][1..] == [];
    assert Run(Absent, ops[1..], CacheFirst) == Trace(o2.state, o2.effects, [o2.reply]);
  }
}
