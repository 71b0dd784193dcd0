/** The limiter over Redis, and the manager that builds one per configured policy. */
module RateLimiter {
  import opened Options
  import opened TokenBucket

  datatype Result<+T> = Ok(value: T) | Err(error: string)

  /** The limiters' hashes by identifier; the history of requests is kept for the specification only. */
  class Redis {
    var keys: map<string, Entry>
    ghost var asked: map<string, seq<real>>

    constructor ()
      ensures keys == map[] && asked == map[]
    {
      keys, asked := map[], map[];
    }

    function KeyOf(identifier: string): Option<Entry>
      reads this
    {
      if identifier in keys then Some(keys[identifier]) else None
    }

    ghost function Asked(identifier: string): seq<real>
      reads this
    {
      if identifier in asked then asked[identifier] else []
    }

    /** Every key is what the requests of its identifier have made of it under one policy. */
    ghost predicate Serves(p: Policy)
      reads this
    {
      forall identifier :: KeyOf(identifier) == After(p, Asked(identifier))
    }
  }

  class RedisRateLimiter {
    const redis: Redis
    const policy: Policy

    constructor (redis: Redis, policy: Policy)
      ensures this.redis == redis && this.policy == policy
    {
      this.redis, this.policy := redis, policy;
    }

    /** One token is asked for at time `now`; without an answer of Redis the request fails and changes nothing. */
    method Allow(identifier: string, now: real, answers: bool) returns (r: Result<bool>)
      modifies redis
      ensures r.Ok? <==> answers
      ensures !answers ==> redis.keys == old(redis.keys) && redis.asked == old(redis.asked)
      ensures answers ==>
                && r.value == Allows(policy, old(redis.KeyOf(identifier)), now)
                && redis.KeyOf(identifier) == Stored(policy, old(redis.KeyOf(identifier)), now)
                && redis.Asked(identifier) == old(redis.Asked(identifier)) + [now]
      ensures forall other :: other != identifier ==>
                redis.KeyOf(other) == old(redis.KeyOf(other)) && redis.Asked(other) == old(redis.Asked(other))
      ensures old(redis.Serves(policy)) ==> redis.Serves(policy)
      ensures old(redis.Serves(policy)) && answers ==>
                r.value == Decision(policy, redis.Asked(identifier), |old(redis.Asked(identifier))|)
    {
      if !answers {
        return Err("failed to execute rate limit script");
      }
      var allowed := RunScript(identifier, now);
      return Ok(allowed);
    }

    /** The script. */
    method RunScript(identifier: string, now: real) returns (allowed: bool)
      modifies redis
      ensures allowed == Allows(policy, old(redis.KeyOf(identifier)), now)
      ensures redis.KeyOf(identifier) == Stored(policy, old(redis.KeyOf(identifier)), now)
      ensures forall other :: other != identifier ==>
                redis.KeyOf(other) == old(redis.KeyOf(other)) && redis.Asked(other) == old(redis.Asked(other))
      ensures redis.Asked(identifier) == old(redis.Asked(identifier)) + [now]
      ensures old(redis.Serves(policy)) ==>
                && redis.Serves(policy)
                && allowed == Decision(policy, redis.Asked(identifier), |old(redis.Asked(identifier))|)
    {
      ghost var before := redis.Asked(identifier);
      redis.asked := redis.asked[identifier := before + [now]];
      assert (before + [now])[..|before|] == before;
      if identifier in redis.keys && now >= redis.keys[identifier].expiresAt {
        redis.keys := map id | id in redis.keys && id != identifier :: redis.keys[id];
      }
      var tokens, lastRefill;
      if identifier !in redis.keys {
        tokens, lastRefill := policy.capacity, now;
      } else {
        tokens, lastRefill := redis.keys[identifier].tokens, redis.keys[identifier].lastRefill;
        var elapsed := now - lastRefill;
        tokens := tokens + elapsed * policy.rate;
        lastRefill := now;
        if tokens > policy.capacity {
          tokens := policy.capacity;
        }
      }
      allowed := tokens >= 1.0;
      if allowed {
        tokens := tokens - 1.0;
        redis.keys := redis.keys[identifier := Entry(tokens, lastRefill, now + policy.expireSeconds as real)];
      }
    }
  }

  // ---- policies ----

  const NANOSECONDS: real := 1000000000.0
  const DEFAULT: string := "default"

  /** An interval in nanoseconds, or none when its text cannot be parsed. */
  datatype PolicyConfig = PolicyConfig(interval: Option<int>, limit: int)

  datatype Config = Config(defaultPolicy: PolicyConfig, policies: map<string, PolicyConfig>)

  function Ceil(x: real): (n: int)
    ensures n as real >= x && (n as real) < x + 1.0
  {
    if x.Floor as real == x then x.Floor else x.Floor + 1
  }

  function Seconds(nanoseconds: int): real {
    nanoseconds as real / NANOSECONDS
  }

  /** createLimiter: a key lives for twice the interval. */
  function Create(c: PolicyConfig): Result<Policy> {
    if c.limit <= 0 then Err("policy limit must be positive")
    else if c.interval.None? then Err("invalid policy interval format")
    else if c.interval.value <= 0 then Err("policy interval must be positive")
    else Ok(Policy(c.limit as real / Seconds(c.interval.value), c.limit as real, Ceil(Seconds(c.interval.value * 2))))
  }

  lemma DivideMultiply(a: real, b: real)
    requires b > 0.0 && a > 0.0
    ensures a / b * b == a && a / b > 0.0
  {
  }

  lemma MoreTime(rate: real, a: real, b: real)
    requires rate > 0.0 && a <= b
    ensures rate * a <= rate * b
  {
  }

  /**
   * Exactly the configurations with a positive limit and interval make a policy. It refills a whole bucket per interval
   * and lets its keys live long enough: twice the interval, in the fewest whole seconds.
   */
  lemma CreatedIsHarmless(c: PolicyConfig)
    ensures Create(c).Ok? <==> c.limit > 0 && c.interval.Some? && c.interval.value > 0
    ensures Create(c).Ok? ==>
      var p, seconds := Create(c).value, Seconds(c.interval.value);
      && Harmless(p) && p.expireSeconds > 0 && p.capacity == c.limit as real && seconds * p.rate == p.capacity
      && p.expireSeconds as real - 1.0 < 2.0 * seconds <= p.expireSeconds as real
  {
    if Create(c).Ok? {
      CreatedPolicy(c);
    }
  }

  lemma CreatedPolicy(c: PolicyConfig)
    requires Create(c).Ok?
    ensures var p, seconds := Create(c).value, Seconds(c.interval.value);
      && Harmless(p) && p.expireSeconds > 0 && p.capacity == c.limit as real && seconds * p.rate == p.capacity
      && p.expireSeconds as real - 1.0 < 2.0 * seconds <= p.expireSeconds as real
  {
    var p, seconds := Create(c).value, Seconds(c.interval.value);
    assert seconds > 0.0;
    DivideMultiply(c.limit as real, seconds);
    assert Seconds(c.interval.value * 2) == 2.0 * seconds;
    MoreTime(p.rate, seconds, p.expireSeconds as real);
  }

  /** Intervals are in nanoseconds: a policy per minute has keys for two minutes and refills in sixty seconds. */
  lemma PolicyPerMinute(limit: int)
    requires limit > 0
    ensures var p := Create(PolicyConfig(Some(60 * 1000 * 1000 * 1000), limit)).value;
      p.expireSeconds == 120 && p.capacity == limit as real && 60.0 * p.rate == p.capacity
  {
    var c := PolicyConfig(Some(60 * 1000 * 1000 * 1000), limit);
    CreatedIsHarmless(c);
    assert Seconds(c.interval.value) == 60.0;
  }

  lemma IntervalLimit(c: PolicyConfig)
    requires Create(c).Ok?
    ensures Limit(Create(c).value, Seconds(c.interval.value)) == (2 * c.limit) as real
    ensures Seconds(c.interval.value) >= 0.0
  {
    CreatedIsHarmless(c);
  }

  lemma CountAtMost(n: nat, m: int)
    requires n as real <= m as real
    ensures n <= m
  {
  }

  /** Over any stretch as long as its interval, a configured policy allows at most twice its limit. */
  lemma AtMostTwiceTheLimit(c: PolicyConfig, times: seq<real>, t0: real, t1: real)
    requires Create(c).Ok? && Ordered(times) && t1 - t0 == Seconds(c.interval.value)
    ensures AllowedBetween(Create(c).value, times, t0, t1, |times|) <= 2 * c.limit
  {
    CreatedIsHarmless(c);
    IntervalLimit(c);
    AnyWindowBound(Create(c).value, times, t0, t1);
    CountAtMost(AllowedBetween(Create(c).value, times, t0, t1, |times|), 2 * c.limit);
  }

  // ---- the manager ----

  /** The policy a name stands for: its own entry, otherwise the default one. */
  function Resolve(cfg: Config, name: string): PolicyConfig {
    if name in cfg.policies then cfg.policies[name] else cfg.defaultPolicy
  }

  predicate AllCreatable(cfg: Config) {
    Create(cfg.defaultPolicy).Ok? && forall name :: name in cfg.policies ==> Create(cfg.policies[name]).Ok?
  }

  class Manager {
    var limiters: map<string, RedisRateLimiter>

    constructor (limiters: map<string, RedisRateLimiter>)
      ensures this.limiters == limiters
    {
      this.limiters := limiters;
    }

    /** The manager answers every name according to the configuration. */
    ghost predicate Implements(cfg: Config, redis: Redis)
      reads this
    {
      && AllCreatable(cfg)
      && limiters.Keys == cfg.policies.Keys + {DEFAULT}
      && forall name :: name in limiters ==>
           limiters[name].redis == redis && limiters[name].policy == Create(Resolve(cfg, name)).value
    }

    /** An unknown name gets the limiter of the name "default", whichever entry that came from. */
    method Get(name: string, ghost cfg: Config, ghost redis: Redis) returns (limiter: RedisRateLimiter)
      requires Implements(cfg, redis)
      ensures limiter.redis == redis
      ensures limiter.policy == Create(Resolve(cfg, if name in cfg.policies then name else DEFAULT)).value
      ensures Harmless(limiter.policy)
    {
      CreatedIsHarmless(Resolve(cfg, if name in cfg.policies then name else DEFAULT));
      if name in limiters {
        limiter := limiters[name];
      } else {
        limiter := limiters[DEFAULT];
      }
    }
  }

  /** The limiters built while the policies in `left` are still to come; the name "default" may yet be overwritten. */
  ghost predicate BuiltSoFar(limiters: map<string, RedisRateLimiter>, cfg: Config, left: map<string, PolicyConfig>,
                             redis: Redis)
  {
    && (forall name :: name in left ==> name in cfg.policies && left[name] == cfg.policies[name])
    && (forall name :: name in limiters <==> name == DEFAULT || (name in cfg.policies && name !in left))
    && (forall name :: name in cfg.policies && name !in left ==> Create(cfg.policies[name]).Ok?)
    && forall name :: name in limiters ==>
         var c := if name in left then cfg.defaultPolicy else Resolve(cfg, name);
         Create(c).Ok? && limiters[name].redis == redis && limiters[name].policy == Create(c).value
  }

  lemma OneMorePolicy(limiters: map<string, RedisRateLimiter>, cfg: Config, left: map<string, PolicyConfig>,
                      redis: Redis, name: string, limiter: RedisRateLimiter)
    requires BuiltSoFar(limiters, cfg, left, redis) && name in left
    requires Create(left[name]).Ok? && limiter.redis == redis && limiter.policy == Create(left[name]).value
    ensures BuiltSoFar(limiters[name := limiter], cfg, left - {name}, redis)
  {
  }

  /** A manager exists exactly when there is a configuration and all its policies can be created. */
  method NewManager(cfg: Option<Config>, redis: Redis) returns (r: Result<Manager>)
    ensures r.Ok? <==> cfg.Some? && AllCreatable(cfg.value)
    ensures r.Ok? ==> r.value.Implements(cfg.value, redis)
  {
    if cfg.None? {
      return Err("rate limiter config is nil");
    }
    var created := Create(cfg.value.defaultPolicy);
    if created.Err? {
      return Err("failed to create default rate limiter: " + created.error);
    }
    var limiter := new RedisRateLimiter(redis, created.value);
    var limiters: map<string, RedisRateLimiter> := map[DEFAULT := limiter];
    var left := cfg.value.policies;
    while left != map[]
      invariant Create(cfg.value.defaultPolicy).Ok? && BuiltSoFar(limiters, cfg.value, left, redis)
      decreases left.Keys
    {
      var name :| name in left;
      created := Create(left[name]);
      if created.Err? {
        return Err("failed to create policy: " + created.error);
      }
      limiter := new RedisRateLimiter(redis, created.value);
      OneMorePolicy(limiters, cfg.value, left, redis, name, limiter);
      limiters, left := limiters[name := limiter], left - {name};
    }
    var manager := new Manager(limiters);
    return Ok(manager);
  }
}
