/**
The Redis sliding-window rate limiter: the sorted set it keeps in Redis, the four commands
of its pipeline, and the check built on them.

Redis serialises pipelines, so a run of the system is the sequence of attempts in the order
their pipelines execute. Each attempt carries the caller's clock (now) and the Redis server's
clock (redisNow), both in milliseconds; the two need not agree.
*/
module RateLimiter {
  import opened Common

  datatype Config = Config(prefix: string, limit: nat, windowSeconds: nat) {
    function WindowMs(): nat { windowSeconds * 1000 }

    /** The expiry EXPIRE sets: window_seconds + 5, in milliseconds. */
    function TtlMs(): nat { (windowSeconds + 5) * 1000 }

    function Key(identifier: string): string { prefix + ":" + identifier }
  }

  // ---------------------------------------------------------------------------
  // The sorted set
  // ---------------------------------------------------------------------------

  /** A member is "{now_ms}-{uuid}", fresh for every attempt; attempts are numbered, so the number names it. */
  type Member = nat

  type Scores = map<Member, nat>

  datatype ZSet = ZSet(scores: Scores, expiresAt: Option<int>)

  type Store = map<string, ZSet>

  /** What Redis sees under a key: a key past its expiry is gone. */
  function Live(store: Store, key: string, redisNow: int): Scores {
    if key in store && !Expired(store[key], redisNow) then store[key].scores else map[]
  }

  predicate Expired(z: ZSet, redisNow: int) {
    z.expiresAt.Some? && redisNow > z.expiresAt.value
  }

  /** The scores ZREMRANGEBYSCORE key 0 upTo leaves. */
  function Prune(scores: Scores, upTo: int): Scores {
    map m | m in scores && !(0 <= scores[m] <= upTo) :: scores[m]
  }

  /** The store after the pipeline of one attempt. */
  function AfterPipeline(cfg: Config, store: Store, identifier: string, now: nat, redisNow: int, member: Member): Store {
    var key := cfg.Key(identifier);
    var kept := Prune(Live(store, key, redisNow), now - cfg.WindowMs());
    store[key := ZSet(kept[member := now], Some(redisNow + cfg.TtlMs()))]
  }

  /** count_before: what ZCARD answers between the prune and the ZADD. */
  function CountAt(cfg: Config, store: Store, identifier: string, now: nat, redisNow: int): nat {
    |Prune(Live(store, cfg.Key(identifier), redisNow), now - cfg.WindowMs())|
  }

  ghost predicate IsOldest(scores: Scores, oldest: Option<nat>) {
    match oldest
    case None => scores == map[]
    case Some(o) => (exists m :: m in scores && scores[m] == o) && forall m :: m in scores ==> o <= scores[m]
  }

  /** The score ZRANGE key 0 0 WITHSCORES answers. */
  ghost function Oldest(scores: Scores): (oldest: Option<nat>)
    ensures IsOldest(scores, oldest)
    decreases |scores|
  {
    if scores == map[] then None
    else
      var m :| m in scores;
      var rest := scores - {m};
      assert forall k :: k in scores ==> k == m || k in rest;
      match Oldest(rest)
      case None => Some(scores[m])
      case Some(o) => if o <= scores[m] then
                        assert exists k :: k in rest && rest[k] == o && scores[k] == o;
                        Some(o)
                      else Some(scores[m])
  }

  lemma OldestUnique(scores: Scores, oldest: Option<nat>)
    requires IsOldest(scores, oldest)
    ensures oldest == Oldest(scores)
  {
    if oldest.Some? {
      var m :| m in scores && scores[m] == oldest.value;
      var n :| n in scores && scores[n] == Oldest(scores).value;
    }
  }

  // The commands, one by one, as functions of the store.

  /** Redis drops an expired key when a command touches it. */
  function DropExpired(store: Store, key: string, redisNow: int): Store {
    if key in store && Expired(store[key], redisNow) then store - {key} else store
  }

  /** A sorted set that loses its last member is deleted, and its expiry with it. */
  function RemRange(store: Store, key: string, upTo: int): Store {
    if key !in store then store
    else
      var left := Prune(store[key].scores, upTo);
      if left == map[] then store - {key} else store[key := store[key].(scores := left)]
  }

  function AddScore(store: Store, key: string, member: Member, score: nat): Store {
    store[key := if key in store then store[key].(scores := store[key].scores[member := score])
                 else ZSet(map[member := score], None)]
  }

  function SetExpiry(store: Store, key: string, ttlMs: nat, redisNow: int): Store {
    if key in store then store[key := store[key].(expiresAt := Some(redisNow + ttlMs))] else store
  }

  function ScoresAt(store: Store, key: string): Scores {
    if key in store then store[key].scores else map[]
  }

  /** Two stores hold the same under every key but this one. */
  ghost predicate SameElsewhere(a: Store, b: Store, key: string) {
    forall k :: k != key ==> (k in a <==> k in b) && (k in a && k in b ==> a[k] == b[k])
  }

  /** Expiry, then the prune: what is left under the key is the pruned live set. */
  lemma PruneLeaves(store: Store, key: string, upTo: int, redisNow: int)
    ensures var pruned := RemRange(DropExpired(store, key, redisNow), key, upTo);
            SameElsewhere(pruned, store, key) && ScoresAt(pruned, key) == Prune(Live(store, key, redisNow), upTo)
  {
    assert Prune(map[], upTo) == map[];
  }

  /** ZADD, then EXPIRE: the key holds one score more and a new expiry. */
  lemma AddThenExpire(store: Store, key: string, member: Member, score: nat, ttlMs: nat, redisNow: int)
    ensures SetExpiry(AddScore(store, key, member, score), key, ttlMs, redisNow)
            == store[key := ZSet(ScoresAt(store, key)[member := score], Some(redisNow + ttlMs))]
  {
    var none: Scores := map[];
    assert map[member := score] == none[member := score];
  }

  lemma SameAfterWrite(a: Store, b: Store, key: string, z: ZSet)
    requires SameElsewhere(a, b, key)
    ensures a[key := z] == b[key := z]
  {
  }

  /** The four commands in sequence are one pipeline step, and ZCARD sees the pruned live set. */
  lemma PipelineComposes(cfg: Config, store: Store, identifier: string, now: nat, redisNow: int, member: Member)
    ensures var key := cfg.Key(identifier);
            var pruned := RemRange(DropExpired(store, key, redisNow), key, now - cfg.WindowMs());
            && SetExpiry(AddScore(pruned, key, member, now), key, cfg.TtlMs(), redisNow)
               == AfterPipeline(cfg, store, identifier, now, redisNow, member)
            && |ScoresAt(pruned, key)| == CountAt(cfg, store, identifier, now, redisNow)
  {
    hide RemRange, DropExpired, SetExpiry, AddScore, SameElsewhere, Prune, Live;
    var key := cfg.Key(identifier);
    var pruned := RemRange(DropExpired(store, key, redisNow), key, now - cfg.WindowMs());
    PruneLeaves(store, key, now - cfg.WindowMs(), redisNow);
    AddThenExpire(pruned, key, member, now, cfg.TtlMs(), redisNow);
    SameAfterWrite(pruned, store, key, ZSet(ScoresAt(pruned, key)[member := now], Some(redisNow + cfg.TtlMs())));
  }

  // ---------------------------------------------------------------------------
  // The check
  // ---------------------------------------------------------------------------

  datatype RateLimitResult = RateLimitResult(allowed: bool, remaining: int, retryAfter: int, failOpen: bool)

  const FAIL_OPEN := RateLimitResult(true, -1, 0, true)

  /** Where a RedisError can strike: before the pipeline runs, after it runs but before its reply, at the ZRANGE. */
  datatype Fault = NoFault | Unreached | ReplyLost | RangeFailed

  /** int(a / b) for b > 0: division that truncates toward zero. */
  function TruncDiv(a: int, b: int): int
    requires b > 0
  {
    if a >= 0 then a / b else -((-a) / b)
  }

  function RetryAfter(cfg: Config, oldest: Option<nat>, now: nat): int {
    match oldest
    case None => cfg.windowSeconds
    case Some(o) => Max(1, TruncDiv(o + cfg.WindowMs() - now, 1000))
  }

  /** The state of a check between its two awaits. */
  datatype Progress = Finished(result: RateLimitResult) | AwaitingRange

  function Decide(cfg: Config, count: nat, fault: Fault): Progress {
    if fault.Unreached? || fault.ReplyLost? then Finished(FAIL_OPEN)
    else if count >= cfg.limit then AwaitingRange
    else Finished(RateLimitResult(true, cfg.limit - count - 1, 0, false))
  }

  /** The Redis server, with the commands the limiter sends. */
  class RedisServer {
    var keys: Store

    constructor ()
      ensures keys == map[]
    {
      keys := map[];
    }

    method Touch(key: string, redisNow: int)
      modifies this
      ensures keys == DropExpired(old(keys), key, redisNow)
    {
      if key in keys && Expired(keys[key], redisNow) {
        keys := keys - {key};
      }
    }

    method ZRemRangeByScore(key: string, upTo: int)
      modifies this
      ensures keys == RemRange(old(keys), key, upTo)
    {
      if key in keys {
        var left := Prune(keys[key].scores, upTo);
        if left == map[] {
          keys := keys - {key};
        } else {
          keys := keys[key := keys[key].(scores := left)];
        }
      }
    }

    method ZCard(key: string) returns (n: nat)
      ensures n == if key in keys then |keys[key].scores| else 0
    {
      n := if key in keys then |keys[key].scores| else 0;
    }

    method ZAdd(key: string, member: Member, score: nat)
      modifies this
      ensures keys == AddScore(old(keys), key, member, score)
    {
      if key in keys {
        keys := keys[key := keys[key].(scores := keys[key].scores[member := score])];
      } else {
        keys := keys[key := ZSet(map[member := score], None)];
      }
    }

    method Expire(key: string, ttlMs: nat, redisNow: int)
      modifies this
      ensures keys == SetExpiry(old(keys), key, ttlMs, redisNow)
    {
      if key in keys {
        keys := keys[key := keys[key].(expiresAt := Some(redisNow + ttlMs))];
      }
    }

    /** ZRANGE key 0 0 WITHSCORES: the lowest score, if there is any. */
    method ZRangeFirst(key: string, redisNow: int) returns (oldest: Option<nat>)
      modifies this
      ensures oldest == Oldest(Live(old(keys), key, redisNow))
      ensures keys == DropExpired(old(keys), key, redisNow)
    {
      Touch(key, redisNow);
      oldest := None;
      if key in keys {
        var scores := keys[key].scores;
        var todo := scores.Keys;
        while todo != {}
          invariant todo <= scores.Keys
          invariant oldest.None? ==> todo == scores.Keys
          invariant oldest.Some? ==> exists m :: m in scores && scores[m] == oldest.value
          invariant oldest.Some? ==> forall m :: m in scores && m !in todo ==> oldest.value <= scores[m]
          decreases todo
        {
          var m :| m in todo;
          todo := todo - {m};
          if oldest.None? || scores[m] < oldest.value {
            oldest := Some(scores[m]);
          }
        }
        assert oldest.None? ==> scores == map[];
        OldestUnique(scores, oldest);
      }
    }
  }

  /** One API instance's limiter. Several may share a server. */
  class RedisSlidingWindowLimiter {
    const redis: RedisServer
    const cfg: Config

    constructor (redis: RedisServer, cfg: Config)
      ensures this.redis == redis && this.cfg == cfg
    {
      this.redis := redis;
      this.cfg := cfg;
    }

    /** The MULTI/EXEC pipeline; its result is the second reply, ZCARD's. */
    method Pipeline(identifier: string, now: nat, redisNow: int, member: Member) returns (countBefore: nat)
      modifies redis
      ensures redis.keys == AfterPipeline(cfg, old(redis.keys), identifier, now, redisNow, member)
      ensures countBefore == CountAt(cfg, old(redis.keys), identifier, now, redisNow)
    {
      hide DropExpired, RemRange, AddScore, SetExpiry, Expired, Live, Prune, AfterPipeline, CountAt;
      var key := cfg.Key(identifier);
      PipelineComposes(cfg, redis.keys, identifier, now, redisNow, member);
      redis.Touch(key, redisNow);
      redis.ZRemRangeByScore(key, now - cfg.WindowMs());
      countBefore := redis.ZCard(key);
      redis.ZAdd(key, member, now);
      redis.Expire(key, cfg.TtlMs(), redisNow);
    }

    /** check() up to the reply of its pipeline; other instances' commands may follow before Complete. */
    method Begin(identifier: string, now: nat, redisNow: int, member: Member, fault: Fault) returns (p: Progress)
      modifies redis
      ensures redis.keys == if fault.Unreached? then old(redis.keys)
                            else AfterPipeline(cfg, old(redis.keys), identifier, now, redisNow, member)
      ensures p == Decide(cfg, CountAt(cfg, old(redis.keys), identifier, now, redisNow), fault)
      ensures fault.Unreached? || fault.ReplyLost? ==> p.Finished? && p.result.allowed && p.result.failOpen
    {
      if fault.Unreached? {
        return Finished(FAIL_OPEN);
      }
      var countBefore := Pipeline(identifier, now, redisNow, member);
      if fault.ReplyLost? {
        return Finished(FAIL_OPEN);
      }
      if countBefore >= cfg.limit {
        return AwaitingRange;
      }
      var remaining := cfg.limit - countBefore - 1;
      return Finished(RateLimitResult(true, remaining, 0, false));
    }

    /** The rest of a denied check(), from its ZRANGE on. */
    method Complete(identifier: string, now: nat, redisNow: int, fault: Fault) returns (r: RateLimitResult)
      modifies redis
      ensures fault.RangeFailed? <==> r.allowed && r.failOpen
      ensures r == if fault.RangeFailed? then FAIL_OPEN
                   else RateLimitResult(false, 0, RetryAfter(cfg, Oldest(Live(old(redis.keys), cfg.Key(identifier), redisNow)), now), false)
      ensures redis.keys == if fault.RangeFailed? then old(redis.keys) else DropExpired(old(redis.keys), cfg.Key(identifier), redisNow)
    {
      if fault.RangeFailed? {
        return FAIL_OPEN;
      }
      var found := redis.ZRangeFirst(cfg.Key(identifier), redisNow);
      var retryAfter := cfg.windowSeconds;
      if found.Some? {
        retryAfter := Max(1, TruncDiv(found.value + cfg.windowSeconds * 1000 - now, 1000));
      }
      return RateLimitResult(false, 0, retryAfter, false);
    }
  }
}
