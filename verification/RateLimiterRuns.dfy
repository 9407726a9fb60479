/**
Runs of the rate limiter: any number of API instances and identifiers, in the order Redis
executes their pipelines. The theorems: what the pruned, expiring set really counts; the
bound on admitted requests when clocks disagree; the refinement of "count the attempts of
the last window"; and the honesty of retry_after and remaining.
*/
module RateLimiterRuns {
  import opened Common
  import opened RateLimiter

  datatype Attempt = Attempt(identifier: string, now: nat, redisNow: int, fault: Fault)

  type Run = seq<Attempt>

  /** Did the pipeline run? A reply lost afterwards does not undo it. */
  predicate Executed(a: Attempt) { !a.fault.Unreached? }

  /** The store after the first n attempts; attempt j adds the member named j. */
  function After(cfg: Config, run: Run, n: nat): Store
    requires n <= |run|
  {
    if n == 0 then map[]
    else if Executed(run[n - 1]) then
      AfterPipeline(cfg, After(cfg, run, n - 1), run[n - 1].identifier, run[n - 1].now, run[n - 1].redisNow, n - 1)
    else After(cfg, run, n - 1)
  }

  function CountBefore(cfg: Config, run: Run, j: nat): nat
    requires j < |run|
  {
    CountAt(cfg, After(cfg, run, j), run[j].identifier, run[j].now, run[j].redisNow)
  }

  function ProgressOf(cfg: Config, run: Run, j: nat): Progress
    requires j < |run|
  {
    Decide(cfg, CountBefore(cfg, run, j), run[j].fault)
  }

  /** Allowed by the limiter itself, not by failing open. */
  predicate Admitted(cfg: Config, run: Run, j: nat)
    requires j < |run|
  {
    var p := ProgressOf(cfg, run, j);
    p.Finished? && !p.result.failOpen && p.result.allowed
  }

  /**
  What a check tells its caller before any ZRANGE: it is allowed if its call failed, and marked so, with no
  figures; or if it was counted below the limit; and otherwise it goes on to its ZRANGE.
  */
  lemma FailsOpen(cfg: Config, run: Run, j: nat)
    requires j < |run|
    ensures var p, failed := ProgressOf(cfg, run, j), run[j].fault.Unreached? || run[j].fault.ReplyLost?;
            && (p.Finished? <==> failed || CountBefore(cfg, run, j) < cfg.limit)
            && (p.Finished? ==> p.result.allowed && p.result.retryAfter == 0 && (p.result.failOpen <==> failed))
            && (failed ==> p.result.remaining == -1) && (Admitted(cfg, run, j) ==> 0 <= p.result.remaining < cfg.limit)
  {
    hide CountBefore;
  }

  /** Executed attempts of one identifier. */
  predicate On(run: Run, id: string, i: nat) {
    i < |run| && Executed(run[i]) && run[i].identifier == id
  }

  // ---------------------------------------------------------------------------
  // Clock assumptions
  // ---------------------------------------------------------------------------

  /** The Redis server's clock never goes back. */
  ghost predicate RedisClockMonotone(run: Run) {
    forall i, j :: 0 <= i <= j < |run| ==> run[i].redisNow <= run[j].redisNow
  }

  /** The TTL's five seconds of slack, and the millisecond that "strictly after its expiry" adds. */
  const SPREAD_MS := 5001

  /** The API clocks' offsets from the Redis clock spread over at most so many milliseconds. */
  ghost predicate SpreadAtMost(run: Run, ms: nat) {
    forall i, j :: 0 <= i < |run| && 0 <= j < |run| ==> Offset(run[i]) - Offset(run[j]) <= ms
  }

  ghost predicate ClocksClose(run: Run) { SpreadAtMost(run, SPREAD_MS) }

  function Offset(a: Attempt): int { a.now - a.redisNow }

  /** No executed timestamp of the identifier lags an earlier-executed one by more than d ms. */
  ghost predicate LagAtMost(run: Run, id: string, d: nat) {
    forall i, j :: 0 <= i < j < |run| && On(run, id, i) && On(run, id, j) ==> run[i].now - d <= run[j].now
  }

  ghost predicate Clocks(run: Run) { RedisClockMonotone(run) && ClocksClose(run) }

  // ---------------------------------------------------------------------------
  // What the stored set is
  // ---------------------------------------------------------------------------

  /** No attempt from position i + 1 up to (not including) n has a window that starts at or after i's timestamp. */
  ghost predicate Outlasts(cfg: Config, run: Run, id: string, i: nat, n: nat)
    requires i < |run| && n <= |run|
  {
    forall m :: i < m < n && On(run, id, m) ==> run[m].now - cfg.WindowMs() < run[i].now
  }

  /** The attempts before n that no later prune up to n has removed, if keys never expired. */
  ghost function Held(cfg: Config, run: Run, id: string, n: nat): set<nat>
    requires n <= |run|
  {
    set i | 0 <= i < n && On(run, id, i) && Outlasts(cfg, run, id, i, n)
  }

  ghost function ScoresOf(run: Run, members: set<nat>): Scores
    requires forall i :: i in members ==> i < |run|
  {
    map i | i in members :: run[i].now
  }

  /** The invariant of a key: it exists once attempted, outlives all its attempts' TTLs, and while live holds Held. */
  ghost predicate KeyInvariant(cfg: Config, run: Run, id: string, n: nat)
    requires n <= |run|
  {
    var store := After(cfg, run, n);
    var key := cfg.Key(id);
    && (key !in store ==> forall i :: 0 <= i < n ==> !On(run, id, i))
    && (key in store ==>
          && store[key].expiresAt.Some?
          && (forall i :: 0 <= i < n && On(run, id, i) ==> run[i].redisNow + cfg.TtlMs() <= store[key].expiresAt.value)
          && (exists i :: 0 <= i < n && On(run, id, i) && run[i].redisNow + cfg.TtlMs() == store[key].expiresAt.value)
          && store[key].scores == ScoresOf(run, Held(cfg, run, id, n)))
  }

  lemma KeysDiffer(cfg: Config, a: string, b: string)
    ensures cfg.Key(a) == cfg.Key(b) <==> a == b
  {
    var p := cfg.prefix + ":";
    assert cfg.Key(a)[|p|..] == a && cfg.Key(b)[|p|..] == b;
  }

  /** Pruning the live set at attempt j leaves exactly Held up to and including j's own window. */
  lemma PrunedLive(cfg: Config, run: Run, j: nat)
    requires Clocks(run) && j < |run| && Executed(run[j])
    requires KeyInvariant(cfg, run, run[j].identifier, j)
    ensures var id := run[j].identifier;
            Prune(Live(After(cfg, run, j), cfg.Key(id), run[j].redisNow), run[j].now - cfg.WindowMs())
            == ScoresOf(run, Surviving(cfg, run, j))
  {
    var id := run[j].identifier;
    var store, key, upTo := After(cfg, run, j), cfg.Key(id), run[j].now - cfg.WindowMs();
    if key in store && Expired(store[key], run[j].redisNow) {
      forall i | i in Held(cfg, run, id, j)
        ensures run[i].now <= upTo
      {
        assert Offset(run[i]) - Offset(run[j]) <= SPREAD_MS;
      }
    }
  }

  /** Attempts whose score is still in the set when attempt j counts, by pruning alone. */
  ghost function Surviving(cfg: Config, run: Run, j: nat): (s: set<nat>)
    requires j < |run|
    ensures forall i :: i in s ==> i < j
  {
    set i | i in Held(cfg, run, run[j].identifier, j) && run[j].now - cfg.WindowMs() < run[i].now
  }

  lemma HeldStep(cfg: Config, run: Run, id: string, n: nat)
    requires n < |run|
    ensures Held(cfg, run, id, n + 1)
            == if On(run, id, n) then Surviving(cfg, run, n) + {n} else Held(cfg, run, id, n)
  {
    forall i | 0 <= i < n && On(run, id, i)
      ensures Outlasts(cfg, run, id, i, n + 1)
              <==> Outlasts(cfg, run, id, i, n) && (On(run, id, n) ==> run[n].now - cfg.WindowMs() < run[i].now)
    {
    }
  }

  lemma KeyStepOther(cfg: Config, run: Run, id: string, n: nat)
    requires n < |run| && !On(run, id, n) && KeyInvariant(cfg, run, id, n)
    ensures KeyInvariant(cfg, run, id, n + 1)
  {
    HeldStep(cfg, run, id, n);
    KeysDiffer(cfg, id, run[n].identifier);
  }

  lemma KeyAfterSame(cfg: Config, run: Run, n: nat)
    requires Clocks(run) && n < |run| && Executed(run[n]) && KeyInvariant(cfg, run, run[n].identifier, n)
    ensures var id := run[n].identifier;
            && cfg.Key(id) in After(cfg, run, n + 1)
            && After(cfg, run, n + 1)[cfg.Key(id)] == ZSet(ScoresOf(run, Held(cfg, run, id, n + 1)), Some(run[n].redisNow + cfg.TtlMs()))
  {
    hide Live, Prune, Surviving, Held, KeyInvariant, ScoresOf;
    PrunedLive(cfg, run, n);
    HeldStep(cfg, run, run[n].identifier, n);
    AddToScores(run, Surviving(cfg, run, n), n);
  }

  lemma KeyStepSame(cfg: Config, run: Run, id: string, n: nat)
    requires Clocks(run) && n < |run| && On(run, id, n) && KeyInvariant(cfg, run, id, n)
    ensures KeyInvariant(cfg, run, id, n + 1)
  {
    hide After, Held, ScoresOf;
    KeyAfterSame(cfg, run, n);
  }

  lemma AddToScores(run: Run, members: set<nat>, n: nat)
    requires n < |run| && forall i :: i in members ==> i < |run|
    ensures ScoresOf(run, members)[n := run[n].now] == ScoresOf(run, members + {n})
  {
  }

  lemma KeyInvariantInit(cfg: Config, run: Run, id: string)
    ensures KeyInvariant(cfg, run, id, 0)
  {
  }

  lemma {:induction false} KeyInvariantHolds(cfg: Config, run: Run, id: string, n: nat)
    requires Clocks(run) && n <= |run|
    ensures KeyInvariant(cfg, run, id, n)
  {
    hide KeyInvariant, Clocks;
    if n == 0 {
      KeyInvariantInit(cfg, run, id);
    } else {
      KeyInvariantHolds(cfg, run, id, n - 1);
      if On(run, id, n - 1) {
        KeyStepSame(cfg, run, id, n - 1);
      } else {
        KeyStepOther(cfg, run, id, n - 1);
      }
    }
  }

  lemma CardinalityOfScores(run: Run, members: set<nat>)
    requires forall i :: i in members ==> i < |run|
    ensures |ScoresOf(run, members)| == |members|
  {
    assert ScoresOf(run, members).Keys == members;
  }

  /**
  The key expiry never changes an answer: with clocks that spread over at most 5001 ms, what ZCARD
  counts is decided by pruning alone, whatever order the timestamps come in.
  */
  lemma ExpiryIsInvisible(cfg: Config, run: Run, j: nat)
    requires Clocks(run) && j < |run| && Executed(run[j])
    ensures CountBefore(cfg, run, j) == |Surviving(cfg, run, j)|
  {
    hide After, Live, Prune, Clocks, Held, KeyInvariant, ScoresOf;
    KeyInvariantHolds(cfg, run, run[j].identifier, j);
    PrunedLive(cfg, run, j);
    CardinalityOfScores(run, Surviving(cfg, run, j));
  }

  // ---------------------------------------------------------------------------
  // The rate bound
  // ---------------------------------------------------------------------------

  ghost function AdmittedIn(cfg: Config, run: Run, id: string, from: int, to: int): set<nat> {
    set j | 0 <= j < |run| && run[j].identifier == id && Admitted(cfg, run, j) && from < run[j].now <= to
  }

  lemma LastOf(s: set<nat>) returns (k: nat)
    requires s != {}
    ensures k in s && forall i :: i in s ==> i <= k
    decreases |s|
  {
    var m :| m in s;
    if s == {m} {
      k := m;
    } else {
      var rest := s - {m};
      assert s == rest + {m};
      var l := LastOf(rest);
      k := if l < m then m else l;
    }
  }

  lemma SubsetSize(a: set<nat>, b: set<nat>)
    requires a <= b
    ensures |a| <= |b|
  {
    assert b == a + (b - a);
  }

  /** With lag d, an attempt of an interval of length W - d is still in the set when a later one of it counts. */
  lemma NeverPrunedInInterval(cfg: Config, run: Run, id: string, d: nat, s: int, i: nat, k: nat)
    requires LagAtMost(run, id, d) && i < k && On(run, id, i) && On(run, id, k)
    requires s < run[i].now && run[k].now <= s + cfg.WindowMs() - d
    ensures i in Surviving(cfg, run, k)
  {
    forall m | i < m < k && On(run, id, m)
      ensures run[m].now - cfg.WindowMs() < run[i].now
    {
      assert run[m].now - d <= run[k].now;
    }
  }

  lemma AdmittedBelowLimit(cfg: Config, run: Run, j: nat)
    requires j < |run| && Admitted(cfg, run, j)
    ensures Executed(run[j]) && CountBefore(cfg, run, j) < cfg.limit
  {
    hide CountBefore;
  }

  /**
  The rate bound under clock disorder: if no timestamp of an identifier lags an earlier-executed
  one by more than d ms, then any timestamp interval of length W - d holds at most limit admitted
  requests of that identifier, in every run. With d = 0 it is the full window.
  */
  lemma RateBound(cfg: Config, run: Run, id: string, d: nat, s: int)
    requires Clocks(run) && LagAtMost(run, id, d)
    ensures |AdmittedIn(cfg, run, id, s, s + cfg.WindowMs() - d)| <= cfg.limit
  {
    hide Admitted, CountBefore, Clocks, LagAtMost;
    var admitted := AdmittedIn(cfg, run, id, s, s + cfg.WindowMs() - d);
    if admitted != {} {
      var k := LastOf(admitted);
      AdmittedBelowLimit(cfg, run, k);
      var earlier := admitted - {k};
      forall i | i in earlier
        ensures i in Surviving(cfg, run, k)
      {
        AdmittedBelowLimit(cfg, run, i);
        NeverPrunedInInterval(cfg, run, id, d, s, i, k);
      }
      SubsetSize(earlier, Surviving(cfg, run, k));
      ExpiryIsInvisible(cfg, run, k);
      assert admitted == earlier + {k};
    }
  }

  // ---------------------------------------------------------------------------
  // Refinement of the simple specification
  // ---------------------------------------------------------------------------

  /** The attempts, allowed or denied, of the identifier's last window in the full history. */
  ghost function Recent(cfg: Config, run: Run, j: nat): set<nat>
    requires j < |run|
  {
    set i | 0 <= i < j && On(run, run[j].identifier, i) && run[j].now - cfg.WindowMs() < run[i].now
  }

  lemma SurvivingIsRecent(cfg: Config, run: Run, j: nat)
    requires Clocks(run) && j < |run| && Executed(run[j]) && LagAtMost(run, run[j].identifier, 0)
    ensures Surviving(cfg, run, j) == Recent(cfg, run, j)
  {
    var id := run[j].identifier;
    forall i | i in Recent(cfg, run, j)
      ensures Outlasts(cfg, run, id, i, j)
    {
      forall m | i < m < j && On(run, id, m)
        ensures run[m].now - cfg.WindowMs() < run[i].now
      {
        assert On(run, id, j);
        assert run[m].now - 0 <= run[j].now;
      }
    }
  }

  /**
  With a non-decreasing clock a check is admitted exactly when fewer than limit earlier attempts,
  allowed or denied, fall in the last window of the whole history (and its own call did not fail).
  */
  lemma RefinesWindowCount(cfg: Config, run: Run, j: nat)
    requires Clocks(run) && j < |run| && LagAtMost(run, run[j].identifier, 0)
    ensures Admitted(cfg, run, j)
            <==> !run[j].fault.Unreached? && !run[j].fault.ReplyLost? && |Recent(cfg, run, j)| < cfg.limit
    ensures Admitted(cfg, run, j) ==> ProgressOf(cfg, run, j).result.remaining == cfg.limit - |Recent(cfg, run, j)| - 1
  {
    if Executed(run[j]) {
      ExpiryIsInvisible(cfg, run, j);
      SurvivingIsRecent(cfg, run, j);
    }
  }

  // ---------------------------------------------------------------------------
  // retry_after and remaining
  // ---------------------------------------------------------------------------

  /** Denied: the check went on to its ZRANGE. */
  predicate Denied(cfg: Config, run: Run, j: nat)
    requires j < |run|
  {
    ProgressOf(cfg, run, j).AwaitingRange?
  }

  /** The oldest score the ZRANGE of check j finds when it runs after n pipelines, at this Redis time. */
  ghost function RangeOldest(cfg: Config, run: Run, j: nat, n: nat, at: int): Option<nat>
    requires j < n <= |run|
  {
    Oldest(Live(After(cfg, run, n), cfg.Key(run[j].identifier), at))
  }

  /** The retry_after that check answers. */
  ghost function RangeRetry(cfg: Config, run: Run, j: nat, n: nat, at: int): int
    requires j < n <= |run|
  {
    RetryAfter(cfg, RangeOldest(cfg, run, j, n, at), run[j].now)
  }

  ghost function PromptOldest(cfg: Config, run: Run, j: nat): Option<nat>
    requires j < |run|
  {
    RangeOldest(cfg, run, j, j + 1, run[j].redisNow)
  }

  /** The retry_after of a check whose ZRANGE runs right after its pipeline. */
  ghost function PromptRetry(cfg: Config, run: Run, j: nat): int
    requires j < |run|
  {
    RangeRetry(cfg, run, j, j + 1, run[j].redisNow)
  }

  lemma OldestHeld(cfg: Config, run: Run, j: nat) returns (o: nat)
    requires Clocks(run) && j < |run| && Executed(run[j]) && LagAtMost(run, run[j].identifier, 0)
    ensures PromptOldest(cfg, run, j) == Some(o)
    ensures o <= run[j].now
    ensures o == run[j].now || run[j].now - cfg.WindowMs() < o
    ensures forall i :: i in Surviving(cfg, run, j) ==> o <= run[i].now
  {
    var id := run[j].identifier;
    KeyInvariantHolds(cfg, run, id, j + 1);
    HeldStep(cfg, run, id, j);
    var scores := Live(After(cfg, run, j + 1), cfg.Key(id), run[j].redisNow);
    assert scores == ScoresOf(run, Surviving(cfg, run, j) + {j});
    assert j in scores;
    o := PromptOldest(cfg, run, j).value;
    assert scores[j] == run[j].now;
    assert forall i :: i in Surviving(cfg, run, j) ==> i in scores && scores[i] == run[i].now;
  }

  /** A prompt retry_after lies between 1 and the window (a window of 0 s makes the lower clamp win). */
  lemma RetryWithinWindow(cfg: Config, run: Run, j: nat)
    requires Clocks(run) && j < |run| && LagAtMost(run, run[j].identifier, 0) && Denied(cfg, run, j)
    ensures 1 <= PromptRetry(cfg, run, j) <= Max(1, cfg.windowSeconds)
  {
    var o := OldestHeld(cfg, run, j);
    TruncBounds(o + cfg.WindowMs() - run[j].now, cfg.windowSeconds);
  }

  /** The key of an identifier has not expired at this Redis time: the latest of the n attempts keeps it. */
  ghost predicate KeyLive(cfg: Config, run: Run, id: string, n: nat, at: int)
    requires n <= |run|
  {
    exists i :: 0 <= i < n && On(run, id, i) && at <= run[i].redisNow + cfg.TtlMs()
  }

  lemma RangeSees(cfg: Config, run: Run, j: nat, n: nat, at: int)
    requires Clocks(run) && j < n <= |run| && Executed(run[j])
    ensures var id := run[j].identifier;
            Live(After(cfg, run, n), cfg.Key(id), at) == if KeyLive(cfg, run, id, n, at) then ScoresOf(run, Held(cfg, run, id, n)) else map[]
  {
    hide After, Held, ScoresOf, Clocks;
    KeyInvariantHolds(cfg, run, run[j].identifier, n);
    assert On(run, run[j].identifier, j);
  }

  /** A set of scores that is not empty has its oldest at or above a bound exactly when all its scores are. */
  lemma OldestAbove(run: Run, members: set<nat>, x: nat, bound: int)
    requires x in members && forall i :: i in members ==> i < |run|
    ensures var oldest := Oldest(ScoresOf(run, members));
            oldest.Some? && (oldest.value >= bound <==> forall i :: i in members ==> run[i].now >= bound)
  {
    var scores := ScoresOf(run, members);
    assert x in scores;
    var o := Oldest(scores).value;
    var m :| m in scores && scores[m] == o;
    forall i | i in members
      ensures o <= run[i].now
    {
      assert i in scores && scores[i] == run[i].now;
    }
  }

  /** The last of an identifier's first n attempts is always still in the set. */
  lemma LastHeld(cfg: Config, run: Run, id: string, n: nat, j: nat) returns (k: nat)
    requires j < n <= |run| && On(run, id, j)
    ensures k in Held(cfg, run, id, n) && j <= k
  {
    var all := set i | 0 <= i < n && On(run, id, i);
    assert j in all;
    k := LastOf(all);
    assert forall m :: 0 <= m < n && On(run, id, m) ==> m in all;
  }

  /** Among the first n attempts, one of j's identifier stamped less than a second after j. */
  predicate Early(run: Run, j: nat, n: nat, i: nat)
    requires j < n <= |run|
  {
    i < n && On(run, run[j].identifier, i) && run[i].now < run[j].now + 1000
  }

  /** Attempt i was followed, within the first n, by one of its identifier a window or more ahead of it. */
  ghost predicate Overtaken(cfg: Config, run: Run, i: nat, n: nat)
    requires i < |run| && n <= |run|
  {
    exists m :: i < m < n && On(run, run[i].identifier, m) && run[i].now + cfg.WindowMs() <= run[m].now
  }

  /**
  When other calls run between a denied check's pipeline and its ZRANGE, its retry_after exceeds the
  window exactly when the key is still live and every attempt stamped less than a second after the
  denied one has been followed by one a window or more ahead of it.
  */
  lemma RetryExceedsWindowIff(cfg: Config, run: Run, j: nat, n: nat, at: int)
    requires Clocks(run) && j < n <= |run| && Denied(cfg, run, j) && cfg.windowSeconds >= 1
    ensures RangeRetry(cfg, run, j, n, at) >= 1
    ensures RangeRetry(cfg, run, j, n, at) > cfg.windowSeconds
            <==> KeyLive(cfg, run, run[j].identifier, n, at)
                 && forall i: nat :: Early(run, j, n, i) ==> Overtaken(cfg, run, i, n)
  {
    hide Clocks, Live, After;
    var id := run[j].identifier;
    RangeSees(cfg, run, j, n, at);
    if KeyLive(cfg, run, id, n, at) {
      var k := LastHeld(cfg, run, id, n, j);
      OldestAbove(run, Held(cfg, run, id, n), k, run[j].now + 1000);
      TruncBounds(RangeOldest(cfg, run, j, n, at).value + cfg.WindowMs() - run[j].now, cfg.windowSeconds);
      forall i | 0 <= i < n && On(run, id, i)
        ensures i in Held(cfg, run, id, n) <==> !Overtaken(cfg, run, i, n)
      {
      }
    }
  }

  /** Attempt m is a window or more ahead of every early one. */
  ghost predicate AheadOfEarly(cfg: Config, run: Run, j: nat, n: nat, m: nat)
    requires j < n <= |run|
  {
    m < n && On(run, run[j].identifier, m) && forall i: nat :: Early(run, j, n, i) ==> run[i].now + cfg.WindowMs() <= run[m].now
  }

  lemma StampedLater(run: Run, id: string, i: nat, m: nat)
    requires On(run, id, i) && On(run, id, m) && LagAtMost(run, id, 0) && run[i].now < run[m].now
    ensures i < m
  {
  }

  lemma OrderedOvertaken(cfg: Config, run: Run, j: nat, n: nat)
    requires j < n <= |run| && Executed(run[j]) && cfg.windowSeconds >= 1 && LagAtMost(run, run[j].identifier, 0)
    ensures (forall i: nat :: Early(run, j, n, i) ==> Overtaken(cfg, run, i, n)) <==> exists m: nat :: AheadOfEarly(cfg, run, j, n, m)
  {
    var id := run[j].identifier;
    var early := set i | 0 <= i < n && Early(run, j, n, i);
    assert j in early;
    var last := LastOf(early);
    if Overtaken(cfg, run, last, n) {
      var m :| last < m < n && On(run, id, m) && run[last].now + cfg.WindowMs() <= run[m].now;
      forall i: nat | Early(run, j, n, i)
        ensures run[i].now <= run[last].now
      {
        assert i in early;
        assert i < last ==> run[i].now - 0 <= run[last].now;
      }
      assert AheadOfEarly(cfg, run, j, n, m);
    }
    forall m: nat, i: nat | AheadOfEarly(cfg, run, j, n, m) && Early(run, j, n, i)
      ensures Overtaken(cfg, run, i, n)
    {
      StampedLater(run, id, i, m);
    }
  }

  /** With a non-decreasing clock that is: some attempt before the ZRANGE is a window or more ahead of all of them. */
  lemma OrderedRetryExceedsWindowIff(cfg: Config, run: Run, j: nat, n: nat, at: int)
    requires Clocks(run) && j < n <= |run| && Denied(cfg, run, j) && cfg.windowSeconds >= 1
    requires LagAtMost(run, run[j].identifier, 0)
    ensures RangeRetry(cfg, run, j, n, at) > cfg.windowSeconds
            <==> KeyLive(cfg, run, run[j].identifier, n, at) && exists m: nat :: AheadOfEarly(cfg, run, j, n, m)
  {
    RetryExceedsWindowIff(cfg, run, j, n, at);
    DeniedExecuted(cfg, run, j);
    hide *;
    OrderedOvertaken(cfg, run, j, n);
  }

  lemma DeniedExecuted(cfg: Config, run: Run, j: nat)
    requires j < |run| && Denied(cfg, run, j)
    ensures Executed(run[j])
  {
  }

  /** With a non-decreasing clock, calls that slip in before the ZRANGE never lower the answer, not even past the key's expiry. */
  lemma InterleavingNeverLowers(cfg: Config, run: Run, j: nat, n: nat, at: int)
    requires Clocks(run) && j < n <= |run| && Denied(cfg, run, j) && cfg.windowSeconds >= 1
    requires LagAtMost(run, run[j].identifier, 0)
    ensures RangeRetry(cfg, run, j, n, at) >= PromptRetry(cfg, run, j)
  {
    hide Clocks, Live, After;
    var id := run[j].identifier;
    RetryWithinWindow(cfg, run, j);
    RangeSees(cfg, run, j, n, at);
    if KeyLive(cfg, run, id, n, at) {
      var o := OldestHeld(cfg, run, j);
      var k := LastHeld(cfg, run, id, n, j);
      forall i | i in Held(cfg, run, id, n)
        ensures run[i].now >= o
      {
        HeldSince(cfg, run, id, j, n, i, o);
      }
      OldestAbove(run, Held(cfg, run, id, n), k, o);
      TruncMonotone(o + cfg.WindowMs() - run[j].now, RangeOldest(cfg, run, j, n, at).value + cfg.WindowMs() - run[j].now);
    }
  }

  lemma HeldSince(cfg: Config, run: Run, id: string, j: nat, n: nat, i: nat, o: nat)
    requires j < n <= |run| && On(run, id, j) && LagAtMost(run, id, 0) && i in Held(cfg, run, id, n)
    requires o <= run[j].now && forall m :: m in Surviving(cfg, run, j) ==> o <= run[m].now
    ensures o <= run[i].now
  {
    if i < j {
      assert i in Surviving(cfg, run, j);
    } else if i > j {
      assert run[j].now - 0 <= run[i].now;
    }
  }

  lemma TruncMonotone(a: int, b: int)
    requires a <= b
    ensures TruncDiv(a, 1000) <= TruncDiv(b, 1000)
  {
  }

  /** One such run: two calls fill a window of one second, a third arrives before the second one's ZRANGE, and it is told to wait two. */
  lemma RetryBeyondWindow(run: Run)
    requires run == [Attempt("ip", 1000, 1000, NoFault), Attempt("ip", 1000, 1000, NoFault), Attempt("ip", 2000, 2000, NoFault)]
    ensures var cfg := Config("k", 1, 1);
            && Clocks(run) && LagAtMost(run, "ip", 0) && Denied(cfg, run, 1)
            && RangeRetry(cfg, run, 1, 3, 2000) == 2 > cfg.windowSeconds
  {
    var cfg := Config("k", 1, 1);
    SecondDenied(cfg, run);
    hide Live, After, Denied, KeyLive, Held;
    RangeSees(cfg, run, 1, 3, 2000);
    assert KeyLive(cfg, run, "ip", 3, 2000) by { LastKeepsLive(cfg, run, "ip", 2); }
    assert Held(cfg, run, "ip", 3) == {2} by { OnlyThirdHeld(cfg, run); }
    OldestAbove(run, {2}, 2, 2000);
    OldestAbove(run, {2}, 2, 2001);
    assert RangeOldest(cfg, run, 1, 3, 2000) == Some(2000);
  }

  lemma SecondDenied(cfg: Config, run: Run)
    requires run == [Attempt("ip", 1000, 1000, NoFault), Attempt("ip", 1000, 1000, NoFault), Attempt("ip", 2000, 2000, NoFault)]
    requires cfg == Config("k", 1, 1)
    ensures Clocks(run) && LagAtMost(run, "ip", 0) && Denied(cfg, run, 1)
  {
    hide After, CountAt;
    ExpiryIsInvisible(cfg, run, 1);
    assert Surviving(cfg, run, 1) == {0};
  }

  lemma OnlyThirdHeld(cfg: Config, run: Run)
    requires run == [Attempt("ip", 1000, 1000, NoFault), Attempt("ip", 1000, 1000, NoFault), Attempt("ip", 2000, 2000, NoFault)]
    requires cfg == Config("k", 1, 1)
    ensures Held(cfg, run, "ip", 3) == {2}
  {
    assert On(run, "ip", 2);
  }

  lemma LastKeepsLive(cfg: Config, run: Run, id: string, k: nat)
    requires k < |run| && On(run, id, k)
    ensures KeyLive(cfg, run, id, k + 1, run[k].redisNow)
  {
  }

  lemma TruncBounds(a: int, seconds: nat)
    ensures TruncDiv(a, 1000) > seconds <==> a >= 1000 * seconds + 1000
  {
  }

  /** Did the reply to its pipeline come back? */
  predicate Replied(a: Attempt) { !a.fault.Unreached? && !a.fault.ReplyLost? }

  /** The identifier's attempts from i on and before k. */
  ghost function Between(run: Run, id: string, i: nat, k: nat): set<nat>
    requires k <= |run|
  {
    set m | i <= m < k && On(run, id, m)
  }

  /** The value was at least 1 before clamping. */
  predicate Unclamped(cfg: Config, oldest: Option<nat>, now: nat) {
    oldest.Some? ==> TruncDiv(oldest.value + cfg.WindowMs() - now, 1000) >= 1
  }

  /** A later attempt of check j's identifier, sooner than its ZRANGE after n pipelines told it to come back. */
  ghost predicate Sooner(cfg: Config, run: Run, j: nat, n: nat, at: int, k: nat)
    requires j < n <= |run|
  {
    && n <= k < |run| && run[k].identifier == run[j].identifier && at <= run[k].redisNow
    && run[k].now < run[j].now + 1000 * RangeRetry(cfg, run, j, n, at)
  }

  /** Of the entries held after n pipelines, those still inside the window of attempt k. */
  ghost function StillHeld(cfg: Config, run: Run, id: string, n: nat, k: nat): set<nat>
    requires n <= |run| && k < |run|
  {
    set i | i in Held(cfg, run, id, n) && run[k].now - cfg.WindowMs() < run[i].now
  }

  /**
  What retry_after promises, for a ZRANGE that runs after any n pipelines: an attempt that comes sooner
  is admitted exactly when the entries found at the ZRANGE, as far as they are still in its window, and
  the attempts since then are fewer than limit. When the value was at least 1 before clamping they all
  are still in it: then the promise is kept throughout if the entries found number limit, and broken by
  the first such attempt otherwise. (Past the key's expiry, none can come sooner.)
  */
  lemma RetryPromiseIff(cfg: Config, run: Run, j: nat, n: nat, at: int, k: nat)
    requires Clocks(run) && j < n <= |run| && LagAtMost(run, run[j].identifier, 0) && Denied(cfg, run, j)
    requires cfg.windowSeconds >= 1 && Sooner(cfg, run, j, n, at, k)
    ensures KeyLive(cfg, run, run[j].identifier, n, at)
    ensures Admitted(cfg, run, k)
            <==> Replied(run[k]) && |StillHeld(cfg, run, run[j].identifier, n, k)| + |Between(run, run[j].identifier, n, k)| < cfg.limit
    ensures Unclamped(cfg, RangeOldest(cfg, run, j, n, at), run[j].now)
            ==> StillHeld(cfg, run, run[j].identifier, n, k) == Held(cfg, run, run[j].identifier, n)
  {
    var id := run[j].identifier;
    DeniedExecuted(cfg, run, j);
    hide Live, After, Denied, Held;
    SoonerIsLive(cfg, run, j, n, at, k);
    RefinesWindowCount(cfg, run, k);
    var last := LastHeld(cfg, run, id, n, j);
    if Unclamped(cfg, RangeOldest(cfg, run, j, n, at), run[j].now) {
      SoonerThanOldest(cfg, run, j, n, at, k);
    } else {
      assert run[j].now <= run[last].now by { NeverBack(run, id, j, last); }
    }
    if Executed(run[k]) {
      RecentIsHeld(cfg, run, id, n, k, last);
    }
  }

  lemma NeverBack(run: Run, id: string, i: nat, m: nat)
    requires On(run, id, i) && On(run, id, m) && i <= m && LagAtMost(run, id, 0)
    ensures run[i].now <= run[m].now
  {
    assert i < m ==> run[i].now - 0 <= run[m].now;
  }

  lemma SoonerIsLive(cfg: Config, run: Run, j: nat, n: nat, at: int, k: nat)
    requires Clocks(run) && j < n <= |run| && Executed(run[j]) && Sooner(cfg, run, j, n, at, k)
    ensures KeyLive(cfg, run, run[j].identifier, n, at)
  {
    hide Live, After;
    RangeSees(cfg, run, j, n, at);
    ExpiredIsPast(cfg, run, j, k, at);
    assert On(run, run[j].identifier, j);
  }

  /** What had expired by then is a window behind. */
  lemma ExpiredIsPast(cfg: Config, run: Run, j: nat, k: nat, at: int)
    requires Clocks(run) && j < |run| && k < |run| && at <= run[k].redisNow
    ensures run[j].redisNow + cfg.TtlMs() < at ==> run[j].now + cfg.WindowMs() <= run[k].now
  {
    assert Offset(run[j]) - Offset(run[k]) <= SPREAD_MS;
  }

  /** Sooner than told by an unclamped value, an attempt finds every entry of the ZRANGE still inside its window. */
  lemma SoonerThanOldest(cfg: Config, run: Run, j: nat, n: nat, at: int, k: nat)
    requires Clocks(run) && j < n <= |run| && Executed(run[j]) && KeyLive(cfg, run, run[j].identifier, n, at)
    requires Unclamped(cfg, RangeOldest(cfg, run, j, n, at), run[j].now) && Sooner(cfg, run, j, n, at, k)
    ensures forall i :: i in Held(cfg, run, run[j].identifier, n) ==> run[k].now - cfg.WindowMs() < run[i].now
  {
    var id := run[j].identifier;
    hide Live, After;
    RangeSees(cfg, run, j, n, at);
    var last := LastHeld(cfg, run, id, n, j);
    OldestAbove(run, Held(cfg, run, id, n), last, 0);
    var o := RangeOldest(cfg, run, j, n, at).value;
    OldestAbove(run, Held(cfg, run, id, n), last, o);
    var ahead := o + cfg.WindowMs() - run[j].now;
    assert 1000 * (ahead / 1000) <= ahead;
  }

  /** With the last entry held after n pipelines in attempt k's window, that window counts what is still held and all that came since. */
  lemma RecentIsHeld(cfg: Config, run: Run, id: string, n: nat, k: nat, last: nat)
    requires n <= k < |run| && last < n && On(run, id, last) && On(run, id, k) && LagAtMost(run, id, 0)
    requires run[k].now - cfg.WindowMs() < run[last].now
    ensures |Recent(cfg, run, k)| == |StillHeld(cfg, run, id, n, k)| + |Between(run, id, n, k)|
  {
    var held, since := StillHeld(cfg, run, id, n, k), Between(run, id, n, k);
    forall i | 0 <= i < k && On(run, id, i)
      ensures i in Recent(cfg, run, k) <==> i in since || i in held
    {
      if i >= n {
        NeverBack(run, id, last, i);
      } else if i !in Held(cfg, run, id, n) {
        var m :| i < m < n && On(run, id, m) && run[i].now <= run[m].now - cfg.WindowMs();
        NeverBack(run, id, m, k);
      }
    }
    assert Recent(cfg, run, k) == held + since && held !! since;
  }

  /**
  Retry is honest: with no call before the ZRANGE, and a value of at least 1 before clamping, every later
  attempt made earlier than retry_after seconds after the denied one is not admitted.
  */
  lemma RetryIsHonest(cfg: Config, run: Run, j: nat, k: nat)
    requires Clocks(run) && j < k < |run| && LagAtMost(run, run[j].identifier, 0) && Denied(cfg, run, j)
    requires run[k].identifier == run[j].identifier
    requires Unclamped(cfg, PromptOldest(cfg, run, j), run[j].now)
    requires run[k].now < run[j].now + 1000 * PromptRetry(cfg, run, j)
    ensures !Admitted(cfg, run, k)
  {
    hide After, Live, Recent;
    var id := run[j].identifier;
    DeniedExecuted(cfg, run, j);
    UnclampedHasWindow(cfg, run, j);
    RetryPromiseIff(cfg, run, j, j + 1, run[j].redisNow, k);
    HeldStep(cfg, run, id, j);
    DeniedAtLimit(cfg, run, j);
    SubsetSize(Surviving(cfg, run, j), Held(cfg, run, id, j + 1));
  }

  /** A prompt value of at least 1 before clamping takes a window. */
  lemma UnclampedHasWindow(cfg: Config, run: Run, j: nat)
    requires Clocks(run) && j < |run| && LagAtMost(run, run[j].identifier, 0) && Executed(run[j])
    requires Unclamped(cfg, PromptOldest(cfg, run, j), run[j].now)
    ensures cfg.windowSeconds >= 1
  {
    hide PromptOldest, Clocks;
    var o := OldestHeld(cfg, run, j);
  }

  lemma DeniedAtLimit(cfg: Config, run: Run, j: nat)
    requires Clocks(run) && j < |run| && Denied(cfg, run, j)
    ensures |Surviving(cfg, run, j)| >= cfg.limit
  {
    hide CountBefore, Surviving, Clocks;
    ExpiryIsInvisible(cfg, run, j);
  }

  /** Three calls at once, a denied fourth a second later, and a fifth that prunes the three before the fourth's ZRANGE. */
  ghost predicate Overpromised(cfg: Config, run: Run) {
    && cfg == Config("k", 3, 10) && |run| == 6
    && (forall i :: 0 <= i < 6 ==> run[i] == Attempt("ip", if i < 3 then 1 else if i == 3 then 1001 else 10001,
                                                     if i < 3 then 1 else if i == 3 then 1001 else 10001, NoFault))
  }

  /** The fourth is told ten seconds, and nine seconds later the sixth is admitted. */
  lemma RetryOverpromises(cfg: Config, run: Run)
    requires Overpromised(cfg, run)
    ensures Clocks(run) && LagAtMost(run, "ip", 0) && Denied(cfg, run, 3)
    ensures RangeRetry(cfg, run, 3, 5, 10001) == 10 && Sooner(cfg, run, 3, 5, 10001, 5) && Admitted(cfg, run, 5)
  {
    FourthDenied(cfg, run);
    FourthTold(cfg, run);
    TwoHeld(cfg, run);
    hide RangeRetry, RangeOldest, Clocks, LagAtMost, Denied, Held, Admitted, KeyLive;
    RetryPromiseIff(cfg, run, 3, 5, 10001, 5);
    assert Between(run, "ip", 5, 5) == {};
    assert |{3, 4}| == 2;
  }

  lemma FourthTold(cfg: Config, run: Run)
    requires Overpromised(cfg, run) && Clocks(run)
    ensures RangeOldest(cfg, run, 3, 5, 10001) == Some(1001) && RangeRetry(cfg, run, 3, 5, 10001) == 10
  {
    hide Live, After, Clocks;
    TwoHeld(cfg, run);
    RangeSees(cfg, run, 3, 5, 10001);
    hide Held, KeyLive;
    OldestAbove(run, {3, 4}, 3, 1001);
    OldestAbove(run, {3, 4}, 3, 1002);
  }

  lemma FourthDenied(cfg: Config, run: Run)
    requires Overpromised(cfg, run)
    ensures Clocks(run) && LagAtMost(run, "ip", 0) && Denied(cfg, run, 3)
  {
    hide CountBefore;
    ExpiryIsInvisible(cfg, run, 3);
    SubsetSize({0, 1, 2}, Surviving(cfg, run, 3));
  }

  lemma TwoHeld(cfg: Config, run: Run)
    requires Overpromised(cfg, run)
    ensures Held(cfg, run, "ip", 5) == {3, 4} && KeyLive(cfg, run, "ip", 5, 10001)
  {
    assert On(run, "ip", 4);
  }

  /**
  Remaining is honest: after an admitted check that reports r remaining, another check of the identifier
  at the same instant is admitted exactly while the identifier's attempts from the admitted one on are at
  most r, whatever runs in between. (A window of 0 s counts nothing, so there every check is admitted.)
  */
  lemma RemainingIsHonest(cfg: Config, run: Run, j: nat, k: nat)
    requires Clocks(run) && j < k < |run| && LagAtMost(run, run[j].identifier, 0) && Admitted(cfg, run, j)
    requires run[k].identifier == run[j].identifier && run[k].now == run[j].now
    ensures Admitted(cfg, run, k)
            <==> Replied(run[k])
                 && (|Between(run, run[j].identifier, j, k)| <= ProgressOf(cfg, run, j).result.remaining || cfg.windowSeconds == 0)
  {
    hide ProgressOf, Recent, Clocks;
    RefinesWindowCount(cfg, run, j);
    RefinesWindowCount(cfg, run, k);
    if Executed(run[k]) {
      AdmittedBelowLimit(cfg, run, j);
      RecentSince(cfg, run, j, k);
    }
  }

  /** At one instant the window counts what it counted before, and every attempt of the identifier since. */
  lemma RecentSince(cfg: Config, run: Run, j: nat, k: nat)
    requires j < k < |run| && LagAtMost(run, run[j].identifier, 0) && Executed(run[j]) && Executed(run[k])
    requires run[k].identifier == run[j].identifier && run[k].now == run[j].now
    ensures |Recent(cfg, run, k)| == if cfg.windowSeconds == 0 then 0 else |Recent(cfg, run, j)| + |Between(run, run[j].identifier, j, k)|
  {
    var id := run[j].identifier;
    var before, since := Recent(cfg, run, j), Between(run, id, j, k);
    forall i | 0 <= i < k && On(run, id, i)
      ensures run[i].now <= run[k].now && (i >= j ==> run[i].now >= run[j].now)
    {
      assert run[i].now - 0 <= run[k].now;
      assert i > j ==> run[j].now - 0 <= run[i].now;
    }
    if cfg.windowSeconds == 0 {
      assert Recent(cfg, run, k) == {};
    } else {
      assert Recent(cfg, run, k) == before + since && before !! since;
    }
  }

  /** A full quiet window always allows, with limit - 1 remaining. */
  lemma QuietWindowAllows(cfg: Config, run: Run, j: nat)
    requires Clocks(run) && j < |run| && LagAtMost(run, run[j].identifier, 0)
    requires run[j].fault.NoFault? && cfg.limit >= 1
    requires forall i :: 0 <= i < j && On(run, run[j].identifier, i) ==> run[i].now <= run[j].now - cfg.WindowMs()
    ensures Admitted(cfg, run, j) && ProgressOf(cfg, run, j).result.remaining == cfg.limit - 1
  {
    RefinesWindowCount(cfg, run, j);
    assert Recent(cfg, run, j) == {};
  }
}
