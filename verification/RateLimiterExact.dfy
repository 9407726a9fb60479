/**
How far the limiter's bounds reach: the longest interval that holds at most limit admitted requests,
for every limit and every clock disorder, and the widest clock spread that key expiry tolerates.
*/
module RateLimiterExact {
  import opened Common
  import opened RateLimiter
  import opened RateLimiterRuns

  // ---------------------------------------------------------------------------
  // The rate bound, exactly
  // ---------------------------------------------------------------------------

  ghost predicate AtMostLimit(cfg: Config, run: Run, id: string, s: int, length: nat) {
    |AdmittedIn(cfg, run, id, s, s + length)| <= cfg.limit
  }

  /** Every interval of this length, in every run whose timestamps lag by at most d ms, holds at most limit admitted requests. */
  ghost predicate BoundHolds(cfg: Config, d: nat, length: nat) {
    forall run: Run, id: string, s: int :: Clocks(run) && LagAtMost(run, id, d) ==> AtMostLimit(cfg, run, id, s, length)
  }

  /** The lag that matters: clocks that spread by at most SPREAD_MS cannot lag by more. */
  function Lag(d: nat): nat { Min(d, SPREAD_MS) }

  /** The window less the lag, down to nothing; a limit of one needs no shortening. */
  function SafeLength(cfg: Config, d: nat): nat {
    if cfg.limit == 1 then cfg.WindowMs() else Max(0, cfg.WindowMs() - Lag(d))
  }

  /** The rate bound holds for exactly the intervals up to SafeLength, and for all of them under a limit of zero. */
  lemma RateBoundExact(cfg: Config, d: nat, length: nat)
    ensures BoundHolds(cfg, d, length) <==> cfg.limit == 0 || length <= SafeLength(cfg, d)
  {
    hide AtMostLimit, Clocks, LagAtMost;
    if cfg.limit == 0 || length <= SafeLength(cfg, d) {
      forall run: Run, id: string, s: int | Clocks(run) && LagAtMost(run, id, d)
        ensures AtMostLimit(cfg, run, id, s, length)
      {
        SafeLengthHolds(cfg, run, id, d, s, length);
      }
    } else {
      var lag := if cfg.limit == 1 then 0 else Min(Lag(d), cfg.WindowMs());
      DisorderedExceeds(cfg, d, lag, length);
    }
  }

  /** So a full window is bounded under disorder exactly when the limit is at most one. */
  lemma FullWindowIff(cfg: Config, d: nat)
    requires cfg.windowSeconds >= 1 && d >= 1
    ensures BoundHolds(cfg, d, cfg.WindowMs()) <==> cfg.limit <= 1
  {
    RateBoundExact(cfg, d, cfg.WindowMs());
  }

  lemma NoneUnderZero(cfg: Config, run: Run, j: nat)
    requires j < |run| && cfg.limit == 0
    ensures !Admitted(cfg, run, j)
  {
    hide CountBefore;
  }

  lemma SafeLengthHolds(cfg: Config, run: Run, id: string, d: nat, s: int, length: nat)
    requires Clocks(run) && LagAtMost(run, id, d) && (cfg.limit == 0 || length <= SafeLength(cfg, d))
    ensures AtMostLimit(cfg, run, id, s, length)
  {
    hide Admitted, Clocks, LagAtMost;
    var admitted := AdmittedIn(cfg, run, id, s, s + length);
    if cfg.limit == 0 {
      forall j | 0 <= j < |run|
        ensures j !in admitted
      {
        NoneUnderZero(cfg, run, j);
      }
      assert admitted == {};
    } else if cfg.limit == 1 {
      LimitOne(cfg, run, id, s, length);
    } else if length > 0 {
      LagFromSpread(run, id, d);
      RateBound(cfg, run, id, Lag(d), s);
      SubsetSize(admitted, AdmittedIn(cfg, run, id, s, s + cfg.WindowMs() - Lag(d)));
    } else {
      assert admitted == {};
    }
  }

  lemma LagFromSpread(run: Run, id: string, d: nat)
    requires Clocks(run) && LagAtMost(run, id, d)
    ensures LagAtMost(run, id, Lag(d))
  {
    forall i, j | 0 <= i < j < |run| && On(run, id, i) && On(run, id, j)
      ensures run[i].now - Lag(d) <= run[j].now
    {
      assert Offset(run[i]) - Offset(run[j]) <= SPREAD_MS;
    }
  }

  /** The latest-stamped attempt from i on and before k. */
  lemma {:induction false} LatestBefore(run: Run, id: string, i: nat, k: nat) returns (m: nat)
    requires i < k <= |run| && On(run, id, i)
    ensures i <= m < k && On(run, id, m)
    ensures forall p :: i <= p < k && On(run, id, p) ==> run[p].now <= run[m].now
  {
    if k == i + 1 {
      m := i;
    } else {
      m := LatestBefore(run, id, i, k - 1);
      if On(run, id, k - 1) && run[m].now < run[k - 1].now {
        m := k - 1;
      }
    }
  }

  /** Of two requests in one window the later-executed one counts at least the latest stamp since the earlier one. */
  lemma LaterCounts(cfg: Config, run: Run, id: string, i: nat, k: nat)
    requires i < k < |run| && On(run, id, i) && On(run, id, k)
    requires run[k].now - cfg.WindowMs() < run[i].now && cfg.WindowMs() > 0
    ensures Surviving(cfg, run, k) != {}
  {
    var m := LatestBefore(run, id, i, k);
    assert m in Surviving(cfg, run, k);
  }

  lemma LimitOne(cfg: Config, run: Run, id: string, s: int, length: nat)
    requires Clocks(run) && cfg.limit == 1 && length <= cfg.WindowMs()
    ensures |AdmittedIn(cfg, run, id, s, s + length)| <= 1
  {
    var admitted := AdmittedIn(cfg, run, id, s, s + length);
    if admitted != {} {
      var k := LastOf(admitted);
      ExpiryIsInvisible(cfg, run, k);
      forall i | i in admitted
        ensures i == k
      {
        if i != k { LaterCounts(cfg, run, id, i, k); }
      }
      assert admitted == {k};
    }
  }

  // ---------------------------------------------------------------------------
  // No longer interval will do
  // ---------------------------------------------------------------------------

  const ID := "ip"

  /** limit attempts at 1 ms, one a window later, and one that lags it. */
  function Disordered(cfg: Config, lag: nat): Run
    requires lag <= cfg.WindowMs()
  {
    var w := cfg.WindowMs();
    seq(cfg.limit, _ => Attempt(ID, 1, 1, NoFault)) + [Attempt(ID, 1 + w, 1 + w, NoFault), Attempt(ID, 1 + w - lag, 1 + w, NoFault)]
  }

  lemma DisorderedClocks(cfg: Config, lag: nat)
    requires lag <= cfg.WindowMs() && lag <= SPREAD_MS
    ensures Clocks(Disordered(cfg, lag)) && LagAtMost(Disordered(cfg, lag), ID, lag)
  {
  }

  /** All its attempts are admitted; the last one needs a limit of two, because it counts the one before. */
  lemma DisorderedAdmitted(cfg: Config, lag: nat, j: nat)
    requires lag <= cfg.WindowMs() && lag <= SPREAD_MS && cfg.limit >= 1
    requires j <= cfg.limit || (j == cfg.limit + 1 && cfg.limit >= 2)
    ensures Admitted(cfg, Disordered(cfg, lag), j)
  {
    var run, n := Disordered(cfg, lag), cfg.limit;
    DisorderedClocks(cfg, lag);
    assert |Surviving(cfg, run, j)| < n by {
      hide Clocks;
      if j < n {
        InitialSize(Surviving(cfg, run, j), j);
      } else if j == n {
        assert Surviving(cfg, run, n) == {};
      } else {
        assert On(run, ID, n);
        SubsetSize(Surviving(cfg, run, j), {n});
      }
    }
    ExpiryIsInvisible(cfg, run, j);
  }

  lemma {:induction false} InitialSize(s: set<nat>, n: nat)
    requires forall i :: i in s ==> i < n
    ensures |s| <= n
  {
    if n > 0 {
      InitialSize(s - {n - 1}, n - 1);
      assert s <= (s - {n - 1}) + {n - 1};
      SubsetSize(s, (s - {n - 1}) + {n - 1});
    } else {
      assert s == {};
    }
  }

  ghost function Initial(n: nat): (s: set<nat>)
    ensures |s| == n && forall i :: i in s <==> 0 <= i < n
  {
    if n == 0 then {} else Initial(n - 1) + {n - 1}
  }

  lemma DisorderedExceeds(cfg: Config, d: nat, lag: nat, length: nat)
    requires cfg.limit >= 1 && lag <= Lag(d) && lag <= cfg.WindowMs() && length > cfg.WindowMs() - lag
    requires cfg.limit == 1 ==> lag == 0
    ensures !BoundHolds(cfg, d, length)
  {
    hide Admitted, Clocks;
    var run, n := Disordered(cfg, lag), cfg.limit;
    DisorderedClocks(cfg, lag);
    var extra := if n == 1 then n else n + 1;
    var counted := Initial(n) + {extra};
    forall j | j in counted
      ensures j in AdmittedIn(cfg, run, ID, 0, length)
    {
      DisorderedAdmitted(cfg, lag, j);
    }
    SubsetSize(counted, AdmittedIn(cfg, run, ID, 0, length));
    assert LagAtMost(run, ID, d);
    assert !AtMostLimit(cfg, run, ID, 0, length) by { assert 0 + length == length; }
  }

  // ---------------------------------------------------------------------------
  // Key expiry
  // ---------------------------------------------------------------------------

  ghost predicate CountsByPruningAlone(cfg: Config, run: Run) {
    forall j :: 0 <= j < |run| && Executed(run[j]) ==> CountBefore(cfg, run, j) == |Surviving(cfg, run, j)|
  }

  /** Key expiry never changes an answer, for clocks that spread over at most so many milliseconds. */
  ghost predicate ExpiryTolerates(cfg: Config, ms: nat) {
    forall run: Run :: RedisClockMonotone(run) && SpreadAtMost(run, ms) ==> CountsByPruningAlone(cfg, run)
  }

  /** The widest spread that key expiry tolerates is SPREAD_MS, whatever the window. */
  lemma ExpirySpreadExact(cfg: Config, ms: nat)
    ensures ExpiryTolerates(cfg, ms) <==> ms <= SPREAD_MS
  {
    if ms <= SPREAD_MS {
      forall run: Run | RedisClockMonotone(run) && SpreadAtMost(run, ms)
        ensures CountsByPruningAlone(cfg, run)
      {
        assert Clocks(run);
        forall j | 0 <= j < |run| && Executed(run[j])
          ensures CountBefore(cfg, run, j) == |Surviving(cfg, run, j)|
        {
          ExpiryIsInvisible(cfg, run, j);
        }
      }
    } else {
      ExpiryForgets(cfg);
      assert SpreadAtMost(Stretched(cfg), ms);
    }
  }

  /** Two attempts a window apart by the API clocks, and just past the expiry by the Redis clock. */
  function Stretched(cfg: Config): Run {
    [Attempt(ID, 1, 0, NoFault), Attempt(ID, cfg.WindowMs(), cfg.TtlMs() + 1, NoFault)]
  }

  lemma ExpiryForgets(cfg: Config)
    ensures RedisClockMonotone(Stretched(cfg)) && SpreadAtMost(Stretched(cfg), SPREAD_MS + 1)
    ensures !CountsByPruningAlone(cfg, Stretched(cfg))
  {
    var run := Stretched(cfg);
    assert Surviving(cfg, run, 1) == {0};
    assert After(cfg, run, 0) == map[];
    var store := After(cfg, run, 1);
    assert store == AfterPipeline(cfg, map[], ID, 1, 0, 0);
    assert Expired(store[cfg.Key(ID)], cfg.TtlMs() + 1);
    assert Live(store, cfg.Key(ID), cfg.TtlMs() + 1) == map[];
    assert Prune(map[], cfg.WindowMs() - cfg.WindowMs()) == map[];
    assert CountBefore(cfg, run, 1) == 0;
  }
}
