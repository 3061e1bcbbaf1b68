/**
 * Multi-pool management (src/impl/pool_management.rs): a registry of pools keyed by id with
 * their status and share counters, the active pool, the choice of the best pool, failover and
 * the health and aggregate reports. Instants are passed in as plain timestamps.
 */
module PoolManagement {
  import opened Errors
  import Decimal

  /** Lower rank is preferred: primary, then backup, then emergency. */
  datatype PoolPriority = Primary | Backup | Emergency
  {
    function Rank(): nat
    {
      match this
      case Primary => 0
      case Backup => 1
      case Emergency => 2
    }
  }

  /** Durations are whole seconds; the fee is a floating-point percentage, exact here. */
  datatype PoolConfig = PoolConfig(
    id: string,
    url: string,
    worker: string,
    password: Option<string>,
    priority: PoolPriority,
    connectTimeout: nat,
    keepaliveInterval: nat,
    maxRetries: nat,
    retryDelay: nat,
    feePercent: real)

  const DefaultPoolConfig := PoolConfig("default", "stratum+tcp://localhost:3333", "worker1", None,
    Primary, 30, 30, 3, 5, 1.0)

  datatype PoolStatus =
    | Disconnected
    | Connecting
    | Connected
    | Subscribed
    | Authorized
    | Failed(reason: string)
    | Disabled(reason: string)

  datatype PoolState = PoolState(
    config: PoolConfig,
    status: PoolStatus,
    connectionAttempts: nat,
    successfulConnections: nat,
    sharesSubmitted: nat,
    sharesAccepted: nat,
    sharesRejected: nat,
    lastConnected: Option<nat>,
    lastShare: Option<nat>,
    latencyMs: Option<nat>)

  /** A fresh pool: disconnected, nothing counted, nothing timed. */
  function NewPoolState(config: PoolConfig): (s: PoolState)
    ensures s.config == config && s.status == Disconnected
    ensures s.sharesSubmitted == s.sharesAccepted == s.sharesRejected == 0
    ensures s.connectionAttempts == s.successfulConnections == 0
    ensures s.lastConnected == s.lastShare == s.latencyMs == None
    ensures AcceptanceRate(s) == 1.0
  {
    PoolState(config, Disconnected, 0, 0, 0, 0, 0, None, None, None)
  }

  /** Accepted over submitted shares; 1 while nothing has been submitted. */
  function AcceptanceRate(s: PoolState): (r: real)
    ensures s.sharesSubmitted == 0 ==> r == 1.0
    ensures s.sharesSubmitted > 0 ==> r * s.sharesSubmitted as real == s.sharesAccepted as real
    ensures 0.0 <= r
    ensures s.sharesAccepted <= s.sharesSubmitted ==> r <= 1.0
  {
    if s.sharesSubmitted == 0 then 1.0 else s.sharesAccepted as real / s.sharesSubmitted as real
  }

  /** Rejected over submitted shares; 0 while nothing has been submitted. */
  function RejectionRate(s: PoolState): (r: real)
    ensures s.sharesSubmitted == 0 ==> r == 0.0
    ensures s.sharesSubmitted > 0 ==> r * s.sharesSubmitted as real == s.sharesRejected as real
    ensures 0.0 <= r
    ensures s.sharesRejected <= s.sharesSubmitted ==> r <= 1.0
  {
    if s.sharesSubmitted == 0 then 0.0 else s.sharesRejected as real / s.sharesSubmitted as real
  }

  /** Submitted shares neither accepted nor rejected, over submitted; 0 while nothing was submitted. */
  function StaleRate(s: PoolState): (r: real)
    requires s.sharesAccepted + s.sharesRejected <= s.sharesSubmitted
    ensures s.sharesSubmitted == 0 ==> r == 0.0
    ensures s.sharesSubmitted > 0 ==>
      r * s.sharesSubmitted as real == (s.sharesSubmitted - s.sharesAccepted - s.sharesRejected) as real
    ensures 0.0 <= r <= 1.0
    ensures s.sharesSubmitted > 0 ==> AcceptanceRate(s) + RejectionRate(s) + r == 1.0
  {
    if s.sharesSubmitted == 0 then 0.0
    else
      ThreeParts(s.sharesAccepted, s.sharesRejected, s.sharesSubmitted);
      (s.sharesSubmitted - (s.sharesAccepted + s.sharesRejected)) as real / s.sharesSubmitted as real
  }

  /** Three counts that make up n, each taken over n, add up to one. */
  lemma ThreeParts(a: nat, b: nat, n: nat)
    requires a + b <= n && n > 0
    ensures a as real / n as real + b as real / n as real + (n - (a + b)) as real / n as real == 1.0
  {
    var m, x, y, z := n as real, a as real, b as real, (n - (a + b)) as real;
    var t := x / m + y / m + z / m;
    assert (x / m) * m == x && (y / m) * m == y && (z / m) * m == z;
    assert t * m == (x / m) * m + (y / m) * m + (z / m) * m;
    assert (t - 1.0) * m == 0.0;
  }

  /** Every submitted share was either accepted or rejected. */
  predicate Balanced(s: PoolState)
  {
    s.sharesSubmitted == s.sharesAccepted + s.sharesRejected
  }

  /**
   * For a balanced pool with submissions the rates lie in [0, 1], acceptance and rejection
   * add up to one and nothing is stale.
   */
  lemma RatesOfBalanced(s: PoolState)
    requires Balanced(s) && s.sharesSubmitted > 0
    ensures 0.0 <= AcceptanceRate(s) <= 1.0 && 0.0 <= RejectionRate(s) <= 1.0
    ensures AcceptanceRate(s) + RejectionRate(s) == 1.0 && StaleRate(s) == 0.0
  {
    assert s.sharesSubmitted - s.sharesAccepted - s.sharesRejected == 0;
    assert StaleRate(s) == 0.0;
  }

  datatype PoolManagerConfig = PoolManagerConfig(
    autoFailover: bool,
    failoverTimeout: nat,
    healthCheckInterval: nat,
    maxPools: nat,
    minAcceptanceRate: real)

  const DefaultManagerConfig := PoolManagerConfig(true, 30, 60, 10, 0.95)

  datatype FailoverEvent = FailoverEvent(timestamp: nat, fromPool: Option<string>, toPool: string, reason: string)

  datatype HealthCheckResult = HealthCheckResult(healthyPools: seq<string>, unhealthyPools: seq<string>, checkedAt: nat)

  datatype AggregatePoolStats = AggregatePoolStats(
    poolsCount: nat,
    connectedPools: nat,
    totalSharesSubmitted: nat,
    totalSharesAccepted: nat,
    totalSharesRejected: nat,
    overallAcceptanceRate: real)

  /** A pool that may be chosen: neither failed nor disabled. */
  predicate IsCandidate(s: PoolState)
  {
    !s.status.Failed? && !s.status.Disabled?
  }

  /** a sorts before b: higher priority, or equal priority and a higher acceptance rate. */
  predicate Better(a: PoolState, b: PoolState)
  {
    a.config.priority.Rank() < b.config.priority.Rank()
    || (a.config.priority.Rank() == b.config.priority.Rank() && AcceptanceRate(a) > AcceptanceRate(b))
  }

  /** id names a candidate pool that no other candidate sorts before. */
  predicate IsBest(pools: map<string, PoolState>, id: string)
  {
    id in pools && IsCandidate(pools[id])
    && forall other :: other in pools && IsCandidate(pools[other]) ==> !Better(pools[other], pools[id])
  }

  /** A pool counted as connected by the aggregate report. */
  predicate IsConnected(s: PoolState)
  {
    s.status.Connected? || s.status.Subscribed? || s.status.Authorized?
  }

  /** A pool the health check reports as healthy. */
  predicate IsHealthy(s: PoolState, minAcceptanceRate: real)
  {
    AcceptanceRate(s) >= minAcceptanceRate && IsCandidate(s)
  }

  /** The sum of f over the pools with the given ids, in no particular order. */
  ghost function Total(pools: map<string, PoolState>, ids: set<string>, f: PoolState -> nat): nat
    requires ids <= pools.Keys
  {
    if ids == {} then 0
    else
      var id :| id in ids;
      f(pools[id]) + Total(pools, ids - {id}, f)
  }

  /** Any id can be taken out of the sum first: the order of summation does not matter. */
  lemma {:induction false} TotalRemove(pools: map<string, PoolState>, ids: set<string>, f: PoolState -> nat, id: string)
    requires ids <= pools.Keys && id in ids
    ensures Total(pools, ids, f) == f(pools[id]) + Total(pools, ids - {id}, f)
    decreases |ids|
  {
    var first :| first in ids && Total(pools, ids, f) == f(pools[first]) + Total(pools, ids - {first}, f);
    if first != id {
      TotalRemove(pools, ids - {first}, f, id);
      TotalRemove(pools, ids - {id}, f, first);
      assert ids - {first} - {id} == ids - {id} - {first};
    }
  }

  /** Sums split over a pointwise sum of the summands. */
  lemma {:induction false} TotalAdd(pools: map<string, PoolState>, ids: set<string>,
    f: PoolState -> nat, g: PoolState -> nat, h: PoolState -> nat)
    requires ids <= pools.Keys
    requires forall id :: id in ids ==> h(pools[id]) == f(pools[id]) + g(pools[id])
    ensures Total(pools, ids, h) == Total(pools, ids, f) + Total(pools, ids, g)
    decreases |ids|
  {
    if ids != {} {
      var id :| id in ids;
      TotalRemove(pools, ids, f, id);
      TotalRemove(pools, ids, g, id);
      TotalRemove(pools, ids, h, id);
      TotalAdd(pools, ids - {id}, f, g, h);
    }
  }

  function Submitted(s: PoolState): nat { s.sharesSubmitted }
  function Accepted(s: PoolState): nat { s.sharesAccepted }
  function Rejected(s: PoolState): nat { s.sharesRejected }
  function ConnectedCount(s: PoolState): nat { if IsConnected(s) then 1 else 0 }

  function NotFound(id: string): MiningError
  {
    PoolConnection("Pool not found: " + id)
  }

  class PoolManager {
    const config: PoolManagerConfig
    var pools: map<string, PoolState>
    var activePool: Option<string>
    var failoverHistory: seq<FailoverEvent>

    /**
     * The registry never holds more than maxPools pools, each stored under its own id, every
     * pool's submissions are accepted or rejected, and an active id names a registered pool.
     */
    predicate Valid()
      reads this
    {
      |pools| <= config.maxPools
      && (forall id :: id in pools ==> pools[id].config.id == id && Balanced(pools[id]))
      && (activePool.Some? ==> activePool.value in pools)
    }

    constructor (config: PoolManagerConfig)
      ensures this.config == config && pools == map[] && activePool == None && failoverHistory == []
      ensures Valid()
    {
      this.config := config;
      pools := map[];
      activePool := None;
      failoverHistory := [];
    }

    /**
     * Registers a pool under its id, replacing a pool with the same id; refused when the
     * registry already holds maxPools pools.
     */
    method AddPool(poolConfig: PoolConfig) returns (r: Result<()>)
      requires Valid()
      modifies this`pools
      ensures Valid()
      ensures r.Err? <==> |old(pools)| >= config.maxPools
      ensures r.Err? ==> (pools == old(pools)
        && r.error == Configuration("Maximum number of pools (" + Decimal.Decimal(config.maxPools) + ") exceeded"))
      ensures r.Ok? ==> pools == old(pools)[poolConfig.id := NewPoolState(poolConfig)]
    {
      if |pools| >= config.maxPools {
        return Err(Configuration("Maximum number of pools (" + Decimal.Decimal(config.maxPools) + ") exceeded"));
      }
      pools := pools[poolConfig.id := NewPoolState(poolConfig)];
      r := Ok(());
    }

    /** Unregisters a pool, and forgets it as the active pool if it was; refused for an unknown id. */
    method RemovePool(id: string) returns (r: Result<()>)
      requires Valid()
      modifies this`pools, this`activePool
      ensures Valid()
      ensures r.Err? <==> id !in old(pools)
      ensures r.Err? ==> r.error == NotFound(id) && pools == old(pools) && activePool == old(activePool)
      ensures r.Ok? ==> pools == old(pools) - {id}
      ensures r.Ok? ==> activePool == if old(activePool) == Some(id) then None else old(activePool)
    {
      if id !in pools {
        return Err(NotFound(id));
      }
      pools := pools - {id};
      if activePool == Some(id) {
        activePool := None;
      }
      r := Ok(());
    }

    function GetPool(id: string): (r: Option<PoolState>)
      reads this`pools
      ensures r.Some? <==> id in pools
      ensures r.Some? ==> r.value == pools[id]
    {
      if id in pools then Some(pools[id]) else None
    }

    /** Makes a registered pool the active one; refused, with nothing changed, for an unknown id. */
    method SetActivePool(id: string) returns (r: Result<()>)
      requires Valid()
      modifies this`activePool
      ensures Valid()
      ensures r.Err? <==> id !in pools
      ensures r.Err? ==> r.error == NotFound(id) && activePool == old(activePool)
      ensures r.Ok? ==> activePool == Some(id)
    {
      if id !in pools {
        return Err(NotFound(id));
      }
      activePool := Some(id);
      r := Ok(());
    }

    /** Sets the status of a registered pool; refused for an unknown id. */
    method UpdateStatus(id: string, status: PoolStatus) returns (r: Result<()>)
      requires Valid()
      modifies this`pools
      ensures Valid()
      ensures r.Err? <==> id !in old(pools)
      ensures r.Err? ==> r.error == NotFound(id) && pools == old(pools)
      ensures r.Ok? ==> pools == old(pools)[id := old(pools)[id].(status := status)]
    {
      if id !in pools {
        return Err(NotFound(id));
      }
      pools := pools[id := pools[id].(status := status)];
      r := Ok(());
    }

    /**
     * Counts a submitted share as accepted or rejected and stamps the pool's last share time;
     * refused for an unknown id.
     */
    method RecordShare(id: string, accepted: bool, now: nat) returns (r: Result<()>)
      requires Valid()
      modifies this`pools
      ensures Valid()
      ensures r.Err? <==> id !in old(pools)
      ensures r.Err? ==> r.error == NotFound(id) && pools == old(pools)
      ensures r.Ok? ==> pools.Keys == old(pools).Keys
      ensures r.Ok? ==> forall other :: other in pools && other != id ==> pools[other] == old(pools)[other]
      ensures r.Ok? ==> var s, t := old(pools)[id], pools[id];
        t == s.(sharesSubmitted := t.sharesSubmitted, sharesAccepted := t.sharesAccepted,
                sharesRejected := t.sharesRejected, lastShare := Some(now))
        && t.sharesSubmitted == s.sharesSubmitted + 1
        && t.sharesAccepted == s.sharesAccepted + (if accepted then 1 else 0)
        && t.sharesRejected == s.sharesRejected + (if accepted then 0 else 1)
    {
      if id !in pools {
        return Err(NotFound(id));
      }
      var s := pools[id];
      var t := s.(sharesSubmitted := s.sharesSubmitted + 1);
      if accepted {
        t := t.(sharesAccepted := t.sharesAccepted + 1);
      } else {
        t := t.(sharesRejected := t.sharesRejected + 1);
      }
      pools := pools[id := t.(lastShare := Some(now))];
      r := Ok(());
    }

    /**
     * The pool to mine on: none when every pool is failed or disabled, otherwise a candidate
     * that no candidate sorts before (ties are broken by the map's iteration order).
     */
    method SelectBestPool() returns (best: Option<string>)
      ensures best.None? <==> forall id :: id in pools ==> !IsCandidate(pools[id])
      ensures best.Some? ==> IsBest(pools, best.value)
    {
      best := None;
      var remaining := pools.Keys;
      while remaining != {}
        invariant remaining <= pools.Keys
        invariant best.None? ==> forall id :: id in pools && id !in remaining ==> !IsCandidate(pools[id])
        invariant best.Some? ==> best.value in pools && IsCandidate(pools[best.value])
        invariant best.Some? ==> forall id :: id in pools && id !in remaining && IsCandidate(pools[id]) ==>
          !Better(pools[id], pools[best.value])
        decreases |remaining|
      {
        var id :| id in remaining;
        if IsCandidate(pools[id]) && (best.None? || Better(pools[id], pools[best.value])) {
          best := Some(id);
        }
        remaining := remaining - {id};
      }
    }

    /**
     * Marks the active pool failed and switches to the best remaining pool, recording the
     * switch; when no pool is left the active id is kept and nothing is recorded.
     */
    method Failover(reason: string, now: nat) returns (r: Result<Option<string>>)
      requires Valid()
      modifies this`pools, this`activePool, this`failoverHistory
      ensures Valid() && r.Ok?
      ensures pools == if old(activePool).Some?
        then old(pools)[old(activePool).value := old(pools)[old(activePool).value].(status := Failed(reason))]
        else old(pools)
      ensures r.value.None? <==> forall id :: id in pools ==> !IsCandidate(pools[id])
      ensures r.value.Some? ==> IsBest(pools, r.value.value) && activePool == r.value
      ensures r.value.Some? ==>
        failoverHistory == old(failoverHistory) + [FailoverEvent(now, old(activePool), r.value.value, reason)]
      ensures r.value.None? ==> activePool == old(activePool) && failoverHistory == old(failoverHistory)
    {
      var current := activePool;
      if current.Some? {
        pools := pools[current.value := pools[current.value].(status := Failed(reason))];
      }
      var newPool := SelectBestPool();
      if newPool.Some? {
        activePool := newPool;
        failoverHistory := failoverHistory + [FailoverEvent(now, current, newPool.value, reason)];
      }
      r := Ok(newPool);
    }

    /** Sorts every registered pool into exactly one of the healthy and unhealthy lists. */
    method HealthCheck(now: nat) returns (result: HealthCheckResult)
      requires Valid()
      ensures result.checkedAt == now
      ensures forall id :: id in result.healthyPools <==> id in pools && IsHealthy(pools[id], config.minAcceptanceRate)
      ensures forall id :: id in result.unhealthyPools <==> id in pools && !IsHealthy(pools[id], config.minAcceptanceRate)
      ensures |result.healthyPools| + |result.unhealthyPools| == |pools|
    {
      var healthy: seq<string> := [];
      var unhealthy: seq<string> := [];
      var remaining := pools.Keys;
      while remaining != {}
        invariant remaining <= pools.Keys
        invariant forall id :: id in healthy <==>
          id in pools && id !in remaining && IsHealthy(pools[id], config.minAcceptanceRate)
        invariant forall id :: id in unhealthy <==>
          id in pools && id !in remaining && !IsHealthy(pools[id], config.minAcceptanceRate)
        invariant |healthy| + |unhealthy| + |remaining| == |pools|
        decreases |remaining|
      {
        var id :| id in remaining;
        var pool := pools[id];
        if AcceptanceRate(pool) >= config.minAcceptanceRate && IsCandidate(pool) {
          healthy := healthy + [pool.config.id];
        } else {
          unhealthy := unhealthy + [pool.config.id];
        }
        remaining := remaining - {id};
      }
      result := HealthCheckResult(healthy, unhealthy, now);
    }

    /**
     * Totals of the share counters over all pools, the number of pools and of connected ones,
     * and the overall acceptance rate (0 while nothing was submitted).
     */
    method AggregateStats() returns (stats: AggregatePoolStats)
      ensures stats.poolsCount == |pools|
      ensures stats.connectedPools == Total(pools, pools.Keys, ConnectedCount)
      ensures stats.totalSharesSubmitted == Total(pools, pools.Keys, Submitted)
      ensures stats.totalSharesAccepted == Total(pools, pools.Keys, Accepted)
      ensures stats.totalSharesRejected == Total(pools, pools.Keys, Rejected)
      ensures stats.overallAcceptanceRate == if stats.totalSharesSubmitted == 0 then 0.0
        else stats.totalSharesAccepted as real / stats.totalSharesSubmitted as real
    {
      var count, connected, submitted, accepted, rejected := 0, 0, 0, 0, 0;
      var remaining := pools.Keys;
      ghost var counted: set<string> := {};
      while remaining != {}
        invariant counted !! remaining && counted + remaining == pools.Keys
        invariant count == |counted|
        invariant connected == Total(pools, counted, ConnectedCount)
        invariant submitted == Total(pools, counted, Submitted)
        invariant accepted == Total(pools, counted, Accepted)
        invariant rejected == Total(pools, counted, Rejected)
        decreases |remaining|
      {
        var id :| id in remaining;
        var pool := pools[id];
        TotalsStep(pools, counted, id);
        submitted := submitted + pool.sharesSubmitted;
        accepted := accepted + pool.sharesAccepted;
        rejected := rejected + pool.sharesRejected;
        count := count + 1;
        if IsConnected(pool) {
          connected := connected + 1;
        }
        remaining := remaining - {id};
        counted := counted + {id};
      }
      assert counted == pools.Keys;
      var rate := if submitted > 0 then accepted as real / submitted as real else 0.0;
      stats := AggregatePoolStats(count, connected, submitted, accepted, rejected, rate);
    }
  }

  /** Adding one more pool to a sum adds its summand. */
  lemma TotalStep(pools: map<string, PoolState>, ids: set<string>, f: PoolState -> nat, id: string)
    requires ids <= pools.Keys && id in pools && id !in ids
    ensures Total(pools, ids + {id}, f) == Total(pools, ids, f) + f(pools[id])
  {
    TotalRemove(pools, ids + {id}, f, id);
    assert ids + {id} - {id} == ids;
  }

  /** Adding one pool to the counted ones adds its count to each of the four totals. */
  lemma TotalsStep(pools: map<string, PoolState>, ids: set<string>, id: string)
    requires ids <= pools.Keys && id in pools && id !in ids
    ensures |ids + {id}| == |ids| + 1
    ensures Total(pools, ids + {id}, ConnectedCount) == Total(pools, ids, ConnectedCount) + ConnectedCount(pools[id])
    ensures Total(pools, ids + {id}, Submitted) == Total(pools, ids, Submitted) + pools[id].sharesSubmitted
    ensures Total(pools, ids + {id}, Accepted) == Total(pools, ids, Accepted) + pools[id].sharesAccepted
    ensures Total(pools, ids + {id}, Rejected) == Total(pools, ids, Rejected) + pools[id].sharesRejected
  {
    TotalStep(pools, ids, ConnectedCount, id);
    TotalStep(pools, ids, Submitted, id);
    TotalStep(pools, ids, Accepted, id);
    TotalStep(pools, ids, Rejected, id);
  }

  /** Over a valid registry the totals balance too: submitted = accepted + rejected. */
  lemma AggregateBalanced(pools: map<string, PoolState>)
    requires forall id :: id in pools ==> Balanced(pools[id])
    ensures Total(pools, pools.Keys, Submitted) == Total(pools, pools.Keys, Accepted) + Total(pools, pools.Keys, Rejected)
  {
    TotalAdd(pools, pools.Keys, Accepted, Rejected, Submitted);
  }

  /** The registry of the source's tests: a primary and a backup pool, neither active. */
  method TwoPools(primary: string, backup: string) returns (manager: PoolManager)
    requires primary != backup
    ensures fresh(manager) && manager.Valid() && manager.activePool == None
    ensures manager.pools == map[
      primary := NewPoolState(DefaultPoolConfig.(id := primary, priority := Primary)),
      backup := NewPoolState(DefaultPoolConfig.(id := backup, priority := Backup))]
  {
    manager := new PoolManager(DefaultManagerConfig);
    var added := manager.AddPool(DefaultPoolConfig.(id := primary, priority := Primary));
    assert added.Ok?;
    added := manager.AddPool(DefaultPoolConfig.(id := backup, priority := Backup));
    assert added.Ok?;
  }

  /** The source's test: of a primary and a backup pool, both usable, the primary is chosen. */
  method SelectBestPoolExample(primary: string, backup: string) returns (best: Option<string>)
    requires primary != backup
    ensures best == Some(primary)
  {
    var manager := TwoPools(primary, backup);
    best := manager.SelectBestPool();
    assert IsCandidate(manager.pools[primary]);
    assert best.value in manager.pools.Keys;
    assert Better(manager.pools[primary], manager.pools[backup]);
  }

  /** The source's test: failing over from the active primary switches to the backup. */
  method FailoverExample(primary: string, backup: string) returns (r: Result<Option<string>>)
    requires primary != backup
    ensures r == Ok(Some(backup))
  {
    var manager := TwoPools(primary, backup);
    var activated := manager.SetActivePool(primary);
    r := manager.Failover("Connection lost", 0);
    assert IsCandidate(manager.pools[backup]);
  }
}
