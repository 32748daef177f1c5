/** From the configuration to a supervisor with prepared pools. */
module Creation {
  import opened Sums
  import opened Worker
  import opened Pool
  import opened Supervisor
  import opened Naming
  import opened WorkerPools
  import opened SupervisorLoop
  import TimeLimiter

  /**
   One entry of the configuration, with what the outside makes of it: whether the executable
   is found, the port template parses, and the proxy's files can be written. A lifespan of 0 is
   none; `jitterMillis` is the float64 product of the jitter ratio and the lifespan.
   */
  datatype WorkerConfig = WorkerConfig(
    name: string,
    replicas: int,
    maxRestarts: int,
    lifespan: int,
    jitter: real,
    jitterMillis: real,
    proxied: bool,
    startPort: nat,
    desiredHealthPcnt: int,
    execFound: bool,
    templateOk: bool,
    proxyWritable: bool)

  datatype CreateResult = Created | DuplicateName | InvalidPool | NotPrepared | Panicked

  predicate Usable(c: WorkerConfig) {
    && c.execFound && c.replicas > 0 && (c.proxied ==> c.templateOk && c.proxyWritable)
    && !Undrawable(c)
  }

  /** A limiter is asked for whose jitter leaves nothing to draw from. */
  predicate Undrawable(c: WorkerConfig) {
    c.lifespan != 0 && !TimeLimiter.Drawable(c.jitter, c.jitterMillis)
  }

  /** That is when building the limiter panics, whatever would be drawn. */
  lemma UndrawablePanics(c: WorkerConfig, draw: nat)
    requires c.lifespan != 0 && c.jitter > 0.0 && (draw < c.jitterMillis.Floor || c.jitterMillis.Floor <= 0)
    requires TimeLimiter.Float64(c.jitter * TimeLimiter.Millis(c.lifespan) as real, c.jitterMillis)
    ensures Undrawable(c) <==> TimeLimiter.NewTimeout(c.lifespan, c.jitter, c.jitterMillis, draw).BadBound?
  {
  }

  predicate DistinctNames(configs: seq<WorkerConfig>) {
    forall i, j | 0 <= i < j < |configs| :: configs[i].name != configs[j].name
  }

  /** `MaxRestartsOrDefault` */
  function MaxRestartsOrDefault(maxRestarts: int): nat {
    if maxRestarts < 0 then MAX_INT else maxRestarts
  }

  /** The pool is the one its entry of the configuration describes. */
  predicate Fits(pool: WorkerPool, c: WorkerConfig) {
    && pool.poolName == c.name && pool.replicas == c.replicas && pool.proxied == c.proxied
    && pool.maxRestarts == (if c.maxRestarts >= 0 then c.maxRestarts else 0x7FFF_FFFF_FFFF_FFFF)
    && pool.lifespan == (c.lifespan != 0) && pool.drawable == !Undrawable(c)
    && pool.startPort == c.startPort && pool.desiredHealthPcnt == c.desiredHealthPcnt
  }

  /** The processes an entry asks for: its replicas, and one proxy if it has a server. */
  function Processes(c: WorkerConfig): int {
    c.replicas + if c.proxied then 1 else 0
  }

  function AllProcesses(configs: seq<WorkerConfig>): int {
    if configs == [] then 0 else AllProcesses(configs[..|configs| - 1]) + Processes(configs[|configs| - 1])
  }

  /** Each entry's pool is the one it describes, with as many processes as it asks for. */
  predicate Built(pools: map<string, WorkerPoolInfo>, configs: seq<WorkerConfig>) {
    forall i | 0 <= i < |configs| ::
      && configs[i].name in pools && Fits(pools[configs[i].name].pool, configs[i])
      && TotalIn(pools[configs[i].name]) == Processes(configs[i])
  }

  lemma BuiltNone()
    ensures Built(map[], [])
  {
  }

  lemma BuiltNext(pools: map<string, WorkerPoolInfo>, configs: seq<WorkerConfig>, c: WorkerConfig, info: WorkerPoolInfo)
    requires Built(pools, configs) && c.name !in pools
    requires Fits(info.pool, c) && TotalIn(info) == Processes(c)
    ensures Built(pools[c.name := info], configs + [c])
  {
    hide Fits;
    hide Processes;
  }

  /** `NewWorkerPool`: no pool without an executable, replicas, and a port template where one is needed. */
  method NewWorkerPool(c: WorkerConfig) returns (pool: WorkerPool?)
    ensures pool == null <==> !c.execFound || c.replicas <= 0 || (c.proxied && !c.templateOk)
    ensures pool != null ==> fresh(pool) && Fits(pool, c)
    ensures pool != null ==> pool.workers == map[] && pool.workerRestarts == pool.proxyRestarts == pool.sigkills == pool.ownKills == 0
  {
    if !c.execFound || c.replicas <= 0 || (c.proxied && !c.templateOk) {
      return null;
    }
    pool := new WorkerPool(c.name, c.replicas, MaxRestartsOrDefault(c.maxRestarts), c.lifespan != 0, !Undrawable(c), c.proxied,
                           c.startPort, c.desiredHealthPcnt);
  }

  /** A pool that has just been prepared, as the supervisor starts to keep it. */
  predicate JustPrepared(i: WorkerPoolInfo, p: string)
    reads i.pool
  {
    && i.pool.poolName == p && i.pool.state == PoolState.Prepared
    && i.pool.replicas > 0
    && i.pool.workers.Keys == Names(p, i.pool.replicas) + (if i.pool.proxied then {PROXY_ID} else {})
    && (forall id | id in i.pool.workers :: i.pool.workers[id] == NewSlot(id != PROXY_ID))
    && i.totalProcesses == i.runningProcesses == |i.pool.workers| == i.pool.replicas + (if i.pool.proxied then 1 else 0)
    && i.pool.workerRestarts == i.pool.proxyRestarts == i.pool.sigkills == i.pool.ownKills == 0
  }

  function TotalIn(i: WorkerPoolInfo): int { i.totalProcesses }

  /**
   `createAndPreparePools`: succeeds exactly when the names are distinct and every entry is
   usable. Each pool is then the one its entry describes, with one slot per replica and one for
   its proxy, all of them counted as running, and the grand total is what the entries ask for.
   */
  method CreateAndPreparePools(configs: seq<WorkerConfig>)
    returns (r: CreateResult, pools: map<string, WorkerPoolInfo>, totalProcesses: int)
    ensures r.Created? <==> DistinctNames(configs) && forall i | 0 <= i < |configs| :: Usable(configs[i])
    ensures r.Created? ==>
              && pools.Keys == (set i | 0 <= i < |configs| :: configs[i].name)
              && totalProcesses == Sum(pools, TotalIn) == AllProcesses(configs)
              && (forall p | p in pools :: fresh(pools[p].pool) && JustPrepared(pools[p], p))
              && Built(pools, configs)
  {
    hide JustPrepared;
    hide Usable;
    hide TotalIn;
    hide Fits;
    hide Processes;
    hide Built;
    BuiltNone();
    pools, totalProcesses := map[], 0;
    for n := 0 to |configs|
      invariant DistinctNames(configs[..n]) && forall i | 0 <= i < n :: Usable(configs[i])
      invariant pools.Keys == (set i | 0 <= i < n :: configs[i].name)
      invariant totalProcesses == Sum(pools, TotalIn) == AllProcesses(configs[..n])
      invariant forall p | p in pools :: fresh(pools[p].pool) && JustPrepared(pools[p], p)
      invariant Built(pools, configs[..n])
    {
      var c := configs[n];
      if c.name in pools {
        return DuplicateName, pools, totalProcesses;
      }
      var info := NewInfo(c);
      if info.Err? {
        return info.error, pools, totalProcesses;
      }
      Update(pools, TotalIn, c.name, info.value);
      assert configs[..n + 1][..n] == configs[..n] && configs[..n + 1] == configs[..n] + [c];
      BuiltNext(pools, configs[..n], c, info.value);
      totalProcesses := totalProcesses + TotalIn(info.value);
      pools := pools[c.name := info.value];
    }
    assert configs[..|configs|] == configs;
    r := Created;
  }

  datatype InfoResult = Ok(value: WorkerPoolInfo) | Err(error: CreateResult)

  /** One turn of the loop: a new pool with its workers prepared. */
  method NewInfo(c: WorkerConfig) returns (r: InfoResult)
    ensures r.Ok? <==> Usable(c)
    ensures r.Err? ==> r.error != Created
    ensures r.Err? && r.error == CreateResult.Panicked <==> c.execFound && c.replicas > 0 && (c.proxied ==> c.templateOk) && Undrawable(c)
    ensures r.Ok? ==> fresh(r.value.pool) && JustPrepared(r.value, c.name)
    ensures r.Ok? ==> Fits(r.value.pool, c) && TotalIn(r.value) == Processes(c)
  {
    hide Names;
    hide NewSlot;
    var pool := NewWorkerPool(c);
    if pool == null {
      return Err(InvalidPool);
    }
    var prepared := pool.PrepareWorkers(!c.proxyWritable);
    if prepared == PrepareResult.Panicked {
      return Err(CreateResult.Panicked);
    } else if prepared != PrepareResult.Prepared {
      return Err(NotPrepared);
    }
    var proxyProcess := if pool.proxied then 1 else 0;
    return Ok(WorkerPoolInfo(pool, c.replicas + proxyProcess, c.replicas + proxyProcess));
  }

  lemma FirstWorker(p: string, n: nat)
    requires n > 0
    ensures WorkerName(p, 0) in Names(p, n) && WorkerName(p, 0) != PROXY_ID
    ensures PROXY_ID !in Names(p, n)
  {
    WorkerIsNotProxy(p, 0);
    NamesNext(p, n);
  }

  /** What the supervisor keeps about a pool before anything has run, in terms of its entry. */
  ghost predicate AsConfigured(i: Info, c: WorkerConfig) {
    && i.total == i.running == Processes(c)
    && i.pool.proxied == c.proxied && i.pool.lifespan == (c.lifespan != 0)
    && i.pool.maxRestarts == (if c.maxRestarts >= 0 then c.maxRestarts else 0x7FFF_FFFF_FFFF_FFFF)
    && i.pool.slots.Keys == (set n | 0 <= n < c.replicas :: WorkerName(c.name, n)) + (if c.proxied then {PROXY_ID} else {})
    && forall id | id in i.pool.slots ::
         i.pool.slots[id] == Slot([], Proc(Phase.Prepared, 0, id != PROXY_ID, false, false, false, false, 0, false), 0, 0, 0, [])
  }

  /** A supervisor over the prepared pools starts in an initial state, with what the configuration asks for. */
  method NewSupervisor(configs: seq<WorkerConfig>) returns (r: CreateResult, s: SupervisorObject?)
    ensures r.Created? <==> DistinctNames(configs) && forall i | 0 <= i < |configs| :: Usable(configs[i])
    ensures r.Created? <==> s != null
    ensures s != null ==> fresh(s) && s.Valid() && Initial(s.View())
    ensures s != null ==>
              && s.View().total == AllProcesses(configs)
              && s.View().pools.Keys == (set i | 0 <= i < |configs| :: configs[i].name)
              && forall i | 0 <= i < |configs| :: AsConfigured(s.View().pools[configs[i].name], configs[i])
  {
    var pools, totalProcesses;
    r, pools, totalProcesses := CreateAndPreparePools(configs);
    if r != Created {
      return r, null;
    }
    PreparedNames(pools);
    s := new SupervisorObject(pools, totalProcesses);
    forall p | p in pools ensures Fresh(s.InfoOf(p)) && s.InfoOf(p).total == pools[p].totalProcesses {
      FirstWorker(p, pools[p].pool.replicas);
      FreshInfo(s, p);
    }
    hide Fresh;
    s.ViewHolds();
    Congruent(pools, TotalIn, s.View().pools, TotalOf);
    forall i | 0 <= i < |configs| ensures AsConfigured(s.View().pools[configs[i].name], configs[i]) {
      Configured(s, configs[i]);
    }
  }

  lemma Configured(s: SupervisorObject, c: WorkerConfig)
    requires s.Valid() && c.name in s.pools && JustPrepared(s.pools[c.name], c.name)
    requires Fits(s.pools[c.name].pool, c) && TotalIn(s.pools[c.name]) == Processes(c)
    ensures AsConfigured(s.InfoOf(c.name), c)
  {
  }

  lemma PreparedNames(pools: map<string, WorkerPoolInfo>)
    requires forall p | p in pools :: JustPrepared(pools[p], p)
    ensures forall p | p in pools :: pools[p].pool.poolName == p
  {
  }

  lemma FreshInfo(s: SupervisorObject, p: string)
    requires s.Valid() && p in s.pools && JustPrepared(s.pools[p], p)
    requires s.gauges.Running(p) == s.gauges.Terminated(p) == 0 && s.proxyStops[p] == []
    ensures Fresh(s.InfoOf(p))
  {
    hide NewSlot;
    hide Names;
    var pool := s.pools[p].pool;
    FirstWorker(p, pool.replicas);
    var w := WorkerName(p, 0);
    assert w in pool.workers && w != PROXY_ID;
  }
}
