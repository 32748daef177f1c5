/** The worker pool as the object it is, proved against the operations on values of `Pool`. */
module WorkerPools {
  import opened Sums
  import opened Worker
  import opened Pool
  import PoolOps = Pool
  import opened Naming
  import Health
  import Metrics

  /** `Panicked` is a limiter that finds no jitter to draw from. */
  datatype PrepareResult = Prepared | Collision | ProxyNotPrepared | Panicked

  class WorkerPool {
    const poolName: string
    const replicas: nat
    const maxRestarts: nat
    const lifespan: bool
    const drawable: bool          // a limiter of this pool can be built: see `TimeLimiter.Drawable`
    const proxied: bool
    const startPort: nat
    const desiredHealthPcnt: int

    var state: PoolState
    var workers: map<string, Slot>
    var ports: map<string, nat>
    var endpoints: seq<nat>       // the port range last written into the proxy's cluster
    var workerRestarts: nat
    var proxyRestarts: nat
    var sigkills: nat
    var ownKills: nat             // history: how many of them went to PID 0

    /** The pool as a value. */
    function View(): Pool
      reads this
    {
      Pool(proxied, maxRestarts, lifespan, state, workers, workerRestarts, proxyRestarts, sigkills, ownKills)
    }

    constructor (poolName: string, replicas: nat, maxRestarts: nat, lifespan: bool, drawable: bool, proxied: bool, startPort: nat,
                 desiredHealthPcnt: int)
      ensures this.poolName == poolName && this.replicas == replicas && this.maxRestarts == maxRestarts
      ensures this.lifespan == lifespan && this.drawable == drawable && this.proxied == proxied && this.startPort == startPort
      ensures this.desiredHealthPcnt == desiredHealthPcnt
      ensures state == Init && workers == map[] && ports == map[] && endpoints == []
      ensures workerRestarts == proxyRestarts == sigkills == ownKills == 0
    {
      this.poolName, this.replicas, this.maxRestarts := poolName, replicas, maxRestarts;
      this.lifespan, this.drawable := lifespan, drawable;
      this.proxied, this.startPort, this.desiredHealthPcnt := proxied, startPort, desiredHealthPcnt;
      state, workers, ports, endpoints := Init, map[], map[], [];
      workerRestarts, proxyRestarts, sigkills, ownKills := 0, 0, 0, 0;
    }

    // ----- preparing

    /** The port range handed to the proxy. */
    method PortRange() returns (r: seq<nat>)
      ensures |r| == replicas
      ensures forall i | 0 <= i < replicas :: r[i] == PortOf(startPort, i)
    {
      r := [];
      for i := 0 to replicas
        invariant |r| == i
        invariant forall j | 0 <= j < i :: r[j] == PortOf(startPort, j)
      {
        r := r + [PortOf(startPort, i)];
      }
    }

    /** `prepareProxy`: writing the configuration may fail before the slot is replaced. */
    method PrepareProxy(next: Slot, fails: bool) returns (ok: bool)
      modifies this`workers, this`endpoints
      ensures ok == !fails
      ensures workers == if ok then old(workers)[PROXY_ID := next] else old(workers)
      ensures ok ==> |endpoints| == replicas && forall i | 0 <= i < replicas :: endpoints[i] == PortOf(startPort, i)
      ensures !ok ==> endpoints == old(endpoints)
    {
      var portRange := PortRange();
      if fails {
        return false;
      }
      endpoints := portRange;
      workers := workers[PROXY_ID := next];
      return true;
    }

    /**
     `PrepareWorkers`. On a pool without workers, and whatever its name, there is no collision:
     the slots are exactly the `replicas` distinct names, and the proxy's where there is one.
     In a proxied pool every worker has the port that stands at its place in the endpoints.
     */
    method PrepareWorkers(proxyFails: bool) returns (r: PrepareResult)
      modifies this
      ensures r.Collision? <==> exists i :: 0 <= i < Reached() && WorkerName(poolName, i) in old(workers)
      ensures r.Panicked? <==> !r.Collision? && lifespan && !drawable && replicas > 0
      ensures old(workers) == map[] ==> (r.ProxyNotPrepared? <==> !r.Panicked? && proxied && proxyFails)
      ensures r.Prepared? && old(workers) == map[] ==>
                && workers.Keys == Names(poolName, replicas) + (if proxied then {PROXY_ID} else {})
                && |workers| == replicas + (if proxied then 1 else 0)
                && (forall id | id in workers :: workers[id] == NewSlot(id != PROXY_ID))
      ensures r.Prepared? && proxied ==>
                && |endpoints| == replicas
                && (forall i | 0 <= i < replicas ::
                      WorkerName(poolName, i) in ports && ports[WorkerName(poolName, i)] == endpoints[i] == PortOf(startPort, i))
      ensures state == PoolState.Prepared
      ensures workerRestarts == old(workerRestarts) && proxyRestarts == old(proxyRestarts) && sigkills == old(sigkills) && ownKills == old(ownKills)
    {
      hide WorkerName;
      hide PortOf;
      hide NewSlot;
      hide Names;
      state := PoolState.Prepared;
      r := PrepareReplicas();
      if r != PrepareResult.Prepared {
        return r;
      }
      NamesNext(poolName, replicas);
      if old(workers) == map[] {
        AllSlots(workers);
      }
      if proxied {
        var ok := PrepareProxy(NewSlot(false), proxyFails);
        if !ok {
          return ProxyNotPrepared;
        }
      }
      return PrepareResult.Prepared;
    }

    /** The loop of `PrepareWorkers` over the replicas. */
    method PrepareReplicas() returns (r: PrepareResult)
      modifies this`workers, this`ports
      ensures !r.ProxyNotPrepared?
      ensures !r.Collision? <==> forall i | 0 <= i < Reached() :: WorkerName(poolName, i) !in old(workers)
      ensures r.Panicked? <==> !r.Collision? && lifespan && !drawable && replicas > 0
      ensures r.Prepared? ==> workers.Keys == old(workers.Keys) + Names(poolName, replicas)
      ensures r.Prepared? && old(workers) == map[] ==> |workers| == replicas && forall id | id in workers :: workers[id] == NewSlot(true)
      ensures r.Prepared? && proxied ==> PortsUpTo(replicas)
    {
      hide WorkerName;
      hide PortOf;
      hide NewSlot;
      hide Names;
      NamesNone();
      assert PortsUpTo(0);
      var untouched := workers == map[];
      hide PortsUpTo;
      for i := 0 to replicas
        invariant forall j | 0 <= j < i :: WorkerName(poolName, j) !in old(workers)
        invariant workers.Keys == old(workers.Keys) + Names(poolName, i)
        invariant untouched ==> |workers| == i && forall id | id in workers :: workers[id] == NewSlot(true)
        invariant proxied ==> PortsUpTo(i)
        invariant lifespan && !drawable ==> i == 0
      {
        NamesNext(poolName, i);
        r := PrepareReplica(i);
        if r != PrepareResult.Prepared {
          return r;
        }
      }
      return PrepareResult.Prepared;
    }

    /** One turn of that loop. */
    method PrepareReplica(i: nat) returns (r: PrepareResult)
      requires i < replicas && (proxied ==> PortsUpTo(i))
      modifies this`workers, this`ports
      ensures r == if WorkerName(poolName, i) in old(workers) then Collision
                   else if lifespan && !drawable then Panicked else PrepareResult.Prepared
      ensures workers == if r.Prepared? then old(workers)[WorkerName(poolName, i) := NewSlot(true)] else old(workers)
      ensures r.Prepared? && proxied ==> PortsUpTo(i + 1)
    {
      hide WorkerName;
      hide NewSlot;
      hide PortsUpTo;
      var workerName := WorkerName(poolName, i);
      if workerName in workers {
        return Collision;
      }
      if proxied {
        StorePort(i);
      }
      if lifespan && !drawable {
        return Panicked;
      }
      workers := workers[workerName := NewSlot(true)];
      return PrepareResult.Prepared;
    }

    /** How many replicas are looked at: building the first limiter may be the end. */
    function Reached(): nat {
      if lifespan && !drawable && replicas > 0 then 1 else replicas
    }

    method StorePort(i: nat)
      requires PortsUpTo(i)
      modifies this`ports
      ensures PortsUpTo(i + 1)
    {
      hide WorkerName;
      hide PortOf;
      OthersKeepPorts(i);
      ports := ports[WorkerName(poolName, i) := PortOf(startPort, i)];
    }

    ghost predicate PortsUpTo(n: nat)
      reads this`ports
    {
      forall j | 0 <= j < n :: WorkerName(poolName, j) in ports && ports[WorkerName(poolName, j)] == PortOf(startPort, j)
    }

    /** The slots of the replicas, and what adding the proxy's makes of them. */
    lemma AllSlots(ws: map<string, Slot>)
      requires ws.Keys == Names(poolName, replicas) && |ws| == replicas && PROXY_ID !in ws
      requires forall id | id in ws :: ws[id] == NewSlot(true)
      ensures forall id | id in ws :: ws[id] == NewSlot(id != PROXY_ID)
      ensures var all := ws[PROXY_ID := NewSlot(false)];
              && all.Keys == Names(poolName, replicas) + {PROXY_ID} && |all| == replicas + 1
              && forall id | id in all :: all[id] == NewSlot(id != PROXY_ID)
    {
      hide NewSlot;
      hide Names;
    }

    lemma NamesNone()
      ensures Names(poolName, 0) == {}
    {
    }

    lemma OthersKeepPorts(i: nat)
      ensures forall j | 0 <= j < i :: WorkerName(poolName, j) != WorkerName(poolName, i)
    {
      forall j | 0 <= j < i ensures WorkerName(poolName, j) != WorkerName(poolName, i) {
        if WorkerName(poolName, j) == WorkerName(poolName, i) {
          WorkerNamesDistinct(poolName, j, i);
        }
      }
    }

    // ----- running

    /** `RunAll`: every instance is run, in some order, and counted as running. */
    method RunAll(gauges: Metrics.StateGauges)
      modifies this`workers, gauges
      ensures View() == PoolOps.RunAll(old(View()))
      ensures gauges.Running(poolName) == old(gauges.Running(poolName)) + |old(workers)|
      ensures forall p | p != poolName :: gauges.Running(p) == old(gauges.Running(p))
      ensures forall p :: gauges.Terminated(p) == old(gauges.Terminated(p))
    {
      hide Run;
      hide Metrics.StateGauges.Running;
      hide Metrics.StateGauges.Terminated;
      var todo := workers.Keys;
      while todo != {}
        invariant todo <= workers.Keys == old(workers.Keys)
        invariant forall id | id in workers :: workers[id] ==
                    if id in todo then old(workers)[id] else Run(old(workers)[id], lifespan && id != PROXY_ID)
        invariant gauges.Running(poolName) == old(gauges.Running(poolName)) + |old(workers).Keys| - |todo|
        invariant forall p | p != poolName :: gauges.Running(p) == old(gauges.Running(p))
        invariant forall p :: gauges.Terminated(p) == old(gauges.Terminated(p))
      {
        var id :| id in todo;
        workers := workers[id := Run(workers[id], lifespan && id != PROXY_ID)];
        gauges.AddRunningStats(poolName, 1);
        todo := todo - {id};
      }
      assert workers == PoolOps.RunAll(old(View())).slots;
    }

    /** `RestartWorker` */
    method RestartWorker(id: string, proxyFails: bool) returns (r: Restart)
      requires id in workers
      modifies this`workers, this`endpoints, this`workerRestarts, this`proxyRestarts
      ensures (View(), r) == PoolOps.RestartWorker(old(View()), id, proxyFails)
      ensures endpoints == old(endpoints) || (|endpoints| == replicas && forall i | 0 <= i < replicas :: endpoints[i] == PortOf(startPort, i))
    {
      if state.Draining? || state.Stopped? {
        return Restarted;
      }
      var restarts := workers[id].cur.restarts + 1;
      if id == PROXY_ID {
        var ok := PrepareProxy(workers[id].(past := workers[id].past + [workers[id].cur], cur := NewProc(0, true)), proxyFails);
        if !ok {
          return ProxyFailed;
        }
        proxyRestarts := proxyRestarts + 1;
      } else {
        if restarts > maxRestarts {
          return TooManyRestarts;
        }
        workers := workers[id := workers[id].(past := workers[id].past + [workers[id].cur], cur := NewProc(restarts, true))];
        workerRestarts := workerRestarts + 1;
      }
      workers := workers[id := Run(workers[id], lifespan && id != PROXY_ID)];
      assert workers == old(workers)[id := workers[id]];
      return Restarted;
    }

    // ----- stopping

    method InterruptWorker(id: string)
      requires id in workers
      modifies this`workers
      ensures View() == PoolOps.InterruptWorker(old(View()), id)
    {
      workers := workers[id := Terminate(workers[id])];
    }

    method ForceTerminateWorker(id: string)
      requires id in workers
      modifies this`workers, this`sigkills, this`ownKills
      ensures View() == PoolOps.ForceTerminateWorker(old(View()), id)
    {
      sigkills := sigkills + 1;
      if !HasPid(workers[id].cur) { ownKills := ownKills + 1; }
      workers := workers[id := ForceTerminate(workers[id])];
    }

    /** `InterruptAll`: every worker, and not the proxy, in some order. */
    method InterruptAll()
      modifies this`state, this`workers
      ensures View() == PoolOps.InterruptAll(old(View()))
    {
      state := Draining;
      var todo := workers.Keys;
      while todo != {}
        invariant state == Draining && todo <= workers.Keys == old(workers.Keys)
        invariant forall id | id in workers :: workers[id] ==
                    if id in todo || id == PROXY_ID then old(workers)[id] else Terminate(old(workers)[id])
      {
        var id :| id in todo;
        if id != PROXY_ID {
          workers := workers[id := Terminate(workers[id])];
        }
        todo := todo - {id};
      }
      assert workers == PoolOps.InterruptAll(old(View())).slots;
    }

    /** A received event is taken off the channel of the slot, or the world moves it. */
    method SetSlot(id: string, s: Slot)
      requires id in workers
      modifies this`workers
      ensures View() == WithSlot(old(View()), id, s)
    {
      workers := workers[id := s];
    }

    // ----- reading

    /** `RunningCount`: the slots whose process has a PID and has not ended. */
    method CountRunning() returns (t: nat)
      ensures t == |RunningIds(workers)| == PoolOps.RunningCount(View())
      ensures forall id | id in workers :: id in RunningIds(workers) <==> workers[id].cur.phase.Live?
    {
      t := 0;
      var todo := workers;
      while todo != map[]
        invariant forall id | id in todo :: id in workers && todo[id] == workers[id]
        invariant t + Sum(todo, RunningBit) == Sum(workers, RunningBit)
        decreases |todo.Keys|
      {
        var id :| id in todo;
        Split(todo, RunningBit, id);
        if Status(todo[id].cur) == Running {
          t := t + 1;
        }
        assert (todo - {id}).Keys == todo.Keys - {id};
        todo := todo - {id};
      }
      CountsAreSets(View());
    }

    /** The computed percentage reaches the desired one. */
    ghost predicate Healthy()
      reads this
      requires workers != map[]
    {
      RunningRange();
      Health.Percentage(|RunningIds(workers)|, |workers|) >= desiredHealthPcnt
    }

    /**
     `IsHealthy`: true when the quotient of the running and all processes reaches the cut of the
     threshold. For pools of a size that exists this means above the threshold, or exactly at
     it unless it is 53 or 59 percent.
     */
    method IsHealthy() returns (healthy: bool)
      requires workers != map[]
      ensures healthy == Healthy()
      ensures healthy <==> Health.Meets(|RunningIds(workers)|, |workers|, desiredHealthPcnt)
      ensures |RunningIds(workers)| <= Health.SAFE_WORKERS ==>
                (healthy <==> Health.Passes(|RunningIds(workers)|, |workers|, desiredHealthPcnt))
      ensures RunningIds(workers) == {} ==> (healthy <==> desiredHealthPcnt <= 0)
    {
      hide Health.Meets;
      hide Health.Percentage;
      var running := CountRunning();
      RunningRange();
      healthy := Health.Percentage(running, |workers|) >= desiredHealthPcnt;
      Health.PercentageReaches(running, |workers|, desiredHealthPcnt);
      if running <= Health.SAFE_WORKERS {
        Health.Threshold(running, |workers|, desiredHealthPcnt);
      }
    }

    lemma RunningRange()
      ensures 0 <= PoolOps.RunningCount(View()) == |RunningIds(workers)| <= |workers|
    {
      CountsAreSets(View());
      Zeros(workers, (s: Slot) => 0);
      Ones(workers, (s: Slot) => 1);
      Bound(workers, (s: Slot) => 0, RunningBit);
      Bound(workers, RunningBit, (s: Slot) => 1);
    }
  }
}
