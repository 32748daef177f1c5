/**
 The supervisor as the object it is: its handlers act on worker pools and gauges in place,
 and `Run` is the two event loops. A schedule decides what is received next and what the
 world does in between; `Run` is proved to do what the transition system does on it.
 */
module SupervisorLoop {
  import opened Sums
  import opened Worker
  import opened Pool
  import PoolOps = Pool
  import opened Supervisor
  import opened Invariant
  import opened WorkerPools
  import Metrics

  datatype WorkerPoolInfo = WorkerPoolInfo(pool: WorkerPool, runningProcesses: int, totalProcesses: int)

  /** `Pending` is a `Run` whose schedule has ended before it returned. */
  datatype RunResult = Done | CleanupError | Pending

  class SupervisorObject {
    var terminating: bool
    var ctxDone: bool
    var pools: map<string, WorkerPoolInfo>
    var terminatedProcesses: int
    const totalProcesses: int
    const gauges: Metrics.StateGauges
    ghost var stage: Stage
    ghost var proxyStops: map<string, seq<int>>

    ghost function Objects(): set<object>
      reads this
    {
      set p | p in pools :: pools[p].pool as object
    }

    /** Each pool is kept under its own name, so no two entries share a pool. */
    ghost predicate Valid()
      reads this, Objects()
    {
      && proxyStops.Keys == pools.Keys
      && (forall p | p in pools :: pools[p].pool.poolName == p)
      && (terminating <==> Interrupted(stage))
    }

    ghost function InfoOf(p: string): Info
      requires Valid() && p in pools
      reads this, Objects(), gauges
    {
      Info(pools[p].pool.View(), pools[p].totalProcesses, pools[p].runningProcesses,
           gauges.Running(p), gauges.Terminated(p), proxyStops[p])
    }

    ghost function View(): State
      requires Valid()
      reads this, Objects(), gauges
    {
      State(stage, ctxDone, terminatedProcesses, totalProcesses, map p | p in pools :: InfoOf(p))
    }

    /** A supervisor whose pools have been prepared; no metric has been touched yet. */
    constructor (pools: map<string, WorkerPoolInfo>, totalProcesses: int)
      requires forall p | p in pools :: pools[p].pool.poolName == p
      ensures Valid() && fresh(gauges)
      ensures stage == Ready && !ctxDone && terminatedProcesses == 0
      ensures this.pools == pools && this.totalProcesses == totalProcesses
      ensures forall p :: gauges.Running(p) == 0 && gauges.Terminated(p) == 0
      ensures forall p | p in pools :: proxyStops[p] == []
    {
      this.pools, this.totalProcesses := pools, totalProcesses;
      terminating, ctxDone, terminatedProcesses, stage := false, false, 0, Ready;
      proxyStops := map p | p in pools :: [];
      gauges := new Metrics.StateGauges();
    }

    /** `m` is what is kept about the pools. */
    ghost predicate Holds(m: map<string, Info>)
      requires Valid()
      reads this, Objects(), gauges
    {
      m.Keys == pools.Keys && forall p | p in pools :: InfoOf(p) == m[p]
    }

    /** The view, and the fields it is made of. */
    lemma ViewHolds()
      requires Valid()
      ensures Holds(View().pools)
      ensures View() == State(stage, ctxDone, terminatedProcesses, totalProcesses, View().pools)
    {
      hide InfoOf;
    }

    lemma ViewIs(m: map<string, Info>)
      requires Valid() && Holds(m)
      ensures View() == State(stage, ctxDone, terminatedProcesses, totalProcesses, m)
    {
      hide InfoOf;
      assert View().pools == m;
    }

    lemma PoolHeld(m: map<string, Info>, p: string)
      requires Valid() && Holds(m) && p in pools
      ensures m.Keys == pools.Keys && m[p].pool == pools[p].pool.View() && m[p].pool.slots == pools[p].pool.workers
    {
    }

    lemma InfoHeld(m: map<string, Info>, p: string)
      requires Valid() && Holds(m) && p in pools
      ensures m.Keys == pools.Keys && m[p].running == pools[p].runningProcesses && m[p].total == pools[p].totalProcesses
      ensures m[p].pool.proxied == pools[p].pool.proxied
    {
    }

    /** Which slots there are, as the view shows them. */
    lemma SlotSeen(p: string, id: string)
      requires Valid()
      ensures HasSlot(View(), p, id) <==> p in pools && id in pools[p].pool.workers
      ensures HasSlot(View(), p, id) ==> SlotOf(View(), p, id) == pools[p].pool.workers[id]
    {
    }

    /** What is kept about the pools does not depend on the point `Run` has reached. */
    method SetStage(stop: bool, ghost next: Stage, ghost m: map<string, Info>)
      requires Valid() && Holds(m) && (stop <==> Interrupted(next))
      modifies this`terminating, this`stage
      ensures Valid() && Holds(m) && Objects() == old(Objects()) && terminating == stop && stage == next
    {
      terminating, stage := stop, next;
    }

    // ----- handlers. `m` stands for what is kept about the pools when the handler is called

    method CountEnd(p: string, ghost m: map<string, Info>)
      requires Valid() && Holds(m) && p in pools && p in m
      modifies gauges
      ensures Valid() && Holds(m[p := EndCountedAs(m[p])])
    {
      hide Metrics.StateGauges.Running;
      hide Metrics.StateGauges.Terminated;
      gauges.DecrementRunningIncrementTerminated(p);
    }

    method TryRestart(p: string, id: string, proxyFails: bool, ghost m: map<string, Info>) returns (r: Restart)
      requires Valid() && Holds(m) && p in pools && p in m && id in m[p].pool.slots
      modifies pools[p].pool
      ensures Valid() && Holds(m[p := m[p].(pool := RestartWorker(m[p].pool, id, proxyFails).0)])
      ensures r == RestartWorker(m[p].pool, id, proxyFails).1
    {
      hide RestartWorker;
      r := pools[p].pool.RestartWorker(id, proxyFails);
    }

    /** `handleProcessEnd` */
    method OnProcessEnd(p: string, id: string, proxyFails: bool, ghost m: map<string, Info>) returns (r: EndResult)
      requires Valid() && Holds(m) && p in pools && p in m && id in m[p].pool.slots
      modifies pools[p].pool, gauges
      ensures Valid() && Holds(m[p := HandleProcessEnd(m[p], id, terminating, proxyFails).0])
      ensures r == HandleProcessEnd(m[p], id, terminating, proxyFails).1
    {
      hide *;
      PoolHeld(m, p);
      EndParts(m[p], id, terminating, proxyFails);
      if Status(pools[p].pool.workers[id].cur) != Terminated {
        assert m[p := m[p]] == m;
        return Panic;
      }
      CountEnd(p, m);
      ghost var n := m[p := EndCountedAs(m[p])];
      if terminating {
        return AlreadyTerminating;
      }
      var restart := TryRestart(p, id, proxyFails, n);
      ghost var j := n[p].(pool := RestartWorker(n[p].pool, id, proxyFails).0);
      assert n[p := j] == m[p := j];
      r := match restart case Restarted => Nil case TooManyRestarts => TooMany case ProxyFailed => NoProxy;
    }

    method StopProxy(p: string, running: int, ghost m: map<string, Info>)
      requires Valid() && Holds(m) && p in pools && p in m && PROXY_ID in m[p].pool.slots
      modifies this`proxyStops, pools[p].pool
      ensures Valid() && Objects() == old(Objects()) && Holds(m[p := ProxyStopped(m[p], running)])
    {
      hide Terminate;
      hide Metrics.StateGauges.Running;
      hide Metrics.StateGauges.Terminated;
      pools[p].pool.InterruptWorker(PROXY_ID);
      proxyStops := proxyStops[p := proxyStops[p] + [running]];
    }

    method StoreRunning(p: string, running: int, ghost m: map<string, Info>)
      requires Valid() && Holds(m) && p in pools && p in m
      modifies this`pools
      ensures Valid() && Objects() == old(Objects()) && Holds(m[p := m[p].(running := running)])
    {
      hide Metrics.StateGauges.Running;
      hide Metrics.StateGauges.Terminated;
      pools := pools[p := pools[p].(runningProcesses := running)];
      hide Objects;
      SameObjects();
    }

    /** `handleProcessTerminationDuringShutdown` */
    method OnTermination(p: string, ghost m: map<string, Info>)
      requires Valid() && Holds(m) && p in pools && p in m && (m[p].pool.proxied ==> PROXY_ID in m[p].pool.slots)
      modifies this`pools, this`proxyStops, pools[p].pool
      ensures Valid() && Objects() == old(Objects()) && Holds(m[p := CountDeath(m[p])])
    {
      hide *;
      InfoHeld(m, p);
      DeathParts(m[p]);
      var pInfo := pools[p];
      pInfo := pInfo.(runningProcesses := pInfo.runningProcesses - 1);
      ghost var n := m;
      if pInfo.pool.proxied && pInfo.runningProcesses == pInfo.totalProcesses - 1 {
        StopProxy(p, pInfo.runningProcesses, m);
        n := m[p := ProxyStopped(m[p], pInfo.runningProcesses)];
      }
      StoreRunning(p, pInfo.runningProcesses, n);
      ghost var j := n[p].(running := pInfo.runningProcesses);
      assert n[p := j] == m[p := j];
    }

    twostate lemma SameObjects()
      requires pools.Keys == old(pools.Keys)
      requires forall q | q in pools :: pools[q].pool == old(pools)[q].pool
      ensures Objects() == old(Objects())
    {
      assert forall q | q in pools :: q in old(pools);
    }

    /** A restart is counted. */
    method OnRestarted(p: string, ghost m: map<string, Info>)
      requires Valid() && Holds(m) && p in pools && p in m
      modifies gauges
      ensures Valid() && Holds(m[p := CountRestart(m[p])])
    {
      hide Metrics.StateGauges.Running;
      hide Metrics.StateGauges.Terminated;
      gauges.IncrementRunningDecrementTerminated(p);
    }

    /** A slot loses an event to the channel, or the world moves it. */
    method MoveSlot(p: string, id: string, s: Slot, ghost m: map<string, Info>)
      requires Valid() && Holds(m) && p in pools && p in m && id in m[p].pool.slots
      modifies pools[p].pool
      ensures Valid() && Holds(m[p := OnSlot(m[p], id, s)])
    {
      pools[p].pool.SetSlot(id, s);
    }

    method Interrupt(p: string, id: string, ghost m: map<string, Info>)
      requires Valid() && Holds(m) && p in pools && p in m && id in m[p].pool.slots
      modifies pools[p].pool
      ensures Valid() && Holds(m[p := OnSlot(m[p], id, Terminate(m[p].pool.slots[id]))])
    {
      hide Terminate;
      pools[p].pool.InterruptWorker(id);
    }

    method Kill(p: string, id: string, ghost m: map<string, Info>)
      requires Valid() && Holds(m) && p in pools && p in m && id in m[p].pool.slots
      modifies pools[p].pool
      ensures Valid() && Holds(m[p := m[p].(pool := PoolOps.ForceTerminateWorker(m[p].pool, id))])
    {
      hide ForceTerminate;
      pools[p].pool.ForceTerminateWorker(id);
    }

    /** The process of a slot, or one of its timers, limiters and streams, moves. */
    method OnWorld(p: string, id: string, k: nat, ev: ProcEvent)
      requires Valid() && !stage.Ready?
      modifies Objects()
      ensures Valid() && View() == Step(old(View()), World(p, id, k, ev))
    {
      hide *;
      ViewHolds();
      SlotSeen(p, id);
      ghost var s := View();
      WorldStep(s, p, id, k, ev);
      if p in pools && id in pools[p].pool.workers && k <= |pools[p].pool.workers[id].past| {
        var slot := pools[p].pool.workers[id];
        if CanHappen(ProcAt(slot, k), ev) {
          PoolHeld(s.pools, p);
          InObjects(p);
          MoveSlot(p, id, Happen(slot, k, ev), s.pools);
          ViewIs(s.pools[p := OnSlot(s.pools[p], id, Happen(slot, k, ev))]);
        }
      }
    }

    lemma InObjects(p: string)
      requires p in pools
      ensures pools[p].pool in Objects()
    {
    }

    /** `handleProcessExceededLimit` in the first loop; the second ignores the event. */
    method OnExceededLimit(p: string, id: string)
      requires Valid() && (stage.Serving? || stage.Stopping?)
      modifies Objects()
      ensures Valid() && View() == Step(old(View()), RecvExceeded(p, id))
    {
      hide *;
      ViewHolds();
      SlotSeen(p, id);
      StageFlag();
      ghost var s := View();
      ExceededStep(s, p, id);
      if p in pools && id in pools[p].pool.workers && pools[p].pool.workers[id].exceeded > 0 {
        PoolHeld(s.pools, p);
        InObjects(p);
        var taken := TakeExceeded(pools[p].pool.workers[id]);
        MoveSlot(p, id, taken, s.pools);
        ghost var n := s.pools[p := OnSlot(s.pools[p], id, taken)];
        OnSlotHas(s.pools[p], id, taken);
        TwiceOnSlot(s.pools, p, id, taken, Terminate(taken));
        if !terminating {
          Interrupt(p, id, n);
          n := n[p := OnSlot(n[p], id, Terminate(taken))];
        }
        ViewIs(n);
      }
    }

    lemma StageFlag()
      requires Valid() && (stage.Serving? || stage.Stopping?)
      ensures terminating <==> stage.Stopping?
    {
    }

    /** `handleProcessNeedsInterrupt` */
    method OnNeedsInterrupt(p: string, id: string)
      requires Valid() && (stage.Serving? || stage.Stopping?)
      modifies Objects()
      ensures Valid() && View() == Step(old(View()), RecvNeedsInterrupt(p, id))
    {
      hide *;
      ViewHolds();
      SlotSeen(p, id);
      ghost var s := View();
      NeedsInterruptStep(s, p, id);
      if p in pools && id in pools[p].pool.workers && pools[p].pool.workers[id].needsInterrupt > 0 {
        PoolHeld(s.pools, p);
        InObjects(p);
        var taken := TakeInterrupt(pools[p].pool.workers[id]);
        MoveSlot(p, id, taken, s.pools);
        ghost var n := s.pools[p := OnSlot(s.pools[p], id, taken)];
        OnSlotHas(s.pools[p], id, taken);
        TwiceOnSlot(s.pools, p, id, taken, Terminate(taken));
        Interrupt(p, id, n);
        ViewIs(n[p := OnSlot(n[p], id, Terminate(taken))]);
      }
    }

    /** `handleProcessNeedsTermination` */
    method OnNeedsTermination(p: string, id: string)
      requires Valid() && (stage.Serving? || stage.Stopping?)
      modifies Objects()
      ensures Valid() && View() == Step(old(View()), RecvNeedsTermination(p, id))
    {
      hide *;
      ViewHolds();
      SlotSeen(p, id);
      ghost var s := View();
      NeedsTerminationStep(s, p, id);
      if p in pools && id in pools[p].pool.workers && pools[p].pool.workers[id].needsTermination > 0 {
        PoolHeld(s.pools, p);
        InObjects(p);
        var taken := TakeTermination(pools[p].pool.workers[id]);
        MoveSlot(p, id, taken, s.pools);
        ghost var i := OnSlot(s.pools[p], id, taken);
        ghost var n := s.pools[p := i];
        OnSlotHas(s.pools[p], id, taken);
        Kill(p, id, n);
        ghost var j := i.(pool := PoolOps.ForceTerminateWorker(i.pool, id));
        assert n[p := j] == s.pools[p := j];
        ViewIs(s.pools[p := j]);
      }
    }

    /** Whether a ProcessEnd of incarnation `k` can be received and its logs have been drained. */
    predicate EndReady(p: string, id: string, k: nat)
      requires p in pools
      reads this, pools[p].pool
    {
      var pool := pools[p].pool;
      && id in pool.workers && EndPending(pool.workers[id], k) && WaitReturns(Reap(pool.workers[id], k))
      && (pool.proxied ==> PROXY_ID in pool.workers)
    }

    lemma ReadyIsEnabled(p: string, id: string, k: nat, proxyFails: bool)
      requires Valid() && (stage.Serving? || stage.Stopping?) && p in pools && EndReady(p, id, k)
      ensures Enabled(View(), RecvEnd(p, id, k, proxyFails))
      ensures id in pools[p].pool.workers && SlotOf(View(), p, id) == pools[p].pool.workers[id]
    {
    }

    /** A ProcessEnd is received and handled. */
    method ReceiveEnd(p: string, id: string, k: nat, proxyFails: bool, ghost m: map<string, Info>) returns (r: EndResult)
      requires Valid() && Holds(m) && p in pools && p in m && id in m[p].pool.slots && EndPending(m[p].pool.slots[id], k)
      modifies pools[p].pool, gauges
      ensures Valid()
      ensures var h := HandleProcessEnd(OnSlot(m[p], id, Reap(m[p].pool.slots[id], k)), id, terminating, proxyFails);
              Holds(m[p := h.0]) && r == h.1
    {
      hide HandleProcessEnd;
      hide Reap;
      hide InfoOf;
      hide Holds;
      PoolHeld(m, p);
      var reaped := Reap(pools[p].pool.workers[id], k);
      MoveSlot(p, id, reaped, m);
      ghost var n := m[p := OnSlot(m[p], id, reaped)];
      r := OnProcessEnd(p, id, proxyFails, n);
      ghost var j := HandleProcessEnd(n[p], id, terminating, proxyFails).0;
      assert n[p := j] == m[p := j];
    }

    /** A death is counted; one for too many restarts cancels the context. */
    method OnDeath(p: string, tooMany: bool, ghost m: map<string, Info>)
      requires Valid() && Holds(m) && p in pools && p in m && (m[p].pool.proxied ==> PROXY_ID in m[p].pool.slots)
      modifies this`ctxDone, this`terminatedProcesses, this`pools, this`proxyStops, pools[p].pool
      ensures Valid() && Objects() == old(Objects()) && Holds(m[p := CountDeath(m[p])])
      ensures ctxDone == (old(ctxDone) || tooMany) && terminatedProcesses == old(terminatedProcesses) + 1
    {
      hide *;
      Bump(tooMany, m);
      OnTermination(p, m);
    }

    method Bump(tooMany: bool, ghost m: map<string, Info>)
      requires Valid() && Holds(m)
      modifies this`ctxDone, this`terminatedProcesses
      ensures Valid() && Holds(m) && Objects() == old(Objects())
      ensures ctxDone == (old(ctxDone) || tooMany) && terminatedProcesses == old(terminatedProcesses) + 1
    {
      if tooMany {
        ctxDone := true;
      }
      terminatedProcesses := terminatedProcesses + 1;
    }

    /** The two outcomes of `handleProcessEnd` in the first loop. */
    method AfterEnd(p: string, r: EndResult, ghost m: map<string, Info>)
      requires Valid() && Holds(m) && p in pools && p in m && (m[p].pool.proxied ==> PROXY_ID in m[p].pool.slots)
      modifies this`ctxDone, this`terminatedProcesses, this`pools, this`proxyStops, pools[p].pool, gauges
      ensures Valid() && Objects() == old(Objects())
      ensures Holds(m[p := if r.Nil? then CountRestart(m[p]) else CountDeath(m[p])])
      ensures ctxDone == (old(ctxDone) || r.TooMany?)
      ensures terminatedProcesses == old(terminatedProcesses) + if r.Nil? then 0 else 1
    {
      hide CountDeath;
      hide CountRestart;
      hide InfoOf;
      hide Holds;
      if r == Nil {
        OnRestarted(p, m);
      } else {
        OnDeath(p, r == TooMany, m);
      }
    }

    /** A ProcessEnd in the first loop. */
    method ServeEnd(p: string, id: string, k: nat, proxyFails: bool)
      requires Valid() && stage.Serving? && p in pools && EndReady(p, id, k) && Inv(View())
      modifies this`ctxDone, this`terminatedProcesses, this`pools, this`proxyStops, pools[p].pool, gauges
      ensures Valid() && Objects() == old(Objects()) && stage == old(stage)
      ensures View() == Step(old(View()), RecvEnd(p, id, k, proxyFails))
    {
      hide *;
      ReadyIsEnabled(p, id, k, proxyFails);
      ViewHolds();
      ghost var s := View();
      StageFlag();
      PoolHeld(s.pools, p);
      EnabledEnd(s, p, id, k, proxyFails);
      OnSlotHas(s.pools[p], id, Reap(s.pools[p].pool.slots[id], k));
      NoPanic(s, p, id, k, proxyFails);
      var r := ReceiveEnd(p, id, k, proxyFails, s.pools);
      ghost var j := HandleProcessEnd(OnSlot(s.pools[p], id, Reap(s.pools[p].pool.slots[id], k)), id, false, proxyFails).0;
      AfterEnd(p, r, s.pools[p := j]);
      ghost var i := if r.Nil? then CountRestart(j) else CountDeath(j);
      assert s.pools[p := j][p := i] == s.pools[p := i];
      ViewIs(s.pools[p := i]);
      EndIsStep(s, View(), p, id, k, proxyFails);
    }

    /** A ProcessEnd in the second loop, up to the test of that loop. */
    method StopEnd(p: string, id: string, k: nat, proxyFails: bool)
      requires Valid() && stage.Stopping? && p in pools && EndReady(p, id, k) && Inv(View())
      modifies this`ctxDone, this`terminatedProcesses, this`pools, this`proxyStops, pools[p].pool, gauges
      ensures Valid() && Objects() == old(Objects()) && stage == old(stage)
      ensures LoopTest(View()) == Step(old(View()), RecvEnd(p, id, k, proxyFails))
    {
      hide *;
      ReadyIsEnabled(p, id, k, proxyFails);
      ViewHolds();
      ghost var s := View();
      StageFlag();
      PoolHeld(s.pools, p);
      EnabledEnd(s, p, id, k, proxyFails);
      OnSlotHas(s.pools[p], id, Reap(s.pools[p].pool.slots[id], k));
      NoPanic(s, p, id, k, proxyFails);
      var r := ReceiveEnd(p, id, k, proxyFails, s.pools);
      ghost var j := HandleProcessEnd(OnSlot(s.pools[p], id, Reap(s.pools[p].pool.slots[id], k)), id, true, proxyFails).0;
      if r != Nil {
        OnDeath(p, false, s.pools[p := j]);
      }
      ghost var i := CountDeath(j);
      assert s.pools[p := j][p := i] == s.pools[p := i];
      ViewIs(s.pools[p := i]);
      EndIsStep(s, View(), p, id, k, proxyFails);
    }

    // ----- the loops

    /** One turn of the first loop, or of the world while it waits. */
    method Serve(a: Action)
      requires Valid() && stage.Serving? && Inv(View()) && !a.SelectDone?
      modifies this`ctxDone, this`terminatedProcesses, this`pools, this`proxyStops, Objects(), gauges
      ensures Valid() && Objects() == old(Objects()) && stage == old(stage)
      ensures View() == Step(old(View()), a)
    {
      hide Inv;
      match a
      case World(p, id, k, ev) => OnWorld(p, id, k, ev);
      case RecvEnd(p, id, k, proxyFails) =>
        if p in pools && EndReady(p, id, k) {
          ServeEnd(p, id, k, proxyFails);
        }
      case RecvExceeded(p, id) => OnExceededLimit(p, id);
      case RecvNeedsInterrupt(p, id) => OnNeedsInterrupt(p, id);
      case RecvNeedsTermination(p, id) => OnNeedsTermination(p, id);
      case CancelContext => ctxDone := true;
      case _ =>
    }

    /** One turn of the second loop, up to its test, or of the world while it waits. */
    method Drain(a: Action)
      requires Valid() && stage.Stopping? && Inv(View())
      modifies this`ctxDone, this`terminatedProcesses, this`pools, this`proxyStops, Objects(), gauges
      ensures Valid() && Objects() == old(Objects()) && stage == old(stage)
      ensures LoopTest(View()) == Step(old(View()), a)
    {
      hide InfoInv;
      match a
      case World(p, id, k, ev) => OnWorld(p, id, k, ev);
      case RecvEnd(p, id, k, proxyFails) =>
        if p in pools && EndReady(p, id, k) {
          StopEnd(p, id, k, proxyFails);
        }
      case RecvExceeded(p, id) => OnExceededLimit(p, id);
      case RecvNeedsInterrupt(p, id) => OnNeedsInterrupt(p, id);
      case RecvNeedsTermination(p, id) => OnNeedsTermination(p, id);
      case CancelContext => ctxDone := true;
      case _ =>
    }

    method StartPool(p: string, ghost m: map<string, Info>)
      requires Valid() && p in pools && Holds(m)
      modifies pools[p].pool, gauges
      ensures Valid() && Holds(m[p := RunPool(m[p])])
    {
      hide PoolOps.RunAll;
      hide Metrics.StateGauges.Running;
      hide Metrics.StateGauges.Terminated;
      pools[p].pool.RunAll(gauges);
    }

    method StopPool(p: string, ghost m: map<string, Info>)
      requires Valid() && p in pools && Holds(m)
      modifies pools[p].pool
      ensures Valid() && Holds(m[p := DrainPool(m[p])])
    {
      hide PoolOps.InterruptAll;
      pools[p].pool.InterruptAll();
    }

    /** Start all workers in all pools. */
    method StartAll()
      requires Valid() && stage.Ready?
      modifies this`terminating, this`stage, Objects(), gauges
      ensures Valid() && Objects() == old(Objects()) && stage.Serving?
      ensures View() == Apply(old(View()), Launch)
    {
      hide *;
      ViewHolds();
      ghost var m := View().pools;
      ghost var n := map p | p in m :: RunPool(m[p]);
      StartPools(m);
      InterruptedStages(false);
      SetStage(false, Serving, n);
      ViewIs(n);
      LaunchIs(old(View()), n);
    }

    method StartPools(ghost m: map<string, Info>)
      requires Valid() && Holds(m)
      modifies Objects(), gauges
      ensures Valid() && unchanged(this) && Holds(map p | p in m :: RunPool(m[p]))
    {
      hide Holds;
      hide Valid;
      hide RunPool;
      var todo := pools.Keys;
      ghost var now := m;
      SameKeysHeld(m);
      while todo != {}
        invariant Valid() && todo <= pools.Keys == m.Keys == now.Keys && Holds(now)
        invariant forall p | p in m :: now[p] == if p in todo then m[p] else RunPool(m[p])
      {
        var p :| p in todo;
        StartPool(p, now);
        now := now[p := RunPool(now[p])];
        todo := todo - {p};
      }
      assert now == map p | p in m :: RunPool(m[p]);
    }

    lemma SameKeysHeld(m: map<string, Info>)
      requires Valid() && Holds(m)
      ensures m.Keys == pools.Keys
    {
    }

    /** Interrupt all workers in all pools. */
    method StopAll()
      requires Valid() && stage.Serving? && ctxDone
      modifies this`terminating, this`stage, Objects()
      ensures Valid() && Objects() == old(Objects()) && stage.Stopping?
      ensures View() == Apply(old(View()), SelectDone).(stage := Stopping)
    {
      hide *;
      ViewHolds();
      ghost var m := View().pools;
      SelectDoneEnabled(View());
      InterruptedStages(false);
      SetStage(true, Stopping, m);
      StopPools(m);
      ViewIs(map p | p in m :: DrainPool(m[p]));
      SelectDoneIs(old(View()), map p | p in m :: DrainPool(m[p]));
    }

    method StopPools(ghost m: map<string, Info>)
      requires Valid() && Holds(m)
      modifies Objects()
      ensures Valid() && unchanged(this) && Holds(map p | p in m :: DrainPool(m[p]))
    {
      hide Holds;
      hide Valid;
      hide DrainPool;
      var todo := pools.Keys;
      ghost var now := m;
      SameKeysHeld(m);
      while todo != {}
        invariant Valid() && todo <= pools.Keys == m.Keys == now.Keys && Holds(now)
        invariant forall p | p in m :: now[p] == if p in todo then m[p] else DrainPool(m[p])
      {
        var p :| p in todo;
        StopPool(p, now);
        now := now[p := DrainPool(now[p])];
        todo := todo - {p};
      }
      assert now == map p | p in m :: DrainPool(m[p]);
    }

    method CountPool(p: string, ghost m: map<string, Info>) returns (t: int)
      requires Valid() && p in pools && Holds(m)
      ensures Holds(m) && t == RunningOf(m[p])
    {
      t := pools[p].pool.CountRunning();
    }

    /** How many processes still run: the sanity check after the second loop. */
    method CountRunning(ghost m: map<string, Info>) returns (sum: int)
      requires Valid() && Holds(m)
      ensures Valid() && Holds(m) && sum == Sum(m, RunningOf)
    {
      hide RunningOf;
      hide InfoOf;
      SameKeysHeld(m);
      sum := 0;
      var todo := pools.Keys;
      ghost var left := m;
      hide Holds;
      while todo != {}
        invariant Holds(m) && left.Keys == todo <= pools.Keys && forall p | p in left :: left[p] == m[p]
        invariant sum + Sum(left, RunningOf) == Sum(m, RunningOf)
      {
        var p :| p in todo;
        var t := CountPool(p, m);
        Split(left, RunningOf, p);
        left := left - {p};
        todo := todo - {p};
        sum := sum + t;
      }
      assert left == map[];
    }

    /** `IsHealthy`: every pool is. */
    method IsHealthy() returns (healthy: bool)
      requires forall p | p in pools :: pools[p].pool.workers != map[]
      ensures healthy <==> forall p | p in pools :: pools[p].pool.Healthy()
    {
      var todo := pools.Keys;
      while todo != {}
        invariant todo <= pools.Keys && forall p | p in pools && p !in todo :: pools[p].pool.Healthy()
      {
        var p :| p in todo;
        var one := pools[p].pool.IsHealthy();
        if !one {
          return false;
        }
        todo := todo - {p};
      }
      return true;
    }

    /** The first loop: it is left when the cancelled context is selected. */
    method ServeLoop(schedule: seq<Action>, ghost s: State) returns (done: bool, used: nat)
      requires Valid() && stage.Serving? && Inv(s) && View() == Exec(s, [Launch])
      modifies this`ctxDone, this`terminatedProcesses, this`pools, this`proxyStops, Objects(), gauges
      ensures Valid() && Objects() == old(Objects()) && stage.Serving? && used <= |schedule|
      ensures !done ==> used == |schedule| && View() == Exec(s, [Launch] + schedule[..used])
      ensures done ==> used > 0 && ctxDone && schedule[used - 1] == SelectDone
                       && View() == Exec(s, [Launch] + schedule[..used - 1])
    {
      hide Inv;
      hide Step;
      done, used := false, 0;
      assert [Launch] + schedule[..used] == [Launch];
      while !done && used < |schedule|
        invariant used <= |schedule| && Valid() && Objects() == old(Objects()) && stage.Serving?
        invariant !done ==> View() == Exec(s, [Launch] + schedule[..used])
        invariant done ==> used > 0 && ctxDone && schedule[used - 1] == SelectDone
                           && View() == Exec(s, [Launch] + schedule[..used - 1])
      {
        var a := schedule[used];
        NextInRun(s, schedule, used);
        InvRun(s, [Launch] + schedule[..used]);
        if a == SelectDone {
          done := ctxDone;
          if !ctxDone { NotDone(View()); }
        } else {
          Serve(a);
        }
        used := used + 1;
      }
    }

    /** One turn of the second loop, as a step of the run. */
    method DrainNext(schedule: seq<Action>, used: nat, ghost s: State)
      requires Valid() && stage.Stopping? && Inv(s) && used < |schedule| && terminatedProcesses != totalProcesses
      requires LoopTest(View()) == Exec(s, [Launch] + schedule[..used])
      modifies this`ctxDone, this`terminatedProcesses, this`pools, this`proxyStops, Objects(), gauges
      ensures Valid() && Objects() == old(Objects()) && stage.Stopping?
      ensures LoopTest(View()) == Exec(s, [Launch] + schedule[..used + 1])
    {
      hide Inv;
      hide Step;
      NextInRun(s, schedule, used);
      InvRun(s, [Launch] + schedule[..used]);
      ViewHolds();
      hide View;
      Drain(schedule[used]);
    }

    /** The sanity check. */
    method Finish(ghost t: State) returns (r: RunResult)
      requires Valid() && stage.Stopping? && terminatedProcesses == totalProcesses
      requires Inv(t) && LoopTest(View()) == t
      modifies this`terminating, this`stage
      ensures Valid() && View() == t && r == Done && t.stage == Returned(false)
    {
      hide *;
      ViewHolds();
      ghost var m := View().pools;
      ReturnedClean(View(), t);
      var sum := CountRunning(m);
      InterruptedStages(sum != 0);
      SetStage(true, Returned(sum != 0), m);
      ViewIs(m);
      r := if sum != 0 then CleanupError else Done;
    }

    /** The second loop, and the sanity check after it. */
    method DrainLoop(schedule: seq<Action>, start: nat, ghost s: State) returns (r: RunResult, used: nat)
      requires Valid() && stage.Stopping? && Inv(s) && start <= |schedule|
      requires LoopTest(View()) == Exec(s, [Launch] + schedule[..start])
      modifies this`terminating, this`stage, this`ctxDone, this`terminatedProcesses, this`pools, this`proxyStops, Objects(), gauges
      ensures Valid() && used <= |schedule| && View() == Exec(s, [Launch] + schedule[..used])
      ensures r == Done <==> View().stage == Returned(false)
      ensures r != CleanupError && (r == Pending ==> used == |schedule|)
    {
      hide Inv;
      hide View;
      hide LoopTest;
      hide Exec;
      used := start;
      while terminatedProcesses != totalProcesses && used < |schedule|
        invariant used <= |schedule| && Valid() && Objects() == old(Objects()) && stage.Stopping?
        invariant LoopTest(View()) == Exec(s, [Launch] + schedule[..used])
        decreases |schedule| - used
      {
        DrainNext(schedule, used, s);
        used := used + 1;
      }
      ViewHolds();
      if terminatedProcesses != totalProcesses {
        StillWaiting(View());
        return Pending, used;
      }
      InvRun(s, [Launch] + schedule[..used]);
      r := Finish(Exec(s, [Launch] + schedule[..used]));
    }

    /** The supervisor starts: the first action of the run. */
    method Begin(ghost s: State)
      requires Valid() && Initial(View()) && s == View()
      modifies this`terminating, this`stage, Objects(), gauges
      ensures Valid() && Objects() == old(Objects()) && stage.Serving?
      ensures View() == Exec(s, [Launch]) && Inv(s)
    {
      hide Inv;
      InitialInv(s);
      ViewHolds();
      StartAll();
      ExecAppend(s, [], Launch);
      assert [Launch] == [] + [Launch];
    }

    /** The first loop is left: the action that selects the cancelled context. */
    method Leave(schedule: seq<Action>, used: nat, ghost s: State) returns (returned: bool)
      requires Valid() && stage.Serving? && ctxDone && 0 < used <= |schedule| && schedule[used - 1] == SelectDone
      requires View() == Exec(s, [Launch] + schedule[..used - 1])
      modifies this`terminating, this`stage, Objects()
      ensures Valid() && Objects() == old(Objects())
      ensures returned ==> View() == Exec(s, [Launch] + schedule[..used]) && View().stage == Returned(false)
      ensures !returned ==> stage.Stopping? && LoopTest(View()) == Exec(s, [Launch] + schedule[..used])
    {
      hide *;
      NextInRun(s, schedule, used - 1);
      ViewHolds();
      ghost var before := View();
      SelectDoneEnabled(before);
      StopAll();
      ViewHolds();
      ghost var m := View().pools;
      returned := terminatedProcesses == totalProcesses;
      LeftLoop(before, View());
      if returned {
        InterruptedStages(false);
        SetStage(true, Returned(false), m);
        ViewIs(m);
      }
    }

    /**
     `Run`, from prepared pools. Whatever the schedule, the supervisor is in the state the
     transition system reaches on the part of it that was used; `Run` never reports that its
     cleanup went wrong, and it has returned exactly when the transition system has.
     */
    method Run(schedule: seq<Action>) returns (r: RunResult, used: nat)
      requires Valid() && Initial(View())
      modifies this, Objects(), gauges
      ensures Valid() && used <= |schedule|
      ensures View() == Exec(old(View()), [Launch] + schedule[..used])
      ensures r == Done <==> View().stage == Returned(false)
      ensures r != CleanupError && (r == Pending ==> used == |schedule|)
    {
      hide Inv;
      hide Initial;
      hide View;
      hide Exec;
      ghost var s := View();
      Begin(s);
      var done;
      done, used := ServeLoop(schedule, s);
      if !done {
        ViewHolds();
        return Pending, used;
      }
      var returned := Leave(schedule, used, s);
      if returned {
        return Done, used;
      }
      r, used := DrainLoop(schedule, used, s);
    }
  }

  lemma SelectDoneEnabled(s: State)
    requires s.stage.Serving? && s.ctxDone
    ensures Enabled(s, SelectDone)
  {
  }

  lemma LeftLoop(s: State, t: State)
    requires Enabled(s, SelectDone) && t == Apply(s, SelectDone).(stage := Stopping)
    ensures s.terminated == s.total ==> Step(s, SelectDone) == t.(stage := Returned(false))
    ensures s.terminated != s.total ==> Step(s, SelectDone) == t == LoopTest(t)
    ensures t.terminated == s.terminated
  {
    hide DrainPool;
  }

  /** After the last counted death the sanity check finds nothing. */
  lemma ReturnedClean(s: State, t: State)
    requires s.stage.Stopping? && s.terminated == s.total && t == LoopTest(s) && Inv(t)
    ensures Sum(s.pools, RunningOf) == 0 && t == s.(stage := Returned(false))
  {
    hide InfoInv;
  }

  lemma StillWaiting(s: State)
    requires s.terminated != s.total
    ensures LoopTest(s) == s
  {
  }

  lemma InterruptedStages(failed: bool)
    ensures Interrupted(Stopping) && Interrupted(Returned(failed)) && !Interrupted(Serving)
  {
  }

  lemma LaunchIs(s: State, n: map<string, Info>)
    requires s.stage.Ready? && n == map p | p in s.pools :: RunPool(s.pools[p])
    ensures Apply(s, Launch) == s.(stage := Serving, pools := n)
  {
    hide RunPool;
    assert Apply(s, Launch).pools == n;
  }

  lemma SelectDoneIs(s: State, n: map<string, Info>)
    requires Enabled(s, SelectDone) && n == map p | p in s.pools :: DrainPool(s.pools[p])
    ensures Apply(s, SelectDone).(stage := Stopping) == s.(stage := Stopping, pools := n)
  {
    hide DrainPool;
    assert Apply(s, SelectDone).pools == n;
  }

  lemma EnabledEnd(s: State, p: string, id: string, k: nat, proxyFails: bool)
    requires Enabled(s, RecvEnd(p, id, k, proxyFails))
    ensures p in s.pools && id in s.pools[p].pool.slots && SlotOf(s, p, id) == s.pools[p].pool.slots[id]
    ensures EndPending(s.pools[p].pool.slots[id], k) && Receiving(s) && (s.stage.Serving? || s.stage.Stopping?)
  {
  }

  /** The gauges after a process has ended. */
  function EndCountedAs(i: Info): (j: Info)
    ensures j.pool == i.pool
  {
    i.(gaugeRunning := i.gaugeRunning - 1, gaugeTerminated := i.gaugeTerminated + 1)
  }

  function ProxyStopped(i: Info, running: int): (j: Info)
    requires PROXY_ID in i.pool.slots
  {
    i.(pool := PoolOps.InterruptWorker(i.pool, PROXY_ID), proxyStops := i.proxyStops + [running])
  }

  /** `handleProcessEnd` in parts. */
  lemma EndParts(i: Info, id: string, terminating: bool, proxyFails: bool)
    requires id in i.pool.slots
    ensures var h := HandleProcessEnd(i, id, terminating, proxyFails);
            var j := EndCountedAs(i);
            if Status(i.pool.slots[id].cur) != Terminated then h == (i, Panic)
            else if terminating then h == (j, AlreadyTerminating)
            else
              var (q, r) := RestartWorker(j.pool, id, proxyFails);
              h.0 == j.(pool := q)
              && h.1 == (match r case Restarted => Nil case TooManyRestarts => TooMany case ProxyFailed => NoProxy)
  {
    hide RestartWorker;
  }

  lemma DeathParts(i: Info)
    requires i.pool.proxied ==> PROXY_ID in i.pool.slots
    ensures CountDeath(i) ==
            (if i.pool.proxied && i.running - 1 == i.total - 1 then ProxyStopped(i, i.running - 1) else i).(running := i.running - 1)
  {
    hide Terminate;
  }

  lemma WorldStep(s: State, p: string, id: string, k: nat, ev: ProcEvent)
    requires !s.stage.Ready?
    ensures var a := World(p, id, k, ev);
            if HasSlot(s, p, id) && k <= |SlotOf(s, p, id).past| && CanHappen(ProcAt(SlotOf(s, p, id), k), ev)
            then p in s.pools && id in s.pools[p].pool.slots
                 && Step(s, a) == s.(pools := s.pools[p := OnSlot(s.pools[p], id, Happen(SlotOf(s, p, id), k, ev))])
            else Step(s, a) == s
  {
    hide Happen;
  }

  lemma ExceededStep(s: State, p: string, id: string)
    requires s.stage.Serving? || s.stage.Stopping?
    ensures if HasSlot(s, p, id) && SlotOf(s, p, id).exceeded > 0
            then p in s.pools && id in s.pools[p].pool.slots
                 && var taken := TakeExceeded(SlotOf(s, p, id));
                    Step(s, RecvExceeded(p, id)) ==
                    s.(pools := s.pools[p := OnSlot(s.pools[p], id, if s.stage.Serving? then Terminate(taken) else taken)])
            else Step(s, RecvExceeded(p, id)) == s
  {
    hide Terminate;
  }

  lemma NeedsInterruptStep(s: State, p: string, id: string)
    requires s.stage.Serving? || s.stage.Stopping?
    ensures if HasSlot(s, p, id) && SlotOf(s, p, id).needsInterrupt > 0
            then p in s.pools && id in s.pools[p].pool.slots
                 && Step(s, RecvNeedsInterrupt(p, id)) ==
                    s.(pools := s.pools[p := OnSlot(s.pools[p], id, Terminate(TakeInterrupt(SlotOf(s, p, id))))])
            else Step(s, RecvNeedsInterrupt(p, id)) == s
  {
    hide Terminate;
  }

  lemma NeedsTerminationStep(s: State, p: string, id: string)
    requires s.stage.Serving? || s.stage.Stopping?
    ensures if HasSlot(s, p, id) && SlotOf(s, p, id).needsTermination > 0
            then p in s.pools && id in s.pools[p].pool.slots
                 && var i := OnSlot(s.pools[p], id, TakeTermination(SlotOf(s, p, id)));
                    id in i.pool.slots
                    && Step(s, RecvNeedsTermination(p, id)) ==
                       s.(pools := s.pools[p := i.(pool := PoolOps.ForceTerminateWorker(i.pool, id))])
            else Step(s, RecvNeedsTermination(p, id)) == s
  {
    hide ForceTerminateWorker;
  }

  lemma OnSlotHas(i: Info, id: string, t: Slot)
    requires id in i.pool.slots
    ensures id in OnSlot(i, id, t).pool.slots && OnSlot(i, id, t).pool.slots[id] == t
  {
  }

  lemma TwiceOnSlot(m: map<string, Info>, p: string, id: string, a: Slot, b: Slot)
    requires p in m && id in m[p].pool.slots
    ensures var n := m[p := OnSlot(m[p], id, a)];
            n[p := OnSlot(n[p], id, b)] == m[p := OnSlot(m[p], id, b)]
  {
    assert m[p].pool.slots[id := a][id := b] == m[p].pool.slots[id := b];
  }

  lemma NotDone(s: State)
    requires s.stage.Serving? && !s.ctxDone
    ensures Step(s, SelectDone) == s
  {
  }

  lemma NextInRun(s: State, schedule: seq<Action>, used: nat)
    requires used < |schedule|
    ensures Exec(s, [Launch] + schedule[..used + 1]) == Step(Exec(s, [Launch] + schedule[..used]), schedule[used])
  {
    assert [Launch] + schedule[..used + 1] == ([Launch] + schedule[..used]) + [schedule[used]];
    ExecAppend(s, [Launch] + schedule[..used], schedule[used]);
  }

  /** What the two loops do with a ProcessEnd, put together from their handlers. */
  lemma EndIsStep(s: State, t: State, p: string, id: string, k: nat, proxyFails: bool)
    requires Enabled(s, RecvEnd(p, id, k, proxyFails)) && Receiving(s)
    requires var (j, r) := HandleProcessEnd(OnSlot(s.pools[p], id, Reap(SlotOf(s, p, id), k)), id, s.stage.Stopping?, proxyFails);
             && !r.Panic? && (r.Nil? ==> s.stage.Serving?)
             && (j.pool.proxied ==> PROXY_ID in j.pool.slots)
             && t == (if r.Nil? then s.(pools := s.pools[p := CountRestart(j)])
                      else s.(pools := s.pools[p := CountDeath(j)],
                              terminated := s.terminated + 1, ctxDone := s.ctxDone || (s.stage.Serving? && r.TooMany?)))
    ensures LoopTest(t) == Step(s, RecvEnd(p, id, k, proxyFails))
    ensures s.stage.Serving? ==> LoopTest(t) == t
  {
    hide HandleProcessEnd;
    hide CountDeath;
    hide CountRestart;
    hide Reap;
  }

  /** `handleProcessEnd` does not panic. */
  lemma NoPanic(s: State, p: string, id: string, k: nat, proxyFails: bool)
    requires Inv(s) && Enabled(s, RecvEnd(p, id, k, proxyFails))
    ensures var (j, r) := HandleProcessEnd(OnSlot(s.pools[p], id, Reap(SlotOf(s, p, id), k)), id, s.stage.Stopping?, proxyFails);
            !r.Panic? && (r.Nil? ==> s.stage.Serving?) && (r.TooMany? ==> s.stage.Serving?) && (j.pool.proxied ==> PROXY_ID in j.pool.slots)
  {
    hide InfoInv;
    hide HandleProcessEnd;
    assert InfoInv(s.pools[p], s.stage);
    if s.stage.Serving? {
      ServingEnd(s.pools[p], id, k, proxyFails);
    } else {
      StoppingEnd(s.pools[p], id, k, proxyFails);
    }
  }
}
