/** What holds in every state of every run of the supervisor. */
module Safety {
  import opened Sums
  import opened Worker
  import opened Pool
  import opened Supervisor
  import opened Invariant

  /**
   One end per incarnation: an unreceived ProcessEnd always belongs to the incarnation held
   in the pool's map, and that incarnation is Terminated, so the panic in `handleProcessEnd`
   is unreachable.
   */
  lemma OneEndPerIncarnation(s: State, run: seq<Action>, p: string, id: string, k: nat)
    requires Initial(s)
    ensures !Exec(s, run).stage.Panicked?
    ensures var t := Exec(s, run);
            HasSlot(t, p, id) && EndPending(SlotOf(t, p, id), k) ==>
              k == |SlotOf(t, p, id).past| && Status(SlotOf(t, p, id).cur) == Terminated
  {
    InitialInv(s);
    InvRun(s, run);
    var t := Exec(s, run);
    if HasSlot(t, p, id) && EndPending(SlotOf(t, p, id), k) {
      SlotOfSound(t, p, id);
      OneEnd(SlotOf(t, p, id), k);
    }
  }

  lemma SlotOfSound(t: State, p: string, id: string)
    requires Inv(t) && HasSlot(t, p, id)
    ensures Sound(SlotOf(t, p, id))
    ensures InBudget(id, SlotOf(t, p, id), t.pools[p].pool.maxRestarts)
    ensures t.stage.Ready? <==> SlotOf(t, p, id).cur.phase.Prepared?
  {
    hide Sound;
    assert InfoInv(t.pools[p], t.stage);
    assert SlotSound(id, SlotOf(t, p, id), t.pools[p].pool.maxRestarts, !t.stage.Ready?);
  }

  ghost function DeadIn(i: Info): int { DeadCount(i.pool) }

  /**
   Exact death count: `terminatedProcesses` is the number of permanently dead slots and the
   sum of what the pools have lost. It never exceeds the total, so the test `!=` cannot be
   stepped past, and when `Run` returns nothing runs and no error is reported.
   */
  lemma ExactDeathCount(s: State, run: seq<Action>)
    requires Initial(s)
    ensures var t := Exec(s, run);
            && t.terminated == Sum(t.pools, DeadIn) == Sum(t.pools, DeathsOf)
            && t.terminated <= t.total == Sum(t.pools, TotalOf)
            && (t.stage.Stopping? ==> t.terminated < t.total)
            && (t.stage.Returned? ==> t.terminated == t.total && !t.stage.failed
                                      && forall p, id | HasSlot(t, p, id) :: Dead(SlotOf(t, p, id)))
  {
    hide PoolSound;
    InitialInv(s);
    InvRun(s, run);
    var t := Exec(s, run);
    forall p | p in t.pools
      ensures DeadIn(t.pools[p]) == DeathsOf(t.pools[p]) <= TotalOf(t.pools[p])
    {
      assert InfoInv(t.pools[p], t.stage);
      BooksRange(t.pools[p], t.stage);
    }
    Congruent(t.pools, DeadIn, t.pools, DeathsOf);
    Bound(t.pools, DeathsOf, TotalOf);
    if t.stage.Returned? {
      AllDead(t);
    }
  }

  /**
   Gauge conservation: the running gauge is `runningProcesses`, running plus terminated is
   `totalProcesses`, and after `Run` returned every pool shows nothing running.
   */
  lemma GaugeConservation(s: State, run: seq<Action>, p: string)
    requires Initial(s)
    ensures var t := Exec(s, run);
            p in t.pools && !t.stage.Ready? ==>
              var i := t.pools[p];
              && i.gaugeRunning == i.running == i.total - |DeadIds(i.pool.slots)|
              && i.gaugeRunning + i.gaugeTerminated == i.total == |i.pool.slots|
              && 0 <= i.gaugeRunning && 0 <= i.gaugeTerminated
              && (t.stage.Returned? ==> i.gaugeRunning == 0 && i.gaugeTerminated == i.total)
  {
    hide PoolSound;
    InitialInv(s);
    InvRun(s, run);
    var t := Exec(s, run);
    if p in t.pools {
      assert InfoInv(t.pools[p], t.stage);
      BooksRange(t.pools[p], t.stage);
      CountsAreSets(t.pools[p].pool);
      if t.stage.Returned? {
        AllDead(t);
      }
    }
  }

  /**
   Proxy stop is one-shot: the proxy of a pool is stopped once if a death of that pool has
   been counted, at the first one, when as many processes as there are workers are counted as
   running; without a counted death, or without a proxy, never.
   */
  lemma ProxyStopOnce(s: State, run: seq<Action>, p: string)
    requires Initial(s) && p in s.pools
    ensures var t := Exec(s, run);
            && p in t.pools && t.pools[p].pool.proxied == s.pools[p].pool.proxied && t.pools[p].total == s.pools[p].total
            && t.pools[p].proxyStops ==
               (if t.pools[p].pool.proxied && t.pools[p].running < t.pools[p].total then [t.pools[p].total - 1] else [])
  {
    hide PoolSound;
    hide WorkersOwed;
    InitialInv(s);
    InvRun(s, run);
    assert InfoInv(Exec(s, run).pools[p], Exec(s, run).stage);
  }

  /** A proxy that fails to start, with nothing else done to its slot. */
  function FailedProxy(): Slot {
    Happen(Run(NewSlot(false), false), 0, StartFail)
  }

  lemma ProxyLaunched(s: State, p: string)
    requires s.stage.Ready? && p in s.pools && Fresh(s.pools[p]) && s.pools[p].pool.proxied
    ensures var t := Step(s, Launch);
            && t.stage.Serving? && HasSlot(t, p, PROXY_ID) && SlotOf(t, p, PROXY_ID) == Run(NewSlot(false), false)
            && t.pools[p].running == t.pools[p].total == s.pools[p].total && t.pools[p].pool.proxied
  {
    assert FreshSlot(PROXY_ID, s.pools[p].pool.slots[PROXY_ID]);
  }

  lemma ProxyFailed(s: State, p: string)
    requires s.stage.Serving? && HasSlot(s, p, PROXY_ID) && SlotOf(s, p, PROXY_ID) == Run(NewSlot(false), false)
    ensures var t := Step(s, World(p, PROXY_ID, 0, StartFail));
            && t.stage.Serving? && SlotOf(t, p, PROXY_ID) == FailedProxy()
            && t.pools[p].running == s.pools[p].running
  {
  }

  lemma ProxyCounted(s: State, p: string)
    requires s.stage.Serving? && HasSlot(s, p, PROXY_ID) && SlotOf(s, p, PROXY_ID) == FailedProxy()
    requires s.pools[p].pool.state.Prepared?
    ensures var t := Step(s, RecvEnd(p, PROXY_ID, 0, true));
            && t.pools[p].running == s.pools[p].running - 1
            && HasSlot(t, p, PROXY_ID) && Dead(SlotOf(t, p, PROXY_ID))
  {
    var i := OnSlot(s.pools[p], PROXY_ID, Reap(FailedProxy(), 0));
    var (j, r) := HandleProcessEnd(i, PROXY_ID, false, true);
    assert Enabled(s, RecvEnd(p, PROXY_ID, 0, true));
    assert r.NoProxy? && j.running == s.pools[p].running;
    assert CountDeath(j).running == s.pools[p].running - 1 && Dead(CountDeath(j).pool.slots[PROXY_ID]);
  }

  function Workers(q: Pool): map<string, Slot> {
    q.slots - {PROXY_ID}
  }

  /** The dead slots of a pool are its dead workers and its proxy, if that is dead. */
  lemma DeadWorkers(q: Pool)
    requires PROXY_ID in q.slots
    ensures var rest := q.(slots := Workers(q));
            DeadCount(q) == DeadCount(rest) + DeadBit(q.slots[PROXY_ID]) && |q.slots| == |rest.slots| + 1
  {
    Split(q.slots, DeadBit, PROXY_ID);
    assert Workers(q).Keys == q.slots.Keys - {PROXY_ID};
    assert |q.slots.Keys| == |q.slots| && |Workers(q).Keys| == |Workers(q)|;
  }

  /**
   The first counted death can be the proxy's own: it fails to start and cannot be prepared
   again. The one stop is then spent on a dead proxy, while every worker is alive.
   */
  lemma ProxyDies(s: State, p: string)
    requires Initial(s) && p in s.pools && s.pools[p].pool.proxied
    ensures var run := [Launch, World(p, PROXY_ID, 0, StartFail), RecvEnd(p, PROXY_ID, 0, true)];
            var t := Exec(s, run);
            && t.pools[p].running == s.pools[p].total - 1 && t.pools[p].proxyStops == [s.pools[p].total - 1]
            && HasSlot(t, p, PROXY_ID) && Dead(SlotOf(t, p, PROXY_ID)) && NoDeadWorker(t.pools[p].pool)
  {
    hide Step;
    hide Exec;
    hide Fresh;
    hide FailedProxy;
    hide Run;
    hide InfoInv;
    hide NoDeadWorker;
    hide Initial;
    hide Inv;
    var a, b, c := Launch, World(p, PROXY_ID, 0, StartFail), RecvEnd(p, PROXY_ID, 0, true);
    ThreeSteps(s, a, b, c);
    ProxyIsFresh(s, p);
    ProxyLaunched(s, p);
    ProxyFailed(Exec(s, [a]), p);
    InitialInv(s);
    InvRun(s, [a, b]);
    InfoHolds(Exec(s, [a, b]), p);
    PoolStateBooks(Exec(s, [a, b]).pools[p], Serving);
    ProxyCounted(Exec(s, [a, b]), p);
    ProxyStopOnce(s, [a, b, c], p);
    InvRun(s, [a, b, c]);
    InfoHolds(Exec(s, [a, b, c]), p);
    OnlyProxyDead(Exec(s, [a, b, c]).pools[p], Exec(s, [a, b, c]).stage);
  }

  lemma ThreeSteps(s: State, a: Action, b: Action, c: Action)
    ensures Exec(s, [a]) == Step(s, a)
    ensures Exec(s, [a, b]) == Step(Step(s, a), b)
    ensures Exec(s, [a, b, c]) == Step(Step(Step(s, a), b), c)
  {
    hide Step;
    ExecAppend(s, [], a);
    ExecAppend(s, [a], b);
    ExecAppend(s, [a, b], c);
    assert [] + [a] == [a] && [a] + [b] == [a, b] && [a, b] + [c] == [a, b, c];
  }

  lemma InfoHolds(s: State, p: string)
    requires Inv(s) && p in s.pools
    ensures InfoInv(s.pools[p], s.stage)
  {
    hide InfoInv;
  }

  lemma ProxyIsFresh(s: State, p: string)
    requires Initial(s) && p in s.pools
    ensures s.stage.Ready? && Fresh(s.pools[p])
  {
  }

  lemma OnlyProxyDead(i: Info, stage: Stage)
    requires InfoInv(i, stage) && PROXY_ID in i.pool.slots && Dead(i.pool.slots[PROXY_ID]) && i.running == i.total - 1
    ensures NoDeadWorker(i.pool)
  {
    hide PoolSound;
    hide WorkersOwed;
    DeadWorkers(i.pool);
    var rest := i.pool.(slots := Workers(i.pool));
    DeadCountRange(rest);
    forall id | id in i.pool.slots && id != PROXY_ID ensures !Dead(i.pool.slots[id]) {
      assert id in rest.slots && rest.slots[id] == i.pool.slots[id];
    }
  }

  /**
   Restart budget: each worker's restart count is its number of earlier incarnations and
   stays within the limit; the pool's restart counter is the sum of these counts, so the
   processes launched for workers are one each plus one per counted restart, at most
   `maxRestarts + 1` for each worker. The proxy's own count stays 0.
   */
  ghost predicate WithinBudget(q: Pool, launched: bool) {
    && (forall id | id in Workers(q) :: q.slots[id].cur.restarts == |q.slots[id].past| <= q.maxRestarts)
    && (PROXY_ID in q.slots ==> q.slots[PROXY_ID].cur.restarts == 0)
    && q.workerRestarts == Sum(Workers(q), RestartsOf)
    && (launched ==> Sum(Workers(q), LaunchesOf) == |Workers(q)| + q.workerRestarts <= |Workers(q)| * (q.maxRestarts + 1))
  }

  lemma RestartBudget(s: State, run: seq<Action>, p: string)
    requires Initial(s) && p in s.pools
    ensures var t := Exec(s, run);
            && WithinBudget(t.pools[p].pool, !t.stage.Ready?)
            && t.pools[p].pool.maxRestarts == s.pools[p].pool.maxRestarts
            && |Workers(t.pools[p].pool)| == |Workers(s.pools[p].pool)|
  {
    hide WithinBudget;
    hide PoolSound;
    hide Books;
    InitialInv(s);
    InvRun(s, run);
    var t := Exec(s, run);
    assert InfoInv(t.pools[p], t.stage);
    PoolBudget(t.pools[p].pool, !t.stage.Ready?);
    SameWorkers(s.pools[p].pool, t.pools[p].pool);
  }

  lemma SameWorkers(p: Pool, q: Pool)
    requires SameShape(p, q)
    ensures |Workers(p)| == |Workers(q)|
  {
    assert Workers(p).Keys == p.slots.Keys - {PROXY_ID} == Workers(q).Keys;
    assert |Workers(p).Keys| == |Workers(q).Keys|;
  }

  lemma PoolBudget(q: Pool, launched: bool)
    requires PoolSound(q, launched)
    ensures WithinBudget(q, launched)
  {
    hide SlotSound;
    SlotsBudget(q, launched);
    if PROXY_ID in q.slots {
      Split(q.slots, RestartsOf, PROXY_ID);
    } else {
      assert Workers(q) == q.slots;
    }
    if launched {
      LaunchSum(Workers(q), q.maxRestarts);
    }
  }

  lemma LaunchSum(m: map<string, Slot>, maxRestarts: nat)
    requires forall id | id in m :: LaunchesOf(m[id]) == RestartsOf(m[id]) + 1 <= maxRestarts + 1
    ensures Sum(m, LaunchesOf) == |m| + Sum(m, RestartsOf) <= |m| * (maxRestarts + 1)
  {
    SumPlusOne(m, RestartsOf, LaunchesOf);
    Cap(m, LaunchesOf, maxRestarts + 1);
  }

  lemma SlotsBudget(q: Pool, launched: bool)
    requires SlotsSound(q, launched)
    ensures forall id | id in q.slots :: InBudget(id, q.slots[id], q.maxRestarts)
    ensures launched ==> forall id | id in q.slots :: LaunchesOf(q.slots[id]) == |q.slots[id].past| + 1
  {
    hide Sound;
    forall id | id in q.slots
      ensures InBudget(id, q.slots[id], q.maxRestarts)
      ensures launched ==> LaunchesOf(q.slots[id]) == |q.slots[id].past| + 1
    {
      assert SlotSound(id, q.slots[id], q.maxRestarts, launched);
    }
  }

  lemma {:induction false} SumPlusOne(m: map<string, Slot>, f: Slot -> int, g: Slot -> int)
    requires forall k | k in m :: g(m[k]) == f(m[k]) + 1
    ensures Sum(m, g) == |m| + Sum(m, f)
    decreases |m|
  {
    if m != map[] {
      var k :| k in m;
      Split(m, f, k);
      Split(m, g, k);
      SumPlusOne(m - {k}, f, g);
      assert |m - {k}| == |m| - 1 by {
        assert (m - {k}).Keys == m.Keys - {k};
        assert |m.Keys| == |m|;
      }
    }
  }

  /** No process was launched between the two states of the pool, nor any restart counted. */
  predicate NothingLaunched(p: Pool, q: Pool) {
    && q.workerRestarts == p.workerRestarts && q.proxyRestarts == p.proxyRestarts
    && forall id | id in p.slots :: id in q.slots && |q.slots[id].past| == |p.slots[id].past|
  }

  lemma EndLaunchesNothing(i: Info, id: string, k: nat)
    requires id in i.pool.slots && EndPending(i.pool.slots[id], k)
    requires i.pool.proxied ==> PROXY_ID in i.pool.slots
    ensures NothingLaunched(i.pool, EndCounted(i, id, k).pool)
  {
  }

  /**
   No restart after drain: a pool drains exactly while the supervisor is terminating, so a
   restart is never asked of a draining pool and its silent success is unreachable; every
   ProcessEnd received by the second loop is counted, as one death.
   */
  lemma NoRestartAfterDrain(s: State, run: seq<Action>, a: Action)
    requires Initial(s) && a.RecvEnd?
    ensures var t := Exec(s, run);
            && (forall p | p in t.pools :: t.pools[p].pool.state.Draining? <==> Interrupted(t.stage))
            && (t.stage.Stopping? && Enabled(t, a) ==>
                  && Step(t, a).terminated == t.terminated + 1
                  && NothingLaunched(t.pools[a.pool].pool, Step(t, a).pools[a.pool].pool))
  {
    hide InfoInv;
    hide NothingLaunched;
    InitialInv(s);
    InvRun(s, run);
    var t := Exec(s, run);
    hide Exec;
    hide Initial;
    forall p | p in t.pools ensures t.pools[p].pool.state.Draining? <==> Interrupted(t.stage) {
      PoolStateBooks(t.pools[p], t.stage);
    }
    if t.stage.Stopping? && Enabled(t, a) {
      StoppingCounts(t, a.pool, a.id, a.k, a.proxyFails);
    }
  }

  lemma PoolStateBooks(i: Info, stage: Stage)
    requires InfoInv(i, stage)
    ensures i.pool.state == (if Interrupted(stage) then PoolState.Draining else PoolState.Prepared)
  {
    hide PoolSound;
    hide WorkersOwed;
  }

  lemma StoppingCounts(t: State, p: string, id: string, k: nat, proxyFails: bool)
    requires t.stage.Stopping? && Enabled(t, RecvEnd(p, id, k, proxyFails)) && InfoInv(t.pools[p], Stopping)
    ensures Apply(t, RecvEnd(p, id, k, proxyFails)).terminated == t.terminated + 1
    ensures NothingLaunched(t.pools[p].pool, Apply(t, RecvEnd(p, id, k, proxyFails)).pools[p].pool)
  {
    hide InfoInv;
    hide NothingLaunched;
    hide HandleProcessEnd;
    hide EndCounted;
    hide CountDeath;
    StoppingEnd(t.pools[p], id, k, proxyFails);
    EndLaunchesNothing(t.pools[p], id, k);
  }

  /** A worker death counted before the shutdown has cancelled the context: serving cannot go on for ever. */
  lemma WorkerDeathCancels(s: State, run: seq<Action>, p: string, id: string)
    requires Initial(s)
    ensures var t := Exec(s, run);
            HasSlot(t, p, id) && id != PROXY_ID && Dead(SlotOf(t, p, id)) ==> t.ctxDone
  {
    InitialInv(s);
    InvRun(s, run);
    var t := Exec(s, run);
    if HasSlot(t, p, id) && !t.ctxDone {
      assert NoDeadWorker(t.pools[p].pool);
    }
  }

  /** Log order across restarts, in every state of every run. */
  lemma LogOrderAcrossRestarts(s: State, run: seq<Action>, p: string, id: string, i: nat, j: nat)
    requires Initial(s) && HasSlot(Exec(s, run), p, id)
    requires var log := SlotOf(Exec(s, run), p, id).log;
             i < |log| && j < |log| && log[i].Line? && log[j].Started?
    ensures var log := SlotOf(Exec(s, run), p, id).log;
            log[i].k < log[j].k <==> i < j
  {
    InitialInv(s);
    InvRun(s, run);
    SlotOfSound(Exec(s, run), p, id);
    LogOrder(SlotOf(Exec(s, run), p, id), i, j);
  }

  /**
   Limits: while serving, an exceeded limit leaves the slot with its end on its way, whichever
   incarnation it reaches; once stopping, it is dropped and nothing else changes.
   */
  lemma LimitIsEnforced(s: State, run: seq<Action>, p: string, id: string)
    requires Initial(s) && Enabled(Exec(s, run), RecvExceeded(p, id))
    ensures var t := Exec(s, run);
            var u := Step(t, RecvExceeded(p, id));
            && SlotOf(u, p, id).exceeded == SlotOf(t, p, id).exceeded - 1
            && (t.stage.Serving? ==> Dead(SlotOf(u, p, id)) || Owed(SlotOf(u, p, id)))
            && (t.stage.Stopping? ==> SlotOf(u, p, id) == TakeExceeded(SlotOf(t, p, id)))
  {
    InitialInv(s);
    InvRun(s, run);
    var t := Exec(s, run);
    LimitStep(t, p, id);
    hide Inv;
    hide Exec;
    hide Step;
    SlotOfSound(t, p, id);
    LimitSlot(SlotOf(t, p, id));
  }

  lemma LimitStep(t: State, p: string, id: string)
    requires Enabled(t, RecvExceeded(p, id))
    ensures HasSlot(t, p, id) && SlotOf(t, p, id).exceeded > 0 && (t.stage.Serving? || t.stage.Stopping?)
    ensures HasSlot(Step(t, RecvExceeded(p, id)), p, id)
    ensures SlotOf(Step(t, RecvExceeded(p, id)), p, id) ==
            if t.stage.Serving? then Terminate(TakeExceeded(SlotOf(t, p, id))) else TakeExceeded(SlotOf(t, p, id))
  {
    hide Terminate;
  }

  lemma LimitSlot(s: Slot)
    requires Sound(s) && s.exceeded > 0 && !s.cur.phase.Prepared?
    ensures var t := Terminate(TakeExceeded(s));
            (Dead(t) || Owed(t)) && t.exceeded == s.exceeded - 1
  {
    hide LogInOrder;
    SoundTerminate(TakeExceeded(s));
  }
}
