/**
 Runs in which a proxied pool counts its first death, and what comes of the one stop of the
 proxy. It can fire while the supervisor is still serving, the stopped proxy is restarted, and
 only then is the cancelled context noticed; from then on nothing stops the new proxy. The
 signal timer of the stopped proxy can meet the new one before it has a PID.
 */
module ProxyRestart {
  import opened Sums
  import opened Worker
  import opened Pool
  import opened Supervisor
  import opened Invariant
  import opened Safety
  import opened Progress
  import CounterRefinement

  /** The proxy as it is first run, and once it has a PID. */
  function LiveProxy(): Slot {
    Happen(Run(NewSlot(false), false), 0, Start)
  }

  /** A worker in its `n`th restart that does not have a PID yet and is asked nothing. */
  predicate YoungWorker(s: Slot, n: nat) {
    && |s.past| == n == s.cur.restarts && s.cur.phase.Starting?
    && s.cur.streaming && !s.cur.drained
  }

  /** Pool `p` is served, its proxy is in state `ps`, and `deaths` of its deaths are counted. */
  predicate At(s: State, p: string, w: string, ps: Slot, deaths: nat) {
    && s.stage.Serving? && HasSlot(s, p, PROXY_ID) && HasSlot(s, p, w) && w != PROXY_ID
    && SlotOf(s, p, PROXY_ID) == ps
    && s.pools[p].pool.proxied && s.pools[p].pool.state == PoolState.Prepared
    && s.pools[p].running == s.pools[p].total - deaths
  }

  lemma Launched(s: State, p: string, w: string)
    requires s.stage.Ready? && p in s.pools && Fresh(s.pools[p]) && s.pools[p].pool.proxied
    requires HasSlot(s, p, w) && w != PROXY_ID
    ensures var t := Step(s, Launch);
            At(t, p, w, Run(NewSlot(false), false), 0) && YoungWorker(SlotOf(t, p, w), 0)
  {
    assert FreshSlot(PROXY_ID, s.pools[p].pool.slots[PROXY_ID]) && FreshSlot(w, s.pools[p].pool.slots[w]);
  }

  lemma ProxyHappens(s: State, p: string, w: string, ps: Slot, deaths: nat, ev: ProcEvent)
    requires At(s, p, w, ps, deaths) && ps.past == [] && CanHappen(ps.cur, ev)
    ensures var t := Step(s, World(p, PROXY_ID, 0, ev));
            At(t, p, w, Happen(ps, 0, ev), deaths) && SlotOf(t, p, w) == SlotOf(s, p, w)
  {
    hide Happen;
    hide CanHappen;
  }

  lemma WorkerHappens(s: State, p: string, w: string, ps: Slot, k: nat, ev: ProcEvent)
    requires At(s, p, w, ps, 0) && k <= |SlotOf(s, p, w).past| && CanHappen(ProcAt(SlotOf(s, p, w), k), ev)
    ensures var t := Step(s, World(p, w, k, ev));
            At(t, p, w, ps, 0) && SlotOf(t, p, w) == Happen(SlotOf(s, p, w), k, ev)
  {
    hide Happen;
    hide CanHappen;
  }

  /** A young worker that failed to start, with its streams closed. */
  function Failed(s: Slot): Slot
    requires YoungWorker(s, |s.past|)
  {
    Happen(Happen(s, |s.past|, StartFail), |s.past|, StreamsClose)
  }

  lemma WorkerFails(s: State, p: string, w: string, ps: Slot, n: nat)
    requires At(s, p, w, ps, 0) && YoungWorker(SlotOf(s, p, w), n)
    ensures var t := Step(Step(s, World(p, w, n, StartFail)), World(p, w, n, StreamsClose));
            At(t, p, w, ps, 0) && SlotOf(t, p, w) == Failed(SlotOf(s, p, w))
  {
    hide Step;
    var slot := SlotOf(s, p, w);
    assert CanHappen(ProcAt(slot, n), StartFail);
    WorkerHappens(s, p, w, ps, n, StartFail);
    assert CanHappen(ProcAt(Happen(slot, n, StartFail), n), StreamsClose);
    WorkerHappens(Step(s, World(p, w, n, StartFail)), p, w, ps, n, StreamsClose);
  }

  lemma WorkerRestarts(s: State, p: string, w: string, ps: Slot, slot: Slot, n: nat)
    requires YoungWorker(slot, n) && At(s, p, w, ps, 0) && SlotOf(s, p, w) == Failed(slot)
    requires n < s.pools[p].pool.maxRestarts
    ensures var t := Step(s, RecvEnd(p, w, n, false));
            At(t, p, w, ps, 0) && YoungWorker(SlotOf(t, p, w), n + 1)
  {
    var i := OnSlot(s.pools[p], w, Reap(Failed(slot), n));
    var (j, r) := HandleProcessEnd(i, w, false, false);
    assert r.Nil? && j.pool.slots == s.pools[p].pool.slots[w := Relaunch(Reap(Failed(slot), n), n + 1, true, i.pool.lifespan)];
  }

  /** The last allowed restart has been used: the death is counted and the proxy stopped. */
  lemma WorkerIsCounted(s: State, p: string, w: string, ps: Slot, slot: Slot, n: nat)
    requires YoungWorker(slot, n) && At(s, p, w, ps, 0) && SlotOf(s, p, w) == Failed(slot)
    requires n == s.pools[p].pool.maxRestarts
    ensures var t := Step(s, RecvEnd(p, w, n, false));
            At(t, p, w, Terminate(ps), 1) && t.ctxDone
  {
    hide Terminate;
    var i := OnSlot(s.pools[p], w, Reap(Failed(slot), n));
    var (j, r) := HandleProcessEnd(i, w, false, false);
    assert r.TooMany? && j.pool == i.pool && j.running == s.pools[p].running;
    assert CountDeath(j).pool.slots[PROXY_ID] == Terminate(ps);
  }

  /** The stopped proxy has ended, and is restarted. */
  lemma ProxyComesBack(s: State, p: string, w: string, ps: Slot)
    requires At(s, p, w, ps, 1) && EndPending(ps, 0) && ps.past == [] && WaitReturns(Reap(ps, 0))
    ensures var t := Step(s, RecvEnd(p, PROXY_ID, 0, false));
            At(t, p, w, Relaunch(Reap(ps, 0), 0, true, false), 1) && t.ctxDone == s.ctxDone
  {
    hide Relaunch;
    var i := OnSlot(s.pools[p], PROXY_ID, Reap(ps, 0));
    var (j, r) := HandleProcessEnd(i, PROXY_ID, false, false);
    assert r.Nil?;
    assert j.pool.slots == s.pools[p].pool.slots[PROXY_ID := Relaunch(Reap(ps, 0), 0, true, false)];
  }

  lemma DoneIsNoticed(s: State, p: string, w: string, ps: Slot)
    requires Inv(s) && At(s, p, w, ps, 1) && s.ctxDone && !Dead(ps) && !Owed(ps)
    ensures var t := Step(s, SelectDone);
            t.stage.Stopping? && p in t.pools && !ProxyOk(t.pools[p])
  {
    hide InfoInv;
    hide Terminate;
    hide Owed;
    SelectDoneKeeps(s);
    var t := Step(s, SelectDone);
    assert HasSlot(t, p, PROXY_ID) && SlotOf(t, p, PROXY_ID) == ps;
    if !t.stage.Stopping? {
      AllDead(t);
    }
  }

  // ----- runs without signal timers

  /** No kill is outstanding. */
  ghost predicate NoKills(s: State) {
    forall p, id | HasSlot(s, p, id) :: SlotOf(s, p, id).needsTermination == 0
  }

  predicate IsTimer(a: Action) {
    a.World? && a.ev.TimerFires?
  }

  lemma NoKillsStep(s: State, a: Action)
    requires NoKills(s) && !IsTimer(a)
    ensures NoKills(Step(s, a))
  {
    var t := Step(s, a);
    forall p, id | HasSlot(t, p, id) ensures SlotOf(t, p, id).needsTermination == 0 {
      assert HasSlot(s, p, id);
      SlotKills(s, a, p, id);
    }
  }

  lemma SlotKills(s: State, a: Action, p: string, id: string)
    requires HasSlot(s, p, id) && SlotOf(s, p, id).needsTermination == 0 && !IsTimer(a)
    ensures SlotOf(Step(s, a), p, id).needsTermination == 0
  {
    if Enabled(s, a) && a.RecvEnd? {
      EndKills(s, a, p, id);
    }
  }

  lemma EndKills(s: State, a: Action, p: string, id: string)
    requires HasSlot(s, p, id) && SlotOf(s, p, id).needsTermination == 0 && Enabled(s, a) && a.RecvEnd?
    ensures SlotOf(Apply(s, a), p, id).needsTermination == 0
  {
    hide HandleProcessEnd;
    hide CountDeath;
    hide Reap;
    hide WaitReturns;
    hide EndPending;
    if a.pool == p {
      KillsStayReap(SlotOf(s, p, a.id), a.k);
      var i := OnSlot(s.pools[p], a.id, Reap(SlotOf(s, p, a.id), a.k));
      KillsHandled(i, a.id, s.stage.Stopping?, a.proxyFails, id);
      var j := HandleProcessEnd(i, a.id, s.stage.Stopping?, a.proxyFails).0;
      KillsCounted(j, id);
    }
  }

  lemma KillsHandled(i: Info, id: string, terminating: bool, proxyFails: bool, x: string)
    requires id in i.pool.slots && x in i.pool.slots
    ensures HandleProcessEnd(i, id, terminating, proxyFails).0.pool.slots[x].needsTermination == i.pool.slots[x].needsTermination
  {
    hide Relaunch;
    KillsStay(i.pool.slots[id]);
  }

  lemma KillsCounted(i: Info, x: string)
    requires (i.pool.proxied ==> PROXY_ID in i.pool.slots) && x in i.pool.slots
    ensures CountDeath(i).pool.slots[x].needsTermination == i.pool.slots[x].needsTermination
  {
  }

  lemma KillsStay(s: Slot)
    ensures Terminate(s).needsTermination == s.needsTermination
    ensures forall n, streaming, lifespan :: Relaunch(s, n, streaming, lifespan).needsTermination == s.needsTermination
  {
  }

  lemma KillsStayReap(s: Slot, k: nat)
    requires EndPending(s, k)
    ensures Reap(s, k).needsTermination == s.needsTermination
  {
  }

  lemma NoKillsAtFirst(s: State)
    requires Initial(s)
    ensures NoKills(Exec(s, []))
  {
    forall p, id | HasSlot(s, p, id) ensures SlotOf(s, p, id).needsTermination == 0 {
      assert Fresh(s.pools[p]) && FreshSlot(id, s.pools[p].pool.slots[id]);
    }
  }

  lemma Extend(s: State, run: seq<Action>, a: Action) returns (longer: seq<Action>)
    requires NoKills(Exec(s, run)) && !IsTimer(a)
    ensures Exec(s, longer) == Step(Exec(s, run), a) && NoKills(Exec(s, longer))
  {
    ExecAppend(s, run, a);
    longer := run + [a];
    NoKillsStep(Exec(s, run), a);
  }

  // ----- a worker uses up its restarts

  /** After the run the proxy lives, and worker `w` starts for the `n`th time after its first. */
  ghost predicate Restarts(s: State, run: seq<Action>, p: string, w: string, n: nat) {
    var t := Exec(s, run);
    At(t, p, w, LiveProxy(), 0) && YoungWorker(SlotOf(t, p, w), n) && NoKills(t)
  }

  /** Workers may be restarted while the proxy keeps running. */
  lemma {:induction false} WorkerUsesUp(s: State, p: string, w: string, n: nat) returns (run: seq<Action>)
    requires Initial(s) && p in s.pools && s.pools[p].pool.proxied && HasSlot(s, p, w) && w != PROXY_ID
    requires n <= s.pools[p].pool.maxRestarts
    ensures Restarts(s, run, p, w, n)
  {
    hide *;
    if n == 0 {
      run := FirstWorker(s, p, w);
    } else {
      var before := WorkerUsesUp(s, p, w, n - 1);
      run := NextWorker(s, before, p, w, n - 1);
    }
  }

  lemma FirstWorker(s: State, p: string, w: string) returns (run: seq<Action>)
    requires Initial(s) && p in s.pools && s.pools[p].pool.proxied && HasSlot(s, p, w) && w != PROXY_ID
    ensures Restarts(s, run, p, w, 0)
  {
    hide Step;
    hide At;
    hide NoKills;
    Launched(s, p, w);
    ProxyHappens(Step(s, Launch), p, w, Run(NewSlot(false), false), 0, Start);
    NoKillsAtFirst(s);
    run := Extend(s, [], Launch);
    run := Extend(s, run, World(p, PROXY_ID, 0, Start));
    AtSlots(Exec(s, run), p, w, LiveProxy(), 0);
  }

  lemma AtSlots(s: State, p: string, w: string, ps: Slot, deaths: nat)
    requires At(s, p, w, ps, deaths)
    ensures HasSlot(s, p, PROXY_ID) && HasSlot(s, p, w)
  {
  }

  lemma NextWorker(s: State, before: seq<Action>, p: string, w: string, n: nat) returns (run: seq<Action>)
    requires p in s.pools && Restarts(s, before, p, w, n) && n < s.pools[p].pool.maxRestarts
    ensures Restarts(s, run, p, w, n + 1)
  {
    hide Step;
    hide Exec;
    hide At;
    hide Failed;
    hide LiveProxy;
    hide NoKills;
    var t := Exec(s, before);
    AtSlots(t, p, w, LiveProxy(), 0);
    WorkerFails(t, p, w, LiveProxy(), n);
    run := Extend(s, before, World(p, w, n, StartFail));
    run := Extend(s, run, World(p, w, n, StreamsClose));
    WorkerRestarts(Exec(s, run), p, w, LiveProxy(), SlotOf(t, p, w), n);
    run := Extend(s, run, RecvEnd(p, w, n, false));
    AtSlots(Exec(s, run), p, w, LiveProxy(), 0);
  }

  lemma WorkerOf(s: State, p: string) returns (w: string)
    requires Initial(s) && p in s.pools
    ensures HasSlot(s, p, w) && w != PROXY_ID
  {
    assert Fresh(s.pools[p]);
    w :| w in s.pools[p].pool.slots && w != PROXY_ID;
  }

  /** The first death of the pool is about to be counted, and it is a worker's. */
  lemma FirstDeath(s: State, p: string) returns (run: seq<Action>, w: string, n: nat)
    requires Initial(s) && p in s.pools && s.pools[p].pool.proxied
    ensures var t := Exec(s, run);
            var u := Step(t, RecvEnd(p, w, n, false));
            && At(t, p, w, LiveProxy(), 0) && At(u, p, w, Terminate(LiveProxy()), 1) && u.ctxDone && NoKills(t)
  {
    hide *;
    w := WorkerOf(s, p);
    n := s.pools[p].pool.maxRestarts;
    var before := WorkerUsesUp(s, p, w, n);
    run := LastWorker(s, before, p, w, n);
  }

  lemma LastWorker(s: State, before: seq<Action>, p: string, w: string, n: nat) returns (run: seq<Action>)
    requires p in s.pools && Restarts(s, before, p, w, n) && n == s.pools[p].pool.maxRestarts
    ensures var t := Exec(s, run);
            var u := Step(t, RecvEnd(p, w, n, false));
            && At(t, p, w, LiveProxy(), 0) && At(u, p, w, Terminate(LiveProxy()), 1) && u.ctxDone && NoKills(t)
  {
    hide Step;
    hide Exec;
    hide At;
    hide Failed;
    hide LiveProxy;
    hide Terminate;
    hide NoKills;
    var t := Exec(s, before);
    AtSlots(t, p, w, LiveProxy(), 0);
    WorkerFails(t, p, w, LiveProxy(), n);
    run := Extend(s, before, World(p, w, n, StartFail));
    run := Extend(s, run, World(p, w, n, StreamsClose));
    WorkerIsCounted(Exec(s, run), p, w, LiveProxy(), SlotOf(t, p, w), n);
  }

  // ----- the stop finds workers alive

  /** The intent: when the stop reaches a living proxy, every worker is dead. */
  ghost predicate StopsLast(t: State, a: Action, p: string)
    requires p in t.pools
  {
    var i, j := t.pools[p], Step(t, a).pools[p];
    |j.proxyStops| > |i.proxyStops| && PROXY_ID in j.pool.slots && !Dead(j.pool.slots[PROXY_ID]) ==>
      forall id | id in Workers(j.pool) :: Dead(j.pool.slots[id])
  }

  ghost predicate AlwaysStopsLast(s: State, p: string)
    requires p in s.pools
  {
    forall run, a :: StopsLast(Exec(s, run), a, p)
  }

  /** With one worker, the first counted death is the proxy's or that worker's. */
  lemma OneWorker(s: State, run: seq<Action>, a: Action, p: string)
    requires Initial(s) && p in s.pools && s.pools[p].pool.proxied && s.pools[p].total == 2
    ensures StopsLast(Exec(s, run), a, p)
  {
    hide *;
    var t := Exec(s, run);
    var u := Step(t, a);
    ExecAppend(s, run, a);
    ProxyStopOnce(s, run, p);
    ProxyStopOnce(s, run + [a], p);
    InitialInv(s);
    InvRun(s, run);
    InvRun(s, run + [a]);
    InfoHolds(t, p);
    InfoHolds(u, p);
    BooksRange(t.pools[p], t.stage);
    BooksRange(u.pools[p], u.stage);
    OneDeath(t, a, p);
    LastWorkerDead(u.pools[p], u.stage);
    StopsLastIs(t, a, p);
  }

  lemma StopsLastIs(t: State, a: Action, p: string)
    requires p in t.pools
    requires var i, j := t.pools[p], Step(t, a).pools[p];
             |j.proxyStops| > |i.proxyStops| && PROXY_ID in j.pool.slots && !Dead(j.pool.slots[PROXY_ID]) ==>
               forall id | id in Workers(j.pool) :: Dead(j.pool.slots[id])
    ensures StopsLast(t, a, p)
  {
  }

  /** A step counts at most one death of a pool. */
  lemma OneDeath(t: State, a: Action, p: string)
    requires Inv(t) && p in t.pools
    ensures Step(t, a).pools[p].running >= t.pools[p].running - 1
  {
    hide Inv;
    CounterRefinement.StepRefines(t, a);
    hide Step;
    hide CounterRefinement.EntryOf;
    assert CounterRefinement.BookOf(Step(t, a)).pools[p].running == Step(t, a).pools[p].running;
    assert CounterRefinement.BookOf(t).pools[p].running == t.pools[p].running;
  }

  lemma LastWorkerDead(i: Info, stage: Stage)
    requires InfoInv(i, stage)
    ensures i.total == 2 && i.running == 1 && PROXY_ID in i.pool.slots && !Dead(i.pool.slots[PROXY_ID]) ==>
              forall id | id in Workers(i.pool) :: Dead(i.pool.slots[id])
  {
    hide PoolSound;
    hide WorkersOwed;
    if PROXY_ID in i.pool.slots {
      DeadWorkers(i.pool);
      var rest := i.pool.(slots := Workers(i.pool));
      DeadCountRange(rest);
      forall id | id in Workers(i.pool) && DeadCount(rest) == |rest.slots| ensures Dead(i.pool.slots[id]) {
        assert rest.slots[id] == i.pool.slots[id];
      }
    }
  }

  /** With several workers, the stop can reach a living proxy while some of them are alive. */
  lemma SeveralWorkers(s: State, p: string) returns (run: seq<Action>, a: Action)
    requires Initial(s) && p in s.pools && s.pools[p].pool.proxied && s.pools[p].total > 2
    ensures p in Exec(s, run).pools && !StopsLast(Exec(s, run), a, p)
  {
    hide *;
    var w, n;
    run, w, n := FirstDeath(s, p);
    a := RecvEnd(p, w, n, false);
    var t := Exec(s, run);
    var u := Step(t, a);
    ExecAppend(s, run, a);
    ProxyStopOnce(s, run, p);
    ProxyStopOnce(s, run + [a], p);
    AtCounts(t, p, w, LiveProxy(), 0);
    AtCounts(u, p, w, Terminate(LiveProxy()), 1);
    InitialInv(s);
    InvRun(s, run + [a]);
    InfoHolds(u, p);
    LiveProxyStopped();
    WorkerAlive(u.pools[p], u.stage);
    StopsFirst(t, a, p);
  }

  lemma AtCounts(s: State, p: string, w: string, ps: Slot, deaths: nat)
    requires At(s, p, w, ps, deaths)
    ensures p in s.pools && PROXY_ID in s.pools[p].pool.slots && s.pools[p].pool.slots[PROXY_ID] == ps
    ensures s.pools[p].running == s.pools[p].total - deaths
  {
  }

  lemma LiveProxyStopped()
    ensures !Dead(Terminate(LiveProxy()))
  {
  }

  lemma StopsFirst(t: State, a: Action, p: string)
    requires p in t.pools
    requires var i, j := t.pools[p], Step(t, a).pools[p];
             && |j.proxyStops| > |i.proxyStops| && PROXY_ID in j.pool.slots && !Dead(j.pool.slots[PROXY_ID])
             && exists id :: id in Workers(j.pool) && !Dead(j.pool.slots[id])
    ensures !StopsLast(t, a, p)
  {
  }

  lemma WorkerAlive(i: Info, stage: Stage)
    requires InfoInv(i, stage) && PROXY_ID in i.pool.slots && i.total > 2 && i.running == i.total - 1
    ensures exists id :: id in Workers(i.pool) && !Dead(i.pool.slots[id])
  {
    hide PoolSound;
    hide WorkersOwed;
    DeadWorkers(i.pool);
    var rest := Workers(i.pool);
    if forall id | id in rest :: Dead(rest[id]) {
      Ones(rest, DeadBit);
    } else {
      var id :| id in rest && !Dead(rest[id]);
      assert id in Workers(i.pool) && !Dead(i.pool.slots[id]);
    }
  }

  /**
   The code meets the intent, in every run and whatever is done next, exactly when the pool has
   one worker. `replicas` is the number of workers, that is the pool's size without its proxy.
   */
  lemma ProxyStopsLastIff(s: State, p: string, replicas: nat)
    requires Initial(s) && p in s.pools && s.pools[p].pool.proxied && s.pools[p].total == replicas + 1
    ensures AlwaysStopsLast(s, p) <==> replicas == 1
  {
    hide Initial;
    hide Exec;
    hide StopsLast;
    if replicas == 1 {
      forall run, a ensures StopsLast(Exec(s, run), a, p) {
        OneWorker(s, run, a, p);
      }
    } else {
      AtLeastOne(s, p);
      var run, a := SeveralWorkers(s, p);
      assert !StopsLast(Exec(s, run), a, p);
    }
  }

  lemma AtLeastOne(s: State, p: string)
    requires Initial(s) && p in s.pools && s.pools[p].pool.proxied
    ensures s.pools[p].total >= 2
  {
    var w := WorkerOf(s, p);
    var slots := s.pools[p].pool.slots;
    assert Fresh(s.pools[p]);
    assert {w, PROXY_ID} <= slots.Keys;
    var both := {w, PROXY_ID};
    var rest := slots.Keys - both;
    assert slots.Keys == rest + both;
    assert |slots.Keys| == |rest| + |both|;
  }

  // ----- the stopped proxy comes back

  /** The proxy, in state `ps`, ends and is restarted. */
  lemma ProxyReturns(s: State, before: seq<Action>, p: string, w: string, ps: Slot) returns (run: seq<Action>)
    requires At(Exec(s, before), p, w, ps, 1) && ps.past == [] && CanHappen(ps.cur, Exit)
    requires var qs := Happen(ps, 0, Exit); qs.past == [] && EndPending(qs, 0) && WaitReturns(Reap(qs, 0))
    ensures Exec(s, run) == Step(Step(Exec(s, before), World(p, PROXY_ID, 0, Exit)), RecvEnd(p, PROXY_ID, 0, false))
    ensures At(Exec(s, run), p, w, Returned(ps), 1) && Exec(s, run).ctxDone == Exec(s, before).ctxDone
  {
    hide Step;
    hide Exec;
    hide At;
    hide Happen;
    hide Reap;
    hide Relaunch;
    hide Returned;
    hide WaitReturns;
    var a, b := World(p, PROXY_ID, 0, Exit), RecvEnd(p, PROXY_ID, 0, false);
    CtxStays(Exec(s, before), a);
    ProxyHappens(Exec(s, before), p, w, ps, 1, Exit);
    ExecAppend(s, before, a);
    ProxyComesBack(Exec(s, before + [a]), p, w, Happen(ps, 0, Exit));
    ExecAppend(s, before + [a], b);
    run := before + [a] + [b];
    ReturnedIs(ps);
  }

  /** The slot of a proxy that has ended and been restarted. */
  function Returned(ps: Slot): Slot
    requires ps.past == [] && CanHappen(ps.cur, Exit)
  {
    Relaunch(Reap(Happen(ps, 0, Exit), 0), 0, true, false)
  }

  lemma ReturnedIs(ps: Slot)
    requires ps.past == [] && CanHappen(ps.cur, Exit) && EndPending(Happen(ps, 0, Exit), 0)
    ensures Returned(ps) == Relaunch(Reap(Happen(ps, 0, Exit), 0), 0, true, false)
  {
  }

  lemma CtxStays(s: State, a: Action)
    requires a.World?
    ensures Step(s, a).ctxDone == s.ctxDone
  {
  }

  /** The stopped proxy can end and come back, and nothing is asked of the new one. */
  lemma StoppedProxy()
    ensures var ps := Terminate(LiveProxy());
            && ps.past == [] && CanHappen(ps.cur, Exit)
            && (var qs := Happen(ps, 0, Exit); qs.past == [] && EndPending(qs, 0) && WaitReturns(Reap(qs, 0)))
            && !Dead(Returned(ps)) && !Owed(Returned(ps))
  {
  }

  /** Up to the shutdown: the first death is counted, and the stopped proxy comes back. */
  lemma StoppedAndBack(s: State, p: string) returns (run: seq<Action>, w: string)
    requires Initial(s) && p in s.pools && s.pools[p].pool.proxied
    ensures At(Exec(s, run), p, w, Returned(Terminate(LiveProxy())), 1)
    ensures Exec(s, run).ctxDone && NoKills(Exec(s, run))
  {
    hide Initial;
    hide Step;
    hide Exec;
    hide At;
    hide NoKills;
    hide Returned;
    hide Terminate;
    hide LiveProxy;
    hide Happen;
    hide CanHappen;
    hide Reap;
    hide EndPending;
    hide WaitReturns;
    var n;
    run, w, n := FirstDeath(s, p);
    var a := RecvEnd(p, w, n, false);
    var t := Exec(s, run);
    ExecAppend(s, run, a);
    StoppedProxy();
    run := ProxyReturns(s, run + [a], p, w, Terminate(LiveProxy()));
    NoTimers(t, [a, World(p, PROXY_ID, 0, Exit), RecvEnd(p, PROXY_ID, 0, false)]);
  }

  lemma NoTimers(t: State, next: seq<Action>)
    requires |next| == 3 && NoKills(t) && forall i | 0 <= i < 3 :: !IsTimer(next[i])
    ensures NoKills(Step(Step(Step(t, next[0]), next[1]), next[2]))
  {
    hide Step;
    hide NoKills;
    NoKillsStep(t, next[0]);
    NoKillsStep(Step(t, next[0]), next[1]);
    NoKillsStep(Step(Step(t, next[0]), next[1]), next[2]);
  }

  lemma NoKillsAbandoned(t: State, p: string)
    requires Inv(t) && t.stage.Stopping? && NoKills(t) && p in t.pools && !ProxyOk(t.pools[p])
    ensures NoLostKill(t) && Abandoned(t, p)
  {
    hide Inv;
    hide ProxyOk;
    hide Abandoned;
    ObstacleSlot(t, p);
    AbandonedIff(t, p);
    assert SlotOf(t, p, PROXY_ID).needsTermination == 0;
  }

  /**
   No proxied configuration is safe: whatever its pools and limits, some run reaches a state
   of the shutdown loop from which the loop can be left waiting for ever.
   */
  lemma RestartedProxyHangs(s: State, p: string) returns (run: seq<Action>)
    requires Initial(s) && p in s.pools && s.pools[p].pool.proxied
    ensures Abandoned(Exec(s, run), p)
    ensures exists more :: Hangs(Exec(s, run), more)
  {
    hide *;
    var w;
    run, w := StoppedAndBack(s, p);
    StoppedProxy();
    InitialInv(s);
    InvRun(s, run);
    NoticedAndAbandoned(Exec(s, run), p, w, Returned(Terminate(LiveProxy())));
    ExecAppend(s, run, SelectDone);
    run := run + [SelectDone];
    ShutdownHangsIff(Exec(s, run));
  }

  lemma NoticedAndAbandoned(s: State, p: string, w: string, ps: Slot)
    requires Inv(s) && At(s, p, w, ps, 1) && s.ctxDone && NoKills(s) && !Dead(ps) && !Owed(ps)
    ensures var t := Step(s, SelectDone);
            Inv(t) && t.stage.Stopping? && NoLostKill(t) && Abandoned(t, p)
  {
    hide Inv;
    hide At;
    hide NoKills;
    hide ProxyOk;
    hide Step;
    hide NoLostKill;
    hide Abandoned;
    DoneIsNoticed(s, p, w, ps);
    InvStep(s, SelectDone);
    NoKillsStep(s, SelectDone);
    NoKillsAbandoned(Step(s, SelectDone), p);
  }

  // ----- the stopped proxy's timer fires

  lemma TimerThenBack()
    ensures var qs := Terminate(LiveProxy());
            && qs.past == [] && CanHappen(qs.cur, TimerFires)
            && var ps := Happen(qs, 0, TimerFires);
            && ps.past == [] && CanHappen(ps.cur, Exit)
            && (var rs := Happen(ps, 0, Exit); rs.past == [] && EndPending(rs, 0) && WaitReturns(Reap(rs, 0)))
            && Returned(ps).cur.phase.Starting? && Returned(ps).needsTermination == 1
  {
  }

  /**
   In every proxied configuration some run comes to a kill that was asked for one incarnation
   of the proxy, is received while the next one has no PID, and so is sent to monoceros itself:
   the proxy is stopped, its timer fires, it ends and is restarted, the event is received.
   */
  lemma LateKillReached(s: State, p: string) returns (run: seq<Action>)
    requires Initial(s) && p in s.pools && s.pools[p].pool.proxied
    ensures HitsItself(Exec(s, run), RecvNeedsTermination(p, PROXY_ID))
  {
    hide Initial;
    hide Step;
    hide Exec;
    hide At;
    hide NoKills;
    hide Returned;
    hide Terminate;
    hide LiveProxy;
    hide Happen;
    hide CanHappen;
    hide Reap;
    hide EndPending;
    hide WaitReturns;
    hide HitsItself;
    var w, n;
    run, w, n := FirstDeath(s, p);
    var a, b := RecvEnd(p, w, n, false), World(p, PROXY_ID, 0, TimerFires);
    ExecAppend(s, run, a);
    run := run + [a];
    TimerThenBack();
    ProxyHappens(Exec(s, run), p, w, Terminate(LiveProxy()), 1, TimerFires);
    ExecAppend(s, run, b);
    run := run + [b];
    var ps := Happen(Terminate(LiveProxy()), 0, TimerFires);
    run := ProxyReturns(s, run, p, w, ps);
    NoPidYet(Exec(s, run), p, w, Returned(ps));
  }

  lemma NoPidYet(t: State, p: string, w: string, ps: Slot)
    requires At(t, p, w, ps, 1) && ps.cur.phase.Starting? && ps.needsTermination > 0
    ensures HitsItself(t, RecvNeedsTermination(p, PROXY_ID))
  {
  }
}
