/** What every action of the supervisor and of the world keeps. */
module Invariant {
  import opened Sums
  import opened Worker
  import opened Pool
  import opened Supervisor

  predicate Interrupted(stage: Stage) {
    stage.Stopping? || stage.Returned?
  }

  ghost predicate InfoInv(i: Info, stage: Stage) {
    && PoolSound(i.pool, !stage.Ready?)
    && Books(i, stage)
    && (Interrupted(stage) ==> WorkersOwed(i.pool))
  }

  /** The counters and gauges of a pool agree with the permanently dead slots. */
  ghost predicate Books(i: Info, stage: Stage) {
    && i.total == |i.pool.slots|
    && i.running == i.total - DeadCount(i.pool)
    && i.gaugeRunning == (if stage.Ready? then 0 else i.running)
    && i.gaugeTerminated == i.total - i.running
    && i.proxyStops == (if i.pool.proxied && i.running < i.total then [i.total - 1] else [])
    && i.pool.state == (if Interrupted(stage) then PoolState.Draining else PoolState.Prepared)
  }

  ghost predicate Inv(s: State) {
    && !s.stage.Panicked?
    && (forall p | p in s.pools :: InfoInv(s.pools[p], s.stage))
    && (s.ctxDone || forall p | p in s.pools :: NoDeadWorker(s.pools[p].pool))
    && (s.stage.Ready? ==> forall p | p in s.pools :: Fresh(s.pools[p]))
    && s.total == Sum(s.pools, TotalOf)
    && s.terminated == Sum(s.pools, DeathsOf)
    && (s.stage.Stopping? ==> s.terminated != s.total)
    && (s.stage.Returned? ==> s.terminated == s.total && !s.stage.failed)
    && (Interrupted(s.stage) ==> s.ctxDone)
  }

  // ----- one pool

  /** A slot replaced by a sound one that is as dead as before leaves the books unchanged. */
  lemma SlotStep(i: Info, j: Info, id: string, stage: Stage)
    requires InfoInv(i, stage) && !stage.Ready?
    requires j.(pool := i.pool) == i && Replaced(i.pool, j.pool, id) && j.pool.state == i.pool.state
    requires SlotSound(id, j.pool.slots[id], j.pool.maxRestarts, true)
    requires Dead(j.pool.slots[id]) == Dead(i.pool.slots[id])
    requires Owed(i.pool.slots[id]) ==> Owed(j.pool.slots[id])
    ensures InfoInv(j, stage)
    ensures NoDeadWorker(i.pool) ==> NoDeadWorker(j.pool)
  {
    hide SlotSound;
    hide Owed;
    ReplacedSound(i.pool, j.pool, id);
    ReplacedCounts(i.pool, j.pool, id);
    if Interrupted(stage) {
      ReplacedOwed(i.pool, j.pool, id);
    }
  }

  lemma LaunchStep(i: Info)
    requires InfoInv(i, Ready) && Fresh(i)
    ensures InfoInv(RunPool(i), Serving)
    ensures NoDeadWorker(RunPool(i).pool)
  {
    hide SlotSound;
    hide Run;
    hide Dead;
    var q := RunAll(i.pool);
    forall id | id in q.slots
      ensures SlotSound(id, q.slots[id], q.maxRestarts, true)
      ensures !Dead(q.slots[id]) && !Dead(i.pool.slots[id])
      ensures RestartsOf(q.slots[id]) == RestartsOf(i.pool.slots[id])
    {
      assert FreshSlot(id, i.pool.slots[id]);
      SlotRun(id, i.pool.slots[id], q.maxRestarts, i.pool.lifespan && id != PROXY_ID);
    }
    SameKeys(i.pool, q);
    Zeros(q.slots, DeadBit);
  }

  lemma DrainSlots(p: Pool)
    requires SlotsSound(p, true)
    ensures SlotsSound(InterruptAll(p), true) && WorkersOwed(InterruptAll(p))
    ensures forall id | id in p.slots :: Dead(p.slots[id]) == Dead(InterruptAll(p).slots[id])
    ensures forall id | id in p.slots :: RestartsOf(p.slots[id]) == RestartsOf(InterruptAll(p).slots[id])
  {
    hide Sound;
    hide Owed;
    hide Terminate;
    forall id | id in p.slots
      ensures SlotSound(id, InterruptAll(p).slots[id], p.maxRestarts, true)
      ensures Dead(p.slots[id]) == Dead(InterruptAll(p).slots[id])
      ensures RestartsOf(p.slots[id]) == RestartsOf(InterruptAll(p).slots[id])
      ensures id != PROXY_ID ==> Dead(InterruptAll(p).slots[id]) || Owed(InterruptAll(p).slots[id])
    {
      assert SlotSound(id, p.slots[id], p.maxRestarts, true);
      SlotTerminate(id, p.slots[id], p.maxRestarts);
    }
  }

  lemma DrainStep(i: Info, stage: Stage)
    requires InfoInv(i, Serving) && Interrupted(stage)
    ensures InfoInv(DrainPool(i), stage)
    ensures NoDeadWorker(i.pool) ==> NoDeadWorker(DrainPool(i).pool)
  {
    hide SlotSound;
    hide Owed;
    hide Terminate;
    DrainSlots(i.pool);
    SameKeys(i.pool, InterruptAll(i.pool));
  }

  /** The pool after the restart that answers a ProcessEnd. */
  lemma RestartPool(p: Pool, id: string, k: nat, proxyFails: bool)
    requires PoolSound(p, true) && p.state == PoolState.Prepared && id in p.slots
    requires EndPending(p.slots[id], k) && WaitReturns(Reap(p.slots[id], k))
    ensures var t := Reap(p.slots[id], k);
            var (q, r) := RestartWorker(WithSlot(p, id, t), id, proxyFails);
            && Status(t.cur) == Terminated && Dead(t) && !Dead(p.slots[id])
            && (r.TooManyRestarts? <==> id != PROXY_ID && p.slots[id].cur.restarts == p.maxRestarts)
            && (r.ProxyFailed? <==> id == PROXY_ID && proxyFails)
            && (!r.Restarted? ==> q == WithSlot(p, id, t))
            && (r.Restarted? ==> Replaced(p, q, id) && q.state == p.state && !Dead(q.slots[id])
                                 && q.slots[id].past == p.slots[id].past + [t.cur]
                                 && q.proxyRestarts == p.proxyRestarts + (if id == PROXY_ID then 1 else 0)
                                 && SlotSound(id, q.slots[id], q.maxRestarts, true))
  {
    hide Sound;
    hide Relaunch;
    hide Reap;
    hide WaitReturns;
    hide SlotsSound;
    SoundAt(p, id);
    var t := Reap(p.slots[id], k);
    SlotReap(id, p.slots[id], k, p.maxRestarts);
    var restarts := if id == PROXY_ID then 0 else t.cur.restarts + 1;
    if restarts <= p.maxRestarts {
      SlotRelaunch(id, t, p.maxRestarts, restarts, p.lifespan && id != PROXY_ID);
    }
  }

  /** A ProcessEnd that is answered by a restart leaves the books unchanged. */
  lemma RestartStep(i: Info, id: string, k: nat, proxyFails: bool)
    requires InfoInv(i, Serving) && id in i.pool.slots
    requires EndPending(i.pool.slots[id], k) && WaitReturns(Reap(i.pool.slots[id], k))
    requires HandleProcessEnd(OnSlot(i, id, Reap(i.pool.slots[id], k)), id, false, proxyFails).1.Nil?
    ensures var j := CountRestart(HandleProcessEnd(OnSlot(i, id, Reap(i.pool.slots[id], k)), id, false, proxyFails).0);
            && InfoInv(j, Serving) && j.running == i.running && j.total == i.total
            && (NoDeadWorker(i.pool) ==> NoDeadWorker(j.pool))
  {
    hide SlotSound;
    hide RestartWorker;
    RestartPool(i.pool, id, k, proxyFails);
    var j := CountRestart(HandleProcessEnd(OnSlot(i, id, Reap(i.pool.slots[id], k)), id, false, proxyFails).0);
    ReplacedSound(i.pool, j.pool, id);
    ReplacedCounts(i.pool, j.pool, id);
  }

  /** The end of a slot's last process is received: one more permanently dead slot. */
  lemma ReapPool(p: Pool, id: string, k: nat)
    requires PoolSound(p, true) && id in p.slots
    requires EndPending(p.slots[id], k) && WaitReturns(Reap(p.slots[id], k))
    ensures var q := WithSlot(p, id, Reap(p.slots[id], k));
            && Status(q.slots[id].cur) == Terminated
            && PoolSound(q, true) && |q.slots| == |p.slots| && DeadCount(q) == DeadCount(p) + 1
            && (WorkersOwed(p) ==> WorkersOwed(q))
            && (NoDeadWorker(p) && id == PROXY_ID ==> NoDeadWorker(q))
  {
    hide SlotSound;
    hide Owed;
    SoundAt(p, id);
    SlotReap(id, p.slots[id], k, p.maxRestarts);
    var q := WithSlot(p, id, Reap(p.slots[id], k));
    ReplacedSound(p, q, id);
    ReplacedCounts(p, q, id);
  }

  lemma InterruptPool(p: Pool, id: string)
    requires PoolSound(p, true) && id in p.slots
    ensures var q := InterruptWorker(p, id);
            && PoolSound(q, true) && |q.slots| == |p.slots| && DeadCount(q) == DeadCount(p)
            && (WorkersOwed(p) ==> WorkersOwed(q)) && (Dead(q.slots[id]) || Owed(q.slots[id]))
            && (NoDeadWorker(p) ==> NoDeadWorker(q))
  {
    hide SlotSound;
    hide Owed;
    hide Terminate;
    SoundAt(p, id);
    SlotTerminate(id, p.slots[id], p.maxRestarts);
    var q := InterruptWorker(p, id);
    ReplacedSound(p, q, id);
    ReplacedCounts(p, q, id);
  }

  function EndCounted(i: Info, id: string, k: nat): Info
    requires id in i.pool.slots && EndPending(i.pool.slots[id], k)
    requires i.pool.proxied ==> PROXY_ID in i.pool.slots
  {
    CountDeath(OnSlot(i, id, Reap(i.pool.slots[id], k)).(
               gaugeRunning := i.gaugeRunning - 1, gaugeTerminated := i.gaugeTerminated + 1))
  }

  /** A ProcessEnd that is counted as a death, with the proxy stop that may come with it. */
  lemma DeathStep(i: Info, id: string, k: nat, stage: Stage)
    requires InfoInv(i, stage) && (stage.Serving? || stage.Stopping?) && id in i.pool.slots
    requires EndPending(i.pool.slots[id], k) && WaitReturns(Reap(i.pool.slots[id], k))
    ensures var j := EndCounted(i, id, k);
            && InfoInv(j, stage) && j.running == i.running - 1 && j.total == i.total
            && (NoDeadWorker(i.pool) && id == PROXY_ID ==> NoDeadWorker(j.pool))
  {
    hide SlotsSound;
    hide WorkersOwed;
    hide NoDeadWorker;
    hide Reap;
    ReapPool(i.pool, id, k);
    DeadCountRange(i.pool);
    var q := WithSlot(i.pool, id, Reap(i.pool.slots[id], k));
    if i.pool.proxied {
      InterruptPool(q, PROXY_ID);
    }
  }

  /** Operations on all slots at once keep the keys; equal marks then give equal counts. */
  lemma SameKeys(p: Pool, q: Pool)
    requires q.slots.Keys == p.slots.Keys
    requires forall id | id in p.slots :: Dead(p.slots[id]) == Dead(q.slots[id])
    requires forall id | id in p.slots :: RestartsOf(p.slots[id]) == RestartsOf(q.slots[id])
    ensures |q.slots| == |p.slots| && DeadCount(q) == DeadCount(p)
    ensures Sum(q.slots, RestartsOf) == Sum(p.slots, RestartsOf)
    ensures (exists id :: id in p.slots && id != PROXY_ID) ==> exists id :: id in q.slots && id != PROXY_ID
  {
    Congruent(p.slots, DeadBit, q.slots, DeadBit);
    Congruent(p.slots, RestartsOf, q.slots, RestartsOf);
    assert |q.slots.Keys| == |p.slots.Keys|;
    if id :| id in p.slots && id != PROXY_ID {
      assert id in q.slots;
    }
  }

  // ----- the whole system

  /** One pool moves, by as many deaths as its `running` drops. */
  lemma PoolMoves(s: State, t: State, p: string)
    requires Inv(s) && !s.stage.Ready? && p in s.pools && p in t.pools
    requires t.pools == s.pools[p := t.pools[p]] && t.stage == s.stage && t.total == s.total
    requires InfoInv(t.pools[p], s.stage) && t.pools[p].total == s.pools[p].total
    requires t.terminated == s.terminated + s.pools[p].running - t.pools[p].running
    requires s.ctxDone ==> t.ctxDone
    requires t.ctxDone || (NoDeadWorker(s.pools[p].pool) ==> NoDeadWorker(t.pools[p].pool))
    requires t.stage.Returned? ==> t.terminated == s.terminated
    ensures Inv(LoopTest(t)) && LoopTest(t).(stage := t.stage) == t
  {
    hide InfoInv;
    hide NoDeadWorker;
    Update(s.pools, TotalOf, p, t.pools[p]);
    Update(s.pools, DeathsOf, p, t.pools[p]);
    forall q | q in t.pools ensures InfoInv(t.pools[q], t.stage) {
      if q != p { assert InfoInv(s.pools[q], s.stage); }
    }
    if t.stage.Stopping? && t.terminated == t.total {
      AllDead(t);
      var u := LoopTest(t);
      forall q | q in u.pools ensures InfoInv(u.pools[q], u.stage) {
        StopInfo(t.pools[q]);
      }
    }
  }

  lemma StopInfo(i: Info)
    requires InfoInv(i, Stopping)
    ensures InfoInv(i, Returned(false))
  {
    hide SlotsSound;
    hide WorkersOwed;
  }

  /**
   Exact death count: once every process has been counted, every pool has none left, every
   slot is permanently dead and the sanity check after the loop finds nothing running.
   */
  lemma AllDead(s: State)
    requires forall p | p in s.pools :: InfoInv(s.pools[p], s.stage)
    requires s.total == Sum(s.pools, TotalOf) == Sum(s.pools, DeathsOf)
    ensures forall p | p in s.pools :: s.pools[p].running == 0
    ensures forall p, id | HasSlot(s, p, id) :: Dead(SlotOf(s, p, id))
    ensures Sum(s.pools, RunningOf) == 0
  {
    forall p | p in s.pools ensures DeathsOf(s.pools[p]) <= TotalOf(s.pools[p]) {
      BooksRange(s.pools[p], s.stage);
    }
    Bound(s.pools, DeathsOf, TotalOf);
    forall p | p in s.pools
      ensures s.pools[p].running == 0
      ensures forall id | id in s.pools[p].pool.slots :: Dead(s.pools[p].pool.slots[id])
      ensures RunningOf(s.pools[p]) == 0
    {
      assert DeathsOf(s.pools[p]) == TotalOf(s.pools[p]);
      BooksRange(s.pools[p], s.stage);
      Zeros(s.pools[p].pool.slots, RunningBit);
    }
    Zeros(s.pools, RunningOf);
  }

  lemma BooksRange(i: Info, stage: Stage)
    requires InfoInv(i, stage)
    ensures 0 <= i.running <= i.total
    ensures i.running == 0 ==> forall id | id in i.pool.slots :: Dead(i.pool.slots[id])
    ensures i.running == i.total ==> forall id | id in i.pool.slots :: !Dead(i.pool.slots[id])
  {
    DeadCountRange(i.pool);
  }

  lemma FreshInfo(i: Info)
    requires Fresh(i)
    ensures InfoInv(i, Ready) && NoDeadWorker(i.pool)
  {
    hide Sound;
    var q := i.pool;
    forall id | id in q.slots
      ensures SlotSound(id, q.slots[id], q.maxRestarts, false) && !Dead(q.slots[id]) && RestartsOf(q.slots[id]) == 0
    {
      assert FreshSlot(id, q.slots[id]);
      SlotRun(id, q.slots[id], q.maxRestarts, false);
    }
    Zeros(q.slots, DeadBit);
    Zeros(q.slots, RestartsOf);
  }

  lemma InitialInv(s: State)
    requires Initial(s)
    ensures Inv(s)
  {
    hide InfoInv;
    hide NoDeadWorker;
    forall p | p in s.pools ensures InfoInv(s.pools[p], Ready) && NoDeadWorker(s.pools[p].pool) {
      FreshInfo(s.pools[p]);
    }
    Zeros(s.pools, DeathsOf);
  }

  // ----- one action

  lemma LaunchKeeps(s: State)
    requires Inv(s) && s.stage.Ready?
    ensures Inv(Apply(s, Launch))
  {
    hide InfoInv;
    hide NoDeadWorker;
    hide Fresh;
    hide RunAll;
    var t := Apply(s, Launch);
    forall p | p in s.pools ensures InfoInv(t.pools[p], Serving) && NoDeadWorker(t.pools[p].pool) {
      assert Fresh(s.pools[p]);
      LaunchStep(s.pools[p]);
    }
    Congruent(s.pools, TotalOf, t.pools, TotalOf);
    Congruent(s.pools, DeathsOf, t.pools, DeathsOf);
  }

  lemma DrainApplied(s: State)
    requires Enabled(s, SelectDone)
    ensures var t := Apply(s, SelectDone);
            && t.stage == (if s.terminated == s.total then Returned(false) else Stopping)
            && t.ctxDone == s.ctxDone && t.terminated == s.terminated && t.total == s.total
            && t.pools.Keys == s.pools.Keys && forall p | p in s.pools :: t.pools[p] == DrainPool(s.pools[p])
  {
    hide DrainPool;
  }

  lemma DrainCounts(i: Info)
    ensures DrainPool(i).total == i.total && DrainPool(i).running == i.running
  {
    hide InterruptAll;
  }

  lemma SelectDoneKeeps(s: State)
    requires Inv(s) && Enabled(s, SelectDone)
    ensures Inv(Apply(s, SelectDone))
  {
    hide InfoInv;
    hide NoDeadWorker;
    hide DrainPool;
    hide Fresh;
    assert s.stage == Serving && s.ctxDone;
    hide Enabled;
    DrainApplied(s);
    hide Apply;
    var t := Apply(s, SelectDone);
    forall p | p in s.pools
      ensures InfoInv(t.pools[p], t.stage) && (NoDeadWorker(s.pools[p].pool) ==> NoDeadWorker(t.pools[p].pool))
      ensures TotalOf(t.pools[p]) == TotalOf(s.pools[p]) && DeathsOf(t.pools[p]) == DeathsOf(s.pools[p])
    {
      DrainStep(s.pools[p], t.stage);
      DrainCounts(s.pools[p]);
    }
    Congruent(s.pools, TotalOf, t.pools, TotalOf);
    Congruent(s.pools, DeathsOf, t.pools, DeathsOf);
  }

  /** An action that only moves one slot, and neither ends nor revives it for good. */
  lemma SlotKeeps(s: State, p: string, id: string, j: Info)
    requires Inv(s) && !s.stage.Ready? && HasSlot(s, p, id)
    requires j.(pool := s.pools[p].pool) == s.pools[p] && Replaced(s.pools[p].pool, j.pool, id)
    requires j.pool.state == s.pools[p].pool.state
    requires SlotSound(id, j.pool.slots[id], j.pool.maxRestarts, true)
    requires Dead(j.pool.slots[id]) == Dead(SlotOf(s, p, id))
    requires Owed(SlotOf(s, p, id)) ==> Owed(j.pool.slots[id])
    ensures Inv(WithInfo(s, p, j))
  {
    hide InfoInv;
    hide NoDeadWorker;
    hide SlotSound;
    SlotStep(s.pools[p], j, id, s.stage);
    PoolMoves(s, WithInfo(s, p, j), p);
  }

  lemma WorldKeeps(s: State, p: string, id: string, k: nat, ev: ProcEvent)
    requires Inv(s) && Enabled(s, World(p, id, k, ev))
    ensures Inv(Apply(s, World(p, id, k, ev)))
  {
    hide PoolSound;
    hide NoDeadWorker;
    hide Happen;
    var slot := SlotOf(s, p, id);
    assert InfoInv(s.pools[p], s.stage);
    SoundAt(s.pools[p].pool, id);
    SlotHappen(id, slot, k, ev, s.pools[p].pool.maxRestarts);
    SlotKeeps(s, p, id, OnSlot(s.pools[p], id, Happen(slot, k, ev)));
  }

  lemma RecvKeeps(s: State, a: Action)
    requires Inv(s) && Enabled(s, a)
    requires a.RecvExceeded? || a.RecvNeedsInterrupt? || a.RecvNeedsTermination?
    ensures Inv(Apply(s, a))
  {
    hide PoolSound;
    hide NoDeadWorker;
    hide SlotSound;
    hide WorkersOwed;
    hide Books;
    hide Owed;
    hide Terminate;
    hide ForceTerminate;
    var i := s.pools[a.pool];
    assert InfoInv(i, s.stage);
    SoundAt(i.pool, a.id);
    SlotRecv(a.id, SlotOf(s, a.pool, a.id), i.pool.maxRestarts);
    SlotKeeps(s, a.pool, a.id, Apply(s, a).pools[a.pool]);
  }

  /** What a received ProcessEnd does to the pool while serving: a restart, or a counted death. */
  lemma ServingEnd(i: Info, id: string, k: nat, proxyFails: bool)
    requires InfoInv(i, Serving) && id in i.pool.slots
    requires EndPending(i.pool.slots[id], k) && WaitReturns(Reap(i.pool.slots[id], k))
    ensures var (j, r) := HandleProcessEnd(OnSlot(i, id, Reap(i.pool.slots[id], k)), id, false, proxyFails);
            && (r.Nil? || r.TooMany? || (r.NoProxy? && id == PROXY_ID))
            && (j.pool.proxied ==> PROXY_ID in j.pool.slots)
            && (r.Nil? || CountDeath(j) == EndCounted(i, id, k))
  {
    hide SlotsSound;
    hide Reap;
    hide RestartWorker;
    hide CountDeath;
    RestartPool(i.pool, id, k, proxyFails);
    var t := Reap(i.pool.slots[id], k);
    var r := RestartWorker(WithSlot(i.pool, id, t), id, proxyFails).1;
    assert Status(OnSlot(i, id, t).pool.slots[id].cur) == Terminated;
    match r case Restarted => case TooManyRestarts => case ProxyFailed =>
  }

  /** Every ProcessEnd received in the second loop is counted. */
  lemma StoppingEnd(i: Info, id: string, k: nat, proxyFails: bool)
    requires InfoInv(i, Stopping) && id in i.pool.slots
    requires EndPending(i.pool.slots[id], k) && WaitReturns(Reap(i.pool.slots[id], k))
    ensures var (j, r) := HandleProcessEnd(OnSlot(i, id, Reap(i.pool.slots[id], k)), id, true, proxyFails);
            && r.AlreadyTerminating?
            && (j.pool.proxied ==> PROXY_ID in j.pool.slots)
            && CountDeath(j) == EndCounted(i, id, k)
  {
    hide SlotsSound;
    hide WorkersOwed;
    hide Reap;
    hide CountDeath;
    ReapPool(i.pool, id, k);
  }

  lemma EndKeeps(s: State, p: string, id: string, k: nat, proxyFails: bool)
    requires Inv(s) && Enabled(s, RecvEnd(p, id, k, proxyFails))
    ensures Inv(Apply(s, RecvEnd(p, id, k, proxyFails)))
  {
    hide InfoInv;
    hide NoDeadWorker;
    hide HandleProcessEnd;
    hide EndCounted;
    hide CountDeath;
    hide CountRestart;
    var i := s.pools[p];
    assert InfoInv(i, s.stage);
    var (j, r) := HandleProcessEnd(OnSlot(i, id, Reap(SlotOf(s, p, id), k)), id, s.stage.Stopping?, proxyFails);
    if s.stage.Serving? {
      ServingEnd(i, id, k, proxyFails);
    } else {
      StoppingEnd(i, id, k, proxyFails);
    }
    if r.Nil? {
      RestartStep(i, id, k, proxyFails);
      PoolMoves(s, WithInfo(s, p, CountRestart(j)), p);
    } else {
      DeathStep(i, id, k, s.stage);
      PoolMoves(s, WithInfo(s, p, CountDeath(j)).(
                   terminated := s.terminated + 1,
                   ctxDone := s.ctxDone || (s.stage.Serving? && r.TooMany?)), p);
    }
  }

  lemma InvStep(s: State, a: Action)
    requires Inv(s)
    ensures Inv(Step(s, a))
  {
    hide InfoInv;
    hide NoDeadWorker;
    if Enabled(s, a) {
      match a
      case Launch => LaunchKeeps(s);
      case World(p, id, k, ev) => WorldKeeps(s, p, id, k, ev);
      case RecvEnd(p, id, k, proxyFails) => EndKeeps(s, p, id, k, proxyFails);
      case RecvExceeded(_, _) => RecvKeeps(s, a);
      case RecvNeedsInterrupt(_, _) => RecvKeeps(s, a);
      case RecvNeedsTermination(_, _) => RecvKeeps(s, a);
      case CancelContext =>
      case SelectDone => SelectDoneKeeps(s);
    }
  }

  /** The invariant holds in every state of every run. */
  lemma {:induction false} InvRun(s: State, run: seq<Action>)
    requires Inv(s)
    ensures Inv(Exec(s, run))
    decreases |run|
  {
    if run != [] {
      InvRun(s, run[..|run| - 1]);
      InvStep(Exec(s, run[..|run| - 1]), run[|run| - 1]);
    }
  }
}
