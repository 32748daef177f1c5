/** The state of one worker pool and the operations the supervisor calls on it, on values. */
module Pool {
  import opened Sums
  import opened Worker

  const PROXY_ID := "monoceros-envoy"

  /** Life of a pool. Nothing in the code moves a pool to `Started` or `Stopped`. */
  datatype PoolState = Init | Prepared | Started | Draining | Stopped

  datatype Pool = Pool(
    proxied: bool,
    maxRestarts: nat,
    lifespan: bool,          // workers carry a lifespan limiter
    state: PoolState,
    slots: map<string, Slot>,
    workerRestarts: nat,     // restartsCounter, worker_type "worker"
    proxyRestarts: nat,      // restartsCounter, worker_type "proxy"
    sigkills: nat,           // sigkillCounter
    ownKills: nat)           // history: SIGKILLs sent to PID 0, the process group of monoceros itself

  datatype Restart = Restarted | TooManyRestarts | ProxyFailed

  /** The parts of a pool that no operation changes. */
  predicate SameShape(p: Pool, q: Pool) {
    q.slots.Keys == p.slots.Keys && q.proxied == p.proxied && q.maxRestarts == p.maxRestarts && q.lifespan == p.lifespan
  }

  function WithSlot(p: Pool, id: string, s: Slot): (q: Pool)
    requires id in p.slots
    ensures SameShape(p, q)
  {
    p.(slots := p.slots[id := s])
  }

  function RunAll(p: Pool): (q: Pool)
    ensures SameShape(p, q)
  {
    p.(slots := map id | id in p.slots :: Run(p.slots[id], p.lifespan && id != PROXY_ID))
  }

  function InterruptWorker(p: Pool, id: string): (q: Pool)
    requires id in p.slots
    ensures SameShape(p, q)
  {
    WithSlot(p, id, Terminate(p.slots[id]))
  }

  function ForceTerminateWorker(p: Pool, id: string): (q: Pool)
    requires id in p.slots
    ensures SameShape(p, q)
  {
    WithSlot(p, id, ForceTerminate(p.slots[id])).(
      sigkills := p.sigkills + 1,
      ownKills := p.ownKills + if HasPid(p.slots[id].cur) then 0 else 1)
  }

  /** Interrupt every worker; the proxy is left for later. */
  function InterruptAll(p: Pool): (q: Pool)
    ensures SameShape(p, q)
  {
    p.(state := Draining,
       slots := map id | id in p.slots :: if id != PROXY_ID then Terminate(p.slots[id]) else p.slots[id])
  }

  /**
   Restart the process of a slot. On a draining pool nothing happens and no error is
   returned. Preparing the proxy may fail before the slot is replaced. The proxy's new
   instance always starts from restart count 0.
   */
  function RestartWorker(p: Pool, id: string, proxyFails: bool): (r: (Pool, Restart))
    requires id in p.slots
    ensures SameShape(p, r.0)
    ensures p.state == Draining || p.state == PoolState.Stopped ==> r == (p, Restarted)
  {
    if p.state.Draining? || p.state.Stopped? then (p, Restarted)
    else
      var s := p.slots[id];
      if id == PROXY_ID then
        if proxyFails then (p, ProxyFailed)
        else (WithSlot(p, id, Relaunch(s, 0, true, false)).(proxyRestarts := p.proxyRestarts + 1), Restarted)
      else
        var restarts := s.cur.restarts + 1;
        if restarts > p.maxRestarts then (p, TooManyRestarts)
        else (WithSlot(p, id, Relaunch(s, restarts, true, p.lifespan)).(workerRestarts := p.workerRestarts + 1), Restarted)
  }

  // ----- what is counted

  function DeadBit(s: Slot): int { if Dead(s) then 1 else 0 }
  function RunningBit(s: Slot): int { if Status(s.cur) == Running then 1 else 0 }
  function RestartsOf(s: Slot): int { s.cur.restarts }
  function LaunchesOf(s: Slot): int { Launched(s) }

  ghost function DeadCount(p: Pool): int { Sum(p.slots, DeadBit) }

  /** The number `RunningCount` returns. */
  ghost function RunningCount(p: Pool): int { Sum(p.slots, RunningBit) }

  /** The slots whose process runs: it has a PID and has not ended. */
  function RunningIds(slots: map<string, Slot>): set<string> {
    set id | id in slots && slots[id].cur.phase.Live?
  }

  /** The slots whose last process has ended and been counted. */
  function DeadIds(slots: map<string, Slot>): set<string> {
    set id | id in slots && slots[id].cur.phase.Reaped?
  }

  /** What is counted as running or dead are the slots in that phase, and no others. */
  lemma CountsAreSets(p: Pool)
    ensures RunningCount(p) == |RunningIds(p.slots)| && DeadCount(p) == |DeadIds(p.slots)|
  {
    Marked(p.slots, RunningBit, RunningIds(p.slots));
    Marked(p.slots, DeadBit, DeadIds(p.slots));
  }

  // ----- invariant of a pool

  /** The restart budget of a slot: a worker counts its incarnations, the proxy never does. */
  predicate InBudget(id: string, s: Slot, maxRestarts: nat) {
    s.cur.restarts == (if id == PROXY_ID then 0 else |s.past|) && s.cur.restarts <= maxRestarts
  }

  ghost predicate SlotSound(id: string, s: Slot, maxRestarts: nat, launched: bool) {
    && Sound(s)
    && InBudget(id, s, maxRestarts)
    && (launched <==> !s.cur.phase.Prepared?)
  }

  lemma SlotRun(id: string, s: Slot, maxRestarts: nat, lifespan: bool)
    requires s == NewSlot(id != PROXY_ID)
    ensures SlotSound(id, s, maxRestarts, false)
    ensures SlotSound(id, Run(s, lifespan), maxRestarts, true)
    ensures !Dead(s) && !Dead(Run(s, lifespan)) && Run(s, lifespan).cur.restarts == s.cur.restarts == 0
  {
    SoundNew(id != PROXY_ID, lifespan);
  }

  lemma SlotTerminate(id: string, s: Slot, maxRestarts: nat)
    requires SlotSound(id, s, maxRestarts, true)
    ensures SlotSound(id, Terminate(s), maxRestarts, true)
    ensures Terminate(s).cur.restarts == s.cur.restarts
    ensures Dead(Terminate(s)) == Dead(s)
    ensures Dead(s) || Owed(Terminate(s))
  {
    SoundTerminate(s);
  }

  lemma SlotHappen(id: string, s: Slot, k: nat, ev: ProcEvent, maxRestarts: nat)
    requires SlotSound(id, s, maxRestarts, true) && k <= |s.past| && CanHappen(ProcAt(s, k), ev)
    ensures var t := Happen(s, k, ev);
            && SlotSound(id, t, maxRestarts, true) && t.cur.restarts == s.cur.restarts
            && Dead(t) == Dead(s) && (Owed(s) ==> Owed(t))
  {
    hide LogInOrder;
    SoundHappen(s, k, ev);
  }

  /** Taking an event off the channel and acting on it as the supervisor does. */
  lemma SlotRecv(id: string, s: Slot, maxRestarts: nat)
    requires SlotSound(id, s, maxRestarts, true)
    ensures s.exceeded > 0 ==>
              var taken := s.(exceeded := s.exceeded - 1);
              SlotReceived(id, s, taken, maxRestarts) && SlotReceived(id, s, Terminate(taken), maxRestarts)
    ensures s.needsInterrupt > 0 ==>
              SlotReceived(id, s, Terminate(s.(needsInterrupt := s.needsInterrupt - 1)), maxRestarts)
    ensures s.needsTermination > 0 ==>
              SlotReceived(id, s, ForceTerminate(s.(needsTermination := s.needsTermination - 1)), maxRestarts)
  {
    hide *;
    Unprepared(id, s, maxRestarts);
    if s.exceeded > 0 {
      SoundLimit(s);
      Received(id, s, s.(exceeded := s.exceeded - 1), maxRestarts);
      Received(id, s, Terminate(s.(exceeded := s.exceeded - 1)), maxRestarts);
    }
    if s.needsInterrupt > 0 {
      SoundInterruptAgain(s);
      Received(id, s, Terminate(s.(needsInterrupt := s.needsInterrupt - 1)), maxRestarts);
    }
    if s.needsTermination > 0 {
      SoundKill(s);
      Received(id, s, ForceTerminate(s.(needsTermination := s.needsTermination - 1)), maxRestarts);
    }
  }

  lemma Unprepared(id: string, s: Slot, maxRestarts: nat)
    requires SlotSound(id, s, maxRestarts, true)
    ensures Sound(s) && !s.cur.phase.Prepared?
  {
    hide Sound;
  }

  lemma Received(id: string, s: Slot, t: Slot, maxRestarts: nat)
    requires SlotSound(id, s, maxRestarts, true)
    requires SameProcess(s, t) && Sound(t) && Dead(t) == Dead(s) && (Owed(s) ==> Owed(t))
    ensures SlotReceived(id, s, t, maxRestarts)
  {
    hide Sound;
    hide Owed;
  }

  ghost predicate SlotReceived(id: string, s: Slot, t: Slot, maxRestarts: nat) {
    && SlotSound(id, t, maxRestarts, true) && t.cur.restarts == s.cur.restarts
    && Dead(t) == Dead(s) && (Owed(s) ==> Owed(t))
  }

  lemma SlotReap(id: string, s: Slot, k: nat, maxRestarts: nat)
    requires SlotSound(id, s, maxRestarts, true) && EndPending(s, k) && WaitReturns(Reap(s, k))
    ensures !Dead(s) && k == |s.past| && Status(Reap(s, k).cur) == Terminated
    ensures SlotSound(id, Reap(s, k), maxRestarts, true) && Dead(Reap(s, k))
    ensures Reap(s, k).cur.restarts == s.cur.restarts && Reap(s, k).past == s.past
  {
    OneEnd(s, k);
    SoundReap(s, k);
  }

  lemma SlotRelaunch(id: string, s: Slot, maxRestarts: nat, restarts: nat, lifespan: bool)
    requires SlotSound(id, s, maxRestarts, true) && Dead(s)
    requires restarts == (if id == PROXY_ID then 0 else s.cur.restarts + 1) <= maxRestarts
    ensures var t := Relaunch(s, restarts, true, lifespan);
            SlotSound(id, t, maxRestarts, true) && !Dead(t) && t.cur.restarts == restarts && t.past == s.past + [s.cur]
  {
    SoundRelaunch(s, restarts, true, lifespan);
  }

  ghost predicate SlotsSound(p: Pool, launched: bool) {
    forall id | id in p.slots :: SlotSound(id, p.slots[id], p.maxRestarts, launched)
  }

  ghost predicate PoolSound(p: Pool, launched: bool) {
    && SlotsSound(p, launched)
    && (PROXY_ID in p.slots <==> p.proxied)
    && (exists id :: id in p.slots && id != PROXY_ID)
    && p.workerRestarts == Sum(p.slots, RestartsOf)
  }

  ghost predicate NoDeadWorker(p: Pool) {
    forall id | id in p.slots && id != PROXY_ID :: !Dead(p.slots[id])
  }

  /** Every worker that is not permanently dead has its end on its way. */
  ghost predicate WorkersOwed(p: Pool) {
    forall id | id in p.slots && id != PROXY_ID :: Dead(p.slots[id]) || Owed(p.slots[id])
  }

  /** `q` is `p` with the slot `id` replaced and the restart counter moved accordingly. */
  predicate Replaced(p: Pool, q: Pool, id: string) {
    && id in p.slots && id in q.slots
    && q.slots == p.slots[id := q.slots[id]]
    && q.proxied == p.proxied && q.maxRestarts == p.maxRestarts
    && q.workerRestarts == p.workerRestarts + q.slots[id].cur.restarts - p.slots[id].cur.restarts
  }

  lemma SoundAt(p: Pool, id: string)
    requires PoolSound(p, true) && id in p.slots
    ensures SlotSound(id, p.slots[id], p.maxRestarts, true)
  {
  }

  lemma ReplacedSound(p: Pool, q: Pool, id: string)
    requires PoolSound(p, true) && Replaced(p, q, id)
    requires SlotSound(id, q.slots[id], q.maxRestarts, true)
    ensures PoolSound(q, true)
  {
    hide Sound;
    Update(p.slots, RestartsOf, id, q.slots[id]);
    var w :| w in p.slots && w != PROXY_ID;
    assert w in q.slots;
    forall i | i in q.slots ensures SlotSound(i, q.slots[i], q.maxRestarts, true) {
      if i != id {
        assert SlotSound(i, p.slots[i], p.maxRestarts, true);
      }
    }
  }

  lemma ReplacedCounts(p: Pool, q: Pool, id: string)
    requires Replaced(p, q, id)
    ensures |q.slots| == |p.slots|
    ensures DeadCount(q) == DeadCount(p) + DeadBit(q.slots[id]) - DeadBit(p.slots[id])
  {
    Update(p.slots, DeadBit, id, q.slots[id]);
    assert q.slots.Keys == p.slots.Keys;
    assert |q.slots.Keys| == |p.slots.Keys|;
  }

  lemma ReplacedOwed(p: Pool, q: Pool, id: string)
    requires Replaced(p, q, id) && WorkersOwed(p)
    requires id == PROXY_ID || Dead(q.slots[id]) || Owed(q.slots[id])
    ensures WorkersOwed(q)
  {
  }

  lemma DeadCountRange(p: Pool)
    ensures 0 <= DeadCount(p) <= |p.slots|
    ensures DeadCount(p) == |p.slots| ==> forall id | id in p.slots :: Dead(p.slots[id])
    ensures DeadCount(p) == 0 ==> forall id | id in p.slots :: !Dead(p.slots[id])
  {
    Ones(p.slots, (s: Slot) => 1);
    Bound(p.slots, DeadBit, (s: Slot) => 1);
    Bound(p.slots, (s: Slot) => 0, DeadBit);
    Zeros(p.slots, (s: Slot) => 0);
  }
}
