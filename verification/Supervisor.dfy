/**
 The supervisor as a labelled transition system. A state holds the pools, the supervisor's
 counters and the point its `Run` has reached; an action is one thing the world or the
 supervisor does. Everything nondeterministic is in the choice of the next action, so a run
 is a sequence of actions, and an action that is not enabled leaves the state unchanged.
 */
module Supervisor {
  import opened Sums
  import opened Worker
  import opened Pool

  /** `Serving` is the first event loop of `Run` and `Stopping` the second. */
  datatype Stage = Ready | Serving | Stopping | Returned(failed: bool) | Panicked

  /** What the supervisor keeps about a pool, with the pool's two state gauges. */
  datatype Info = Info(
    pool: Pool,
    total: int,
    running: int,
    gaugeRunning: int,
    gaugeTerminated: int,
    proxyStops: seq<int>)  // history: `running` at each stop of the proxy after a counted death

  datatype State = State(
    stage: Stage,
    ctxDone: bool,
    terminated: int,
    total: int,
    pools: map<string, Info>)

  datatype Action =
    | Launch
    | World(pool: string, id: string, k: nat, ev: ProcEvent)
    | RecvEnd(pool: string, id: string, k: nat, proxyFails: bool)
    | RecvExceeded(pool: string, id: string)
    | RecvNeedsInterrupt(pool: string, id: string)
    | RecvNeedsTermination(pool: string, id: string)
    | CancelContext
    | SelectDone

  // ----- the handlers, on the part of the state they touch

  predicate SameInfoShape(i: Info, j: Info) {
    SameShape(i.pool, j.pool) && j.total == i.total
  }

  function RunPool(i: Info): (j: Info)
    ensures SameInfoShape(i, j)
  {
    i.(pool := RunAll(i.pool), gaugeRunning := i.gaugeRunning + |i.pool.slots|)
  }

  function DrainPool(i: Info): (j: Info)
    ensures SameInfoShape(i, j)
  {
    i.(pool := InterruptAll(i.pool))
  }

  datatype EndResult = Nil | TooMany | NoProxy | AlreadyTerminating | Panic

  /** `handleProcessEnd`: wait for the logs, then restart unless the supervisor is stopping. */
  function HandleProcessEnd(i: Info, id: string, terminating: bool, proxyFails: bool): (r: (Info, EndResult))
    requires id in i.pool.slots
    ensures SameInfoShape(i, r.0)
    ensures r.1.Panic? <==> !Ended(i.pool.slots[id].cur)
  {
    if Status(i.pool.slots[id].cur) != Terminated then (i, Panic)
    else
      var j := i.(gaugeRunning := i.gaugeRunning - 1, gaugeTerminated := i.gaugeTerminated + 1);
      if terminating then (j, AlreadyTerminating)
      else
        var (p, r) := RestartWorker(j.pool, id, proxyFails);
        (j.(pool := p), match r case Restarted => Nil case TooManyRestarts => TooMany case ProxyFailed => NoProxy)
  }

  /** `handleProcessTerminationDuringShutdown`: count a death, and stop the proxy at the first one. */
  function CountDeath(i: Info): (j: Info)
    requires i.pool.proxied ==> PROXY_ID in i.pool.slots
    ensures SameInfoShape(i, j)
  {
    var j := i.(running := i.running - 1);
    if j.pool.proxied && j.running == j.total - 1
    then j.(pool := InterruptWorker(j.pool, PROXY_ID), proxyStops := j.proxyStops + [j.running])
    else j
  }

  function CountRestart(i: Info): (j: Info)
    ensures SameInfoShape(i, j)
  {
    i.(gaugeRunning := i.gaugeRunning + 1, gaugeTerminated := i.gaugeTerminated - 1)
  }

  /** An unreceived event of a slot is taken off the channel. */
  function TakeInterrupt(s: Slot): Slot
    requires s.needsInterrupt > 0
  { s.(needsInterrupt := s.needsInterrupt - 1) }

  function TakeTermination(s: Slot): Slot
    requires s.needsTermination > 0
  { s.(needsTermination := s.needsTermination - 1) }

  function TakeExceeded(s: Slot): Slot
    requires s.exceeded > 0
  { s.(exceeded := s.exceeded - 1) }

  function OnSlot(i: Info, id: string, s: Slot): (j: Info)
    requires id in i.pool.slots
    ensures SameInfoShape(i, j)
  {
    i.(pool := WithSlot(i.pool, id, s))
  }

  // ----- the transition system

  predicate HasSlot(s: State, p: string, id: string) {
    p in s.pools && id in s.pools[p].pool.slots
  }

  function SlotOf(s: State, p: string, id: string): Slot
    requires HasSlot(s, p, id)
  {
    s.pools[p].pool.slots[id]
  }

  predicate Receiving(s: State) {
    s.stage.Serving? || s.stage.Stopping?
  }

  predicate Enabled(s: State, a: Action) {
    match a
    case Launch => s.stage.Ready?
    case World(p, id, k, ev) =>
      && !s.stage.Ready? && HasSlot(s, p, id)
      && k <= |SlotOf(s, p, id).past| && CanHappen(ProcAt(SlotOf(s, p, id), k), ev)
    case RecvEnd(p, id, k, _) =>
      && Receiving(s) && HasSlot(s, p, id) && EndPending(SlotOf(s, p, id), k)
      && WaitReturns(Reap(SlotOf(s, p, id), k))
      && (s.pools[p].pool.proxied ==> PROXY_ID in s.pools[p].pool.slots)
    case RecvExceeded(p, id) => Receiving(s) && HasSlot(s, p, id) && SlotOf(s, p, id).exceeded > 0
    case RecvNeedsInterrupt(p, id) => Receiving(s) && HasSlot(s, p, id) && SlotOf(s, p, id).needsInterrupt > 0
    case RecvNeedsTermination(p, id) => Receiving(s) && HasSlot(s, p, id) && SlotOf(s, p, id).needsTermination > 0
    case CancelContext => true
    case SelectDone => s.stage.Serving? && s.ctxDone
  }

  /**
   A kill is received for an incarnation without a PID. It goes to PID 0, that is to the
   process group of monoceros itself, and to none of the managed processes.
   */
  predicate HitsItself(s: State, a: Action) {
    a.RecvNeedsTermination? && Enabled(s, a) && !HasPid(SlotOf(s, a.pool, a.id).cur)
  }

  function WithInfo(s: State, p: string, i: Info): State {
    s.(pools := s.pools[p := i])
  }

  ghost function RunningOf(i: Info): int { RunningCount(i.pool) }
  function TotalOf(i: Info): int { i.total }
  function DeathsOf(i: Info): int { i.total - i.running }

  /** The test of the second loop, and the sanity check after it. */
  ghost function LoopTest(s: State): State {
    if s.stage.Stopping? && s.terminated == s.total
    then s.(stage := Returned(Sum(s.pools, RunningOf) != 0))
    else s
  }

  /** No action changes which pools exist, which slots they have, or how large they are. */
  predicate SameStateShape(s: State, t: State) {
    && t.pools.Keys == s.pools.Keys && t.total == s.total
    && forall p | p in s.pools :: SameInfoShape(s.pools[p], t.pools[p])
  }

  ghost function ApplyEnd(s: State, p: string, id: string, k: nat, proxyFails: bool): (t: State)
    requires Enabled(s, RecvEnd(p, id, k, proxyFails))
    ensures SameStateShape(s, t)
  {
    var i := OnSlot(s.pools[p], id, Reap(SlotOf(s, p, id), k));
    var (j, r) := HandleProcessEnd(i, id, s.stage.Stopping?, proxyFails);
    match r
    case Panic => s.(stage := Panicked)
    case Nil => WithInfo(s, p, if s.stage.Serving? then CountRestart(j) else j)
    case _ =>
      LoopTest(WithInfo(s, p, CountDeath(j)).(
               terminated := s.terminated + 1,
               ctxDone := s.ctxDone || (s.stage.Serving? && r.TooMany?)))
  }

  ghost function Apply(s: State, a: Action): (t: State)
    requires Enabled(s, a)
    ensures SameStateShape(s, t)
  {
    match a
    case Launch => s.(stage := Serving, pools := map p | p in s.pools :: RunPool(s.pools[p]))
    case World(p, id, k, ev) => WithInfo(s, p, OnSlot(s.pools[p], id, Happen(SlotOf(s, p, id), k, ev)))
    case RecvEnd(p, id, k, proxyFails) => ApplyEnd(s, p, id, k, proxyFails)
    case RecvExceeded(p, id) =>
      var taken := TakeExceeded(SlotOf(s, p, id));
      WithInfo(s, p, OnSlot(s.pools[p], id, if s.stage.Serving? then Terminate(taken) else taken))
    case RecvNeedsInterrupt(p, id) =>
      WithInfo(s, p, OnSlot(s.pools[p], id, Terminate(TakeInterrupt(SlotOf(s, p, id)))))
    case RecvNeedsTermination(p, id) =>
      var i := OnSlot(s.pools[p], id, TakeTermination(SlotOf(s, p, id)));
      WithInfo(s, p, i.(pool := ForceTerminateWorker(i.pool, id)))
    case CancelContext => s.(ctxDone := true)
    case SelectDone =>
      s.(stage := if s.terminated == s.total then Returned(false) else Stopping,
         pools := map p | p in s.pools :: DrainPool(s.pools[p]))
  }

  ghost function Step(s: State, a: Action): (t: State)
    ensures SameStateShape(s, t)
  {
    if Enabled(s, a) then Apply(s, a) else s
  }

  /** The state after a run. */
  ghost function Exec(s: State, run: seq<Action>): (t: State)
    ensures SameStateShape(s, t)
    decreases |run|
  {
    if run == [] then s else Step(Exec(s, run[..|run| - 1]), run[|run| - 1])
  }

  lemma ExecAppend(s: State, run: seq<Action>, a: Action)
    ensures Exec(s, run + [a]) == Step(Exec(s, run), a)
  {
    assert (run + [a])[..|run|] == run;
  }

  // ----- the states `Run` starts from

  predicate FreshSlot(id: string, s: Slot) {
    s == NewSlot(id != PROXY_ID)
  }

  predicate Fresh(i: Info) {
    && i.pool.state == PoolState.Prepared
    && (forall id | id in i.pool.slots :: FreshSlot(id, i.pool.slots[id]))
    && (PROXY_ID in i.pool.slots <==> i.pool.proxied)
    && (exists id :: id in i.pool.slots && id != PROXY_ID)
    && i.pool.workerRestarts == i.pool.proxyRestarts == i.pool.sigkills == i.pool.ownKills == 0
    && i.total == i.running == |i.pool.slots|
    && i.gaugeRunning == i.gaugeTerminated == 0
    && i.proxyStops == []
  }

  ghost predicate Initial(s: State) {
    && s.stage.Ready?
    && s.terminated == 0
    && s.total == Sum(s.pools, TotalOf)
    && (forall p | p in s.pools :: Fresh(s.pools[p]))
  }
}
