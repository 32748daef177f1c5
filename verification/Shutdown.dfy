/**
 The shutdown loop. A weight on states bounds how many steps it can take, every owed slot
 has a step that somebody is bound to take, and the proxy decides whether the loop can hang.
 */
module Shutdown {
  import opened Sums
  import opened Worker
  import opened Pool
  import opened Supervisor
  import opened Invariant

  // ----- a weight that every step lowers

  function PhaseWeight(phase: Phase): nat {
    match phase
    case Prepared => 3
    case Starting => 2
    case Live => 1
    case _ => 0
  }

  function ProcWeight(p: Proc): nat {
    2 * p.timers + (if p.limiter then 2 else 0) + (if p.drained then 0 else 1) + PhaseWeight(p.phase)
  }

  function PastWeight(past: seq<Proc>): nat {
    if past == [] then 0 else PastWeight(past[..|past| - 1]) + ProcWeight(past[|past| - 1])
  }

  function SlotWeight(s: Slot): int {
    PastWeight(s.past) + ProcWeight(s.cur)
    + 3 * s.needsInterrupt + s.needsTermination + s.exceeded + (if Dead(s) then 0 else 4)
  }

  ghost function PoolWeight(i: Info): int { Sum(i.pool.slots, SlotWeight) }

  ghost function Weight(s: State): int { Sum(s.pools, PoolWeight) }

  lemma {:induction false} PastUpdate(past: seq<Proc>, k: nat, p: Proc)
    requires k < |past|
    ensures PastWeight(past[k := p]) == PastWeight(past) - ProcWeight(past[k]) + ProcWeight(p)
  {
    var n := |past| - 1;
    if k < n {
      PastUpdate(past[..n], k, p);
      assert past[k := p][..n] == past[..n][k := p];
    } else {
      assert past[k := p][..n] == past[..n];
    }
  }

  lemma HappenWeighs(s: Slot, k: nat, ev: ProcEvent)
    requires k <= |s.past| && CanHappen(ProcAt(s, k), ev)
    ensures ev.Emit? ==> SlotWeight(Happen(s, k, ev)) == SlotWeight(s)
    ensures !ev.Emit? ==> SlotWeight(Happen(s, k, ev)) < SlotWeight(s)
  {
    var p, q := ProcAt(s, k), ProcAfter(ProcAt(s, k), ev);
    ProcWeighs(p, ev);
    hide ProcWeight;
    if k < |s.past| {
      PastUpdate(s.past, k, q);
    }
  }

  /** What the process loses in weight, and the slot gains by an event it sends. */
  lemma ProcWeighs(p: Proc, ev: ProcEvent)
    requires CanHappen(p, ev)
    ensures ProcWeight(ProcAfter(p, ev)) <= ProcWeight(p) - match ev case Emit(_) => 0 case TimerFires => 2 case LimiterFires => 2 case _ => 1
    ensures ev.Emit? ==> ProcAfter(p, ev) == p
    ensures p.phase.Reaped? <==> ProcAfter(p, ev).phase.Reaped?
  {
  }

  lemma TerminateWeighs(s: Slot)
    ensures SlotWeight(Terminate(s)) <= SlotWeight(s) + 3
    ensures !s.cur.phase.Prepared? && !s.cur.phase.Starting? ==> SlotWeight(Terminate(s)) <= SlotWeight(s) + 2
  {
  }

  lemma ReapWeighs(s: Slot)
    requires s.cur.phase.Exited?
    ensures SlotWeight(Reap(s, |s.past|)) == SlotWeight(s) - 4
  {
  }

  lemma WeightBounded(s: State)
    ensures Weight(s) >= 0
  {
    forall p | p in s.pools ensures PoolWeight(s.pools[p]) >= 0 {
      var slots := s.pools[p].pool.slots;
      Bound(slots, (x: Slot) => 0, SlotWeight);
      Zeros(slots, (x: Slot) => 0);
    }
    Bound(s.pools, (i: Info) => 0, PoolWeight);
    Zeros(s.pools, (i: Info) => 0);
  }

  // ----- which steps count

  /**
   A step of the shutdown that gets something done: not a log line, not a further cancel of
   the context, and not the request of a process without a PID to be asked again.
   */
  predicate Productive(s: State, a: Action) {
    && Enabled(s, a) && s.stage.Stopping?
    && !a.CancelContext?
    && !(a.World? && a.ev.Emit?)
    && !(a.RecvNeedsInterrupt? && Status(SlotOf(s, a.pool, a.id).cur) == PrepareWorkers)
  }

  /** All that is possible in the shutdown is productive, but for lines, cancels and requests sent back. */
  lemma WhatIsProductive(s: State, a: Action)
    requires s.stage.Stopping? && Enabled(s, a)
    ensures Productive(s, a) <==>
            match a
            case World(_, _, _, ev) => !ev.Emit?
            case RecvNeedsInterrupt(p, id) => SlotOf(s, p, id).cur.phase != Phase.Starting && SlotOf(s, p, id).cur.phase != Phase.Prepared
            case CancelContext => false
            case _ => true
  {
  }

  /** A slot's weight moves, and nothing else in the system does. */
  lemma SlotMoves(s: State, p: string, id: string, j: Info)
    requires HasSlot(s, p, id) && id in j.pool.slots && j.pool.slots == s.pools[p].pool.slots[id := j.pool.slots[id]]
    ensures Weight(WithInfo(s, p, j)) == Weight(s) + SlotWeight(j.pool.slots[id]) - SlotWeight(SlotOf(s, p, id))
  {
    hide SlotWeight;
    Update(s.pools[p].pool.slots, SlotWeight, id, j.pool.slots[id]);
    Update(s.pools, PoolWeight, p, j);
  }

  lemma WorldWeighs(s: State, p: string, id: string, k: nat, ev: ProcEvent)
    requires Enabled(s, World(p, id, k, ev))
    ensures Weight(Apply(s, World(p, id, k, ev))) <= Weight(s) - (if ev.Emit? then 0 else 1)
  {
    hide SlotWeight;
    hide Happen;
    HappenWeighs(SlotOf(s, p, id), k, ev);
    SlotMoves(s, p, id, OnSlot(s.pools[p], id, Happen(SlotOf(s, p, id), k, ev)));
  }

  lemma RecvWeighs(s: State, a: Action)
    requires Enabled(s, a) && s.stage.Stopping?
    requires a.RecvExceeded? || a.RecvNeedsInterrupt? || a.RecvNeedsTermination?
    ensures Weight(Apply(s, a)) <= Weight(s) - (if Productive(s, a) then 1 else 0)
  {
    var slot := SlotOf(s, a.pool, a.id);
    var j := Apply(s, a).pools[a.pool];
    SlotMoves(s, a.pool, a.id, j);
    if a.RecvNeedsInterrupt? {
      TerminateWeighs(TakeInterrupt(slot));
    }
  }

  lemma EndWeighs(s: State, p: string, id: string, k: nat, proxyFails: bool)
    requires Inv(s) && s.stage.Stopping? && Enabled(s, RecvEnd(p, id, k, proxyFails))
    ensures Weight(Apply(s, RecvEnd(p, id, k, proxyFails))) <= Weight(s) - 1
  {
    hide InfoInv;
    hide SlotWeight;
    hide HandleProcessEnd;
    hide Reap;
    hide Terminate;
    hide Apply;
    var i := s.pools[p];
    var slot := SlotOf(s, p, id);
    EndIsCurrent(s, p, id, k);
    ReapWeighs(slot);
    var j := EndCounted(i, id, k);
    var reaped := OnSlot(i, id, Reap(slot, k));
    SlotMoves(s, p, id, reaped);
    var u := WithInfo(s, p, reaped);
    if j.pool.slots != reaped.pool.slots {
      TerminateWeighs(reaped.pool.slots[PROXY_ID]);
      SlotMoves(u, p, PROXY_ID, j);
      assert WithInfo(u, p, j) == WithInfo(s, p, j);
    } else {
      SlotMoves(s, p, id, j);
    }
    EndPools(s, p, id, k, proxyFails);
  }

  lemma EndPools(s: State, p: string, id: string, k: nat, proxyFails: bool)
    requires s.stage.Stopping? && Enabled(s, RecvEnd(p, id, k, proxyFails)) && InfoInv(s.pools[p], Stopping)
    ensures Apply(s, RecvEnd(p, id, k, proxyFails)).pools == WithInfo(s, p, EndCounted(s.pools[p], id, k)).pools
  {
    hide InfoInv;
    hide HandleProcessEnd;
    hide EndCounted;
    hide CountDeath;
    hide Reap;
    StoppingEnd(s.pools[p], id, k, proxyFails);
  }

  lemma EndIsCurrent(s: State, p: string, id: string, k: nat)
    requires Inv(s) && !s.stage.Ready? && HasSlot(s, p, id) && EndPending(SlotOf(s, p, id), k)
    ensures k == |SlotOf(s, p, id).past| && SlotOf(s, p, id).cur.phase.Exited?
  {
    hide Sound;
    assert InfoInv(s.pools[p], s.stage);
    SoundAt(s.pools[p].pool, id);
    OneEnd(SlotOf(s, p, id), k);
  }

  /** No step of the shutdown raises the weight, and every productive one lowers it. */
  lemma StepWeighs(s: State, a: Action)
    requires Inv(s) && Interrupted(s.stage)
    ensures Weight(Step(s, a)) <= Weight(s) - (if Productive(s, a) then 1 else 0)
    ensures Interrupted(Step(s, a).stage)
  {
    hide Inv;
    hide Weight;
    if Enabled(s, a) {
      match a
      case World(p, id, k, ev) => WorldWeighs(s, p, id, k, ev);
      case RecvEnd(p, id, k, proxyFails) => EndWeighs(s, p, id, k, proxyFails); StepStaysInterrupted(s, a);
      case RecvExceeded(_, _) => RecvWeighs(s, a);
      case RecvNeedsInterrupt(_, _) => RecvWeighs(s, a);
      case RecvNeedsTermination(_, _) => RecvWeighs(s, a);
      case CancelContext => assert Apply(s, a).pools == s.pools; CancelWeighs(s);
      case _ =>
    }
  }

  lemma CancelWeighs(s: State)
    ensures Weight(Apply(s, CancelContext)) == Weight(s)
  {
  }

  lemma StepStaysInterrupted(s: State, a: Action)
    requires Inv(s) && s.stage.Stopping? && Enabled(s, a) && a.RecvEnd?
    ensures Interrupted(Apply(s, a).stage)
  {
    hide InfoInv;
    hide CountDeath;
    hide HandleProcessEnd;
    EndKeeps(s, a.pool, a.id, a.k, a.proxyFails);
  }

  /** How many productive steps a run takes. */
  ghost function ProductiveSteps(s: State, run: seq<Action>): nat
    decreases |run|
  {
    if run == [] then 0
    else
      var n := |run| - 1;
      ProductiveSteps(s, run[..n]) + (if Productive(Exec(s, run[..n]), run[n]) then 1 else 0)
  }

  /**
   Termination: from any state of the shutdown loop, no run of any length takes more
   productive steps than the weight of that state, although counting a death may put a new
   interrupt on the channel.
   */
  lemma {:induction false} DrainBound(s: State, run: seq<Action>)
    requires Inv(s) && Interrupted(s.stage)
    ensures ProductiveSteps(s, run) <= Weight(s) - Weight(Exec(s, run)) <= Weight(s)
    ensures Interrupted(Exec(s, run).stage)
    decreases |run|
  {
    WeightBounded(Exec(s, run));
    if run != [] {
      var n := |run| - 1;
      DrainBound(s, run[..n]);
      InvRun(s, run[..n]);
      StepWeighs(Exec(s, run[..n]), run[n]);
    }
  }
}
