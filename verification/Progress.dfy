/**
 Whether the shutdown loop can hang. Steps somebody is bound to take, the proxies that may
 be left without anyone to stop them, and the exact condition between the two.
 */
module Progress {
  import opened Sums
  import opened Worker
  import opened Pool
  import opened Supervisor
  import opened Invariant
  import opened Shutdown

  /** A process ending of its own accord: nobody is bound to make this happen. */
  predicate Spontaneous(s: State, a: Action) {
    && a.World? && Enabled(s, a)
    && (a.ev.StartFail? || (a.ev.Exit? && !ProcAt(SlotOf(s, a.pool, a.id), a.k).killed))
  }

  /**
   A productive step that somebody is bound to take: a blocked sender, an armed timer, a
   started command getting its PID, a stream closing after the exit, a killed process ending.
   */
  predicate Forced(s: State, a: Action) {
    Productive(s, a) && !Spontaneous(s, a)
  }

  /** All that is productive is forced, but for a process that fails to start or ends without having been killed. */
  lemma WhatIsForced(s: State, a: Action)
    requires Productive(s, a)
    ensures Forced(s, a) <==>
            match a
            case World(p, id, k, StartFail) => false
            case World(p, id, k, Exit) => ProcAt(SlotOf(s, p, id), k).killed
            case _ => true
  {
  }

  /** A forced step that is not a kill of the program itself. */
  predicate Due(s: State, a: Action) {
    Forced(s, a) && !HitsItself(s, a)
  }

  /** For an owed slot, the step that discharges what it is owed. */
  function NextMove(p: string, id: string, s: Slot): Action {
    var k := |s.past|;
    match s.cur.phase
    case Live =>
      if s.needsInterrupt > 0 then RecvNeedsInterrupt(p, id)
      else if s.needsTermination > 0 then RecvNeedsTermination(p, id)
      else if s.cur.timers > 0 then World(p, id, k, TimerFires)
      else World(p, id, k, Exit)
    case Exited => if s.cur.streaming && !s.cur.drained then World(p, id, k, StreamsClose) else RecvEnd(p, id, k, false)
    case _ => World(p, id, k, Start)
  }

  lemma OwedMoves(s: State, p: string, id: string)
    requires Inv(s) && s.stage.Stopping? && HasSlot(s, p, id) && Owed(SlotOf(s, p, id))
    ensures Due(s, NextMove(p, id, SlotOf(s, p, id)))
  {
    ProxyHasSlot(s, p);
    MoveOfOwed(s, p, id, SlotOf(s, p, id));
  }

  lemma MoveOfOwed(s: State, p: string, id: string, slot: Slot)
    requires s.stage.Stopping? && HasSlot(s, p, id) && slot == SlotOf(s, p, id) && Owed(slot)
    requires s.pools[p].pool.proxied ==> PROXY_ID in s.pools[p].pool.slots
    ensures Due(s, NextMove(p, id, slot))
  {
    var k := |slot.past|;
    assert ProcAt(slot, k) == slot.cur;
    if slot.cur.phase.Exited? && !(slot.cur.streaming && !slot.cur.drained) {
      assert WaitReturns(Reap(slot, k));
    }
  }

  lemma ProxyHasSlot(s: State, p: string)
    requires Inv(s) && p in s.pools
    ensures s.pools[p].pool.proxied <==> PROXY_ID in s.pools[p].pool.slots
  {
    hide SlotsSound;
    hide Books;
    assert InfoInv(s.pools[p], s.stage);
  }

  /**
   The proxy of a pool is no obstacle: there is none, no death of the pool has been counted
   yet, or the proxy is permanently dead or has its end on its way.
   */
  predicate ProxyOk(i: Info) {
    i.pool.proxied && PROXY_ID in i.pool.slots ==>
      i.running == i.total || Dead(i.pool.slots[PROXY_ID]) || Owed(i.pool.slots[PROXY_ID])
  }

  predicate ProxiesOk(s: State) {
    forall p | p in s.pools :: ProxyOk(s.pools[p])
  }

  /** An interrupted proxy is no obstacle, whatever else has happened to its slot. */
  lemma InterruptedProxyOk(s: State, p: string)
    requires Inv(s) && HasSlot(s, p, PROXY_ID) && SlotOf(s, p, PROXY_ID).cur.cancelled
    ensures ProxyOk(s.pools[p])
  {
    hide LogInOrder;
    assert InfoInv(s.pools[p], s.stage);
    assert SlotSound(PROXY_ID, SlotOf(s, p, PROXY_ID), s.pools[p].pool.maxRestarts, !s.stage.Ready?);
  }

  /** A pool with processes left has an owed slot. */
  lemma OwedSlot(i: Info) returns (id: string)
    requires InfoInv(i, Stopping) && ProxyOk(i) && i.running != 0
    ensures id in i.pool.slots && Owed(i.pool.slots[id])
  {
    hide Sound;
    BooksRange(i, Stopping);
    if w :| w in i.pool.slots && w != PROXY_ID && !Dead(i.pool.slots[w]) {
      id := w;
    } else {
      var w :| w in i.pool.slots && w != PROXY_ID;
      assert Dead(i.pool.slots[w]) && i.running != i.total;
      if forall d | d in i.pool.slots :: Dead(i.pool.slots[d]) {
        Ones(i.pool.slots, DeadBit);
      }
      id := PROXY_ID;
    }
  }

  /** In the shutdown loop, unless a proxy stands in the way, some step is bound to happen. */
  lemma SomethingForced(s: State)
    requires Inv(s) && s.stage.Stopping? && ProxiesOk(s)
    ensures exists a :: Due(s, a)
  {
    hide InfoInv;
    hide ProxyOk;
    if forall p | p in s.pools :: s.pools[p].running == 0 {
      Congruent(s.pools, TotalOf, s.pools, DeathsOf);
    }
    var p :| p in s.pools && s.pools[p].running != 0;
    assert ProxyOk(s.pools[p]) && InfoInv(s.pools[p], s.stage);
    var id := OwedSlot(s.pools[p]);
    OwedMoves(s, p, id);
  }

  // ----- proxies that are no obstacle stay that way

  lemma SlotStepOk(i: Info, j: Info, id: string)
    requires ProxyOk(i) && id in i.pool.slots && j.pool.proxied == i.pool.proxied
    requires id in j.pool.slots && j.pool.slots == i.pool.slots[id := j.pool.slots[id]]
    requires j.running == i.running && j.total == i.total
    requires Dead(j.pool.slots[id]) == Dead(i.pool.slots[id])
    requires Owed(i.pool.slots[id]) ==> Owed(j.pool.slots[id])
    ensures ProxyOk(j)
  {
    hide Owed;
  }

  lemma EndStepOk(i: Info, id: string, k: nat)
    requires InfoInv(i, Stopping) && ProxyOk(i) && id in i.pool.slots
    requires EndPending(i.pool.slots[id], k) && WaitReturns(Reap(i.pool.slots[id], k))
    ensures ProxyOk(EndCounted(i, id, k))
  {
    hide SlotsSound;
    hide WorkersOwed;
    hide Owed;
    hide Reap;
    hide Terminate;
    ReapPool(i.pool, id, k);
    DeadCountRange(i.pool);
    ReapKills(i.pool, id, k);
    if i.pool.proxied {
      InterruptPool(WithSlot(i.pool, id, Reap(i.pool.slots[id], k)), PROXY_ID);
    }
  }

  lemma ReapKills(p: Pool, id: string, k: nat)
    requires PoolSound(p, true) && id in p.slots && EndPending(p.slots[id], k)
    ensures Dead(Reap(p.slots[id], k))
  {
    hide Sound;
    SoundAt(p, id);
    OneEnd(p.slots[id], k);
  }

  lemma OkWorld(s: State, p: string, id: string, k: nat, ev: ProcEvent)
    requires Inv(s) && Enabled(s, World(p, id, k, ev)) && ProxyOk(s.pools[p])
    ensures ProxyOk(Apply(s, World(p, id, k, ev)).pools[p])
  {
    hide PoolSound;
    hide Happen;
    hide ProxyOk;
    assert InfoInv(s.pools[p], s.stage);
    SoundAt(s.pools[p].pool, id);
    SlotHappen(id, SlotOf(s, p, id), k, ev, s.pools[p].pool.maxRestarts);
    SlotStepOk(s.pools[p], OnSlot(s.pools[p], id, Happen(SlotOf(s, p, id), k, ev)), id);
  }

  lemma OkRecv(s: State, a: Action)
    requires Inv(s) && s.stage.Stopping? && Enabled(s, a)
    requires a.RecvExceeded? || a.RecvNeedsInterrupt? || a.RecvNeedsTermination?
    requires ProxyOk(s.pools[a.pool])
    ensures ProxyOk(Apply(s, a).pools[a.pool])
  {
    hide PoolSound;
    hide ProxyOk;
    hide SlotSound;
    hide WorkersOwed;
    hide Books;
    hide Owed;
    hide Terminate;
    hide ForceTerminate;
    var i := s.pools[a.pool];
    assert InfoInv(i, s.stage);
    SoundAt(i.pool, a.id);
    SlotRecv(a.id, SlotOf(s, a.pool, a.id), i.pool.maxRestarts);
    SlotStepOk(i, Apply(s, a).pools[a.pool], a.id);
  }

  lemma OkEnd(s: State, p: string, id: string, k: nat, proxyFails: bool)
    requires Inv(s) && s.stage.Stopping? && Enabled(s, RecvEnd(p, id, k, proxyFails)) && p in s.pools && ProxyOk(s.pools[p])
    ensures var t := Apply(s, RecvEnd(p, id, k, proxyFails));
            p in t.pools && ProxyOk(t.pools[p])
  {
    hide InfoInv;
    hide ProxyOk;
    hide HandleProcessEnd;
    hide EndCounted;
    hide CountDeath;
    assert InfoInv(s.pools[p], Stopping);
    StoppingEnd(s.pools[p], id, k, proxyFails);
    EndStepOk(s.pools[p], id, k);
  }

  /** An action on one pool leaves the others alone; cancelling the context leaves all alone. */
  lemma OtherPool(s: State, a: Action, q: string)
    requires Enabled(s, a) && !a.Launch? && !a.SelectDone? && q in s.pools
    requires a.CancelContext? || a.pool != q
    ensures Apply(s, a).pools[q] == s.pools[q]
  {
    hide HandleProcessEnd;
    hide CountDeath;
    hide Happen;
    hide Terminate;
    hide ForceTerminate;
  }

  lemma OkStep(s: State, a: Action, q: string)
    requires Inv(s) && Interrupted(s.stage) && q in s.pools && ProxyOk(s.pools[q])
    ensures ProxyOk(Step(s, a).pools[q])
  {
    hide Inv;
    hide ProxyOk;
    hide Apply;
    if Enabled(s, a) {
      if a.CancelContext? || a.pool != q {
        OtherPool(s, a, q);
      } else {
        match a
        case World(p, id, k, ev) => OkWorld(s, p, id, k, ev);
        case RecvEnd(p, id, k, proxyFails) => OkEnd(s, p, id, k, proxyFails);
        case RecvExceeded(_, _) => OkRecv(s, a);
        case RecvNeedsInterrupt(_, _) => OkRecv(s, a);
        case RecvNeedsTermination(_, _) => OkRecv(s, a);
      }
    }
  }

  lemma AllOkStep(s: State, a: Action)
    requires Inv(s) && Interrupted(s.stage) && ProxiesOk(s)
    ensures ProxiesOk(Step(s, a))
  {
    hide Inv;
    hide ProxyOk;
    hide Step;
    forall q | q in s.pools ensures ProxyOk(Step(s, a).pools[q]) {
      OkStep(s, a, q);
    }
  }

  lemma {:induction false} OkRun(s: State, run: seq<Action>)
    requires Inv(s) && Interrupted(s.stage) && ProxiesOk(s)
    ensures ProxiesOk(Exec(s, run))
    decreases |run|
  {
    if run != [] {
      var n := |run| - 1;
      OkRun(s, run[..n]);
      InvRun(s, run[..n]);
      DrainBound(s, run[..n]);
      AllOkStep(Exec(s, run[..n]), run[n]);
    }
  }

  /**
   Shutdown never gets stuck: from a state of the shutdown loop whose proxies are no
   obstacle, every run either has returned, without an error and with every slot dead, or
   some step is still bound to happen that does not kill the program itself.
   */
  lemma ShutdownProgress(s: State, run: seq<Action>)
    requires Inv(s) && s.stage.Stopping? && ProxiesOk(s)
    ensures var t := Exec(s, run);
            t.stage == Returned(false) || exists a :: Due(t, a)
  {
    InvRun(s, run);
    OkRun(s, run);
    DrainBound(s, run);
    if Exec(s, run).stage.Stopping? {
      SomethingForced(Exec(s, run));
    }
  }

  /**
   Obligations: once the shutdown has begun, in every state of every run, each worker slot is
   permanently dead or owed its end, and while the loop runs the step that discharges what a
   slot is owed is one somebody is bound to take.
   */
  lemma ShutdownObligations(s: State, run: seq<Action>, p: string, id: string)
    requires Initial(s) && Interrupted(Exec(s, run).stage) && HasSlot(Exec(s, run), p, id)
    ensures var t := Exec(s, run);
            var slot := SlotOf(t, p, id);
            && (id != PROXY_ID ==> Dead(slot) || Owed(slot))
            && (t.stage.Stopping? && Owed(slot) ==> Due(t, NextMove(p, id, slot)))
  {
    hide PoolSound;
    hide Owed;
    hide Due;
    InitialInv(s);
    InvRun(s, run);
    var t := Exec(s, run);
    assert InfoInv(t.pools[p], t.stage);
    if t.stage.Stopping? && Owed(SlotOf(t, p, id)) {
      OwedMoves(t, p, id);
    }
  }

  /**
   The shutdown as a whole: if, when the cancelled context is noticed, no proxy stands in the
   way, then every continuation takes a bounded number of productive steps, and where none of
   them is bound to happen any more, `Run` has returned nil and every slot is dead. Kills that
   hit the program itself are not counted on: until the return another step is always due.
   */
  lemma ShutdownCompletes(s: State, before: seq<Action>, after: seq<Action>)
    requires Initial(s) && Enabled(Exec(s, before), SelectDone) && ProxiesOk(Exec(s, before))
    ensures var u := Step(Exec(s, before), SelectDone);
            var t := Exec(u, after);
            && ProductiveSteps(u, after) <= Weight(u)
            && ((exists a :: Due(t, a)) || (t.stage == Returned(false) && forall p, id | HasSlot(t, p, id) :: Dead(SlotOf(t, p, id))))
  {
    hide InfoInv;
    hide Weight;
    hide ProductiveSteps;
    InitialInv(s);
    InvRun(s, before);
    var r := Exec(s, before);
    var u := Step(r, SelectDone);
    InvStep(r, SelectDone);
    DrainOk(r);
    DrainBound(u, after);
    InvRun(u, after);
    OkRun(u, after);
    var t := Exec(u, after);
    if t.stage.Stopping? {
      SomethingForced(t);
    } else {
      AllDead(t);
    }
  }

  lemma DrainOk(s: State)
    requires Enabled(s, SelectDone) && ProxiesOk(s)
    ensures ProxiesOk(Step(s, SelectDone))
  {
    hide Owed;
    hide Terminate;
    var t := Step(s, SelectDone);
    forall p | p in t.pools ensures ProxyOk(t.pools[p]) {
      assert ProxyOk(s.pools[p]);
    }
  }

  // ----- a proxy nobody stops

  /** A step outside the supervisor's doing, or its end: see `HitsItself`. */
  predicate Disturbs(s: State, a: Action) {
    Spontaneous(s, a) || HitsItself(s, a)
  }

  /** The proxy runs, or is about to, and nothing outstanding is aimed at it. */
  predicate Unasked(s: Slot) {
    && (s.cur.phase.Starting? || s.cur.phase.Live?)
    && s.needsInterrupt == 0 && s.needsTermination == 0
    && s.cur.timers == 0 && !s.cur.killed
  }

  /** In pool `p` a death has been counted already, and its proxy is asked nothing. */
  predicate Abandoned(s: State, p: string) {
    && s.stage.Stopping? && HasSlot(s, p, PROXY_ID)
    && s.pools[p].running != s.pools[p].total
    && Unasked(SlotOf(s, p, PROXY_ID))
  }

  lemma UnaskedWorld(s: Slot, k: nat, ev: ProcEvent)
    requires Sound(s) && Unasked(s) && k <= |s.past| && CanHappen(ProcAt(s, k), ev)
    requires !ev.StartFail? && !(ev.Exit? && !ProcAt(s, k).killed)
    ensures Unasked(Happen(s, k, ev))
  {
    hide LogInOrder;
  }

  lemma AbandonedWorld(s: State, p: string, q: string, id: string, k: nat, ev: ProcEvent)
    requires Inv(s) && Abandoned(s, p) && Enabled(s, World(q, id, k, ev)) && !Spontaneous(s, World(q, id, k, ev))
    ensures Abandoned(Apply(s, World(q, id, k, ev)), p)
  {
    hide Sound;
    hide Happen;
    hide CanHappen;
    hide Unasked;
    hide WorkersOwed;
    hide Books;
    if q == p && id == PROXY_ID {
      assert InfoInv(s.pools[p], s.stage);
      SoundAt(s.pools[p].pool, PROXY_ID);
      UnaskedWorld(SlotOf(s, p, PROXY_ID), k, ev);
    }
  }

  lemma AbandonedEnd(s: State, p: string, q: string, id: string, k: nat, proxyFails: bool)
    requires Inv(s) && Abandoned(s, p) && Enabled(s, RecvEnd(q, id, k, proxyFails))
    ensures Abandoned(Apply(s, RecvEnd(q, id, k, proxyFails)), p)
  {
    hide InfoInv;
    hide HandleProcessEnd;
    hide Reap;
    hide Terminate;
    var a := RecvEnd(q, id, k, proxyFails);
    var t := Apply(s, a);
    EndIsCurrent(s, q, id, k);
    StoppingEnd(s.pools[q], id, k, proxyFails);
    BooksRange(s.pools[p], Stopping);
    assert q == p ==> id != PROXY_ID;
    assert t.pools[p].running != t.pools[p].total && SlotOf(t, p, PROXY_ID) == SlotOf(s, p, PROXY_ID);
    EndKeeps(s, q, id, k, proxyFails);
    assert HasSlot(t, p, PROXY_ID);
    if !t.stage.Stopping? {
      AllDead(t);
    }
  }

  lemma AbandonedStep(s: State, a: Action, p: string)
    requires Inv(s) && Abandoned(s, p) && !Spontaneous(s, a)
    ensures Abandoned(Step(s, a), p)
  {
    hide Inv;
    if Enabled(s, a) {
      match a
      case World(q, id, k, ev) => AbandonedWorld(s, p, q, id, k, ev);
      case RecvEnd(q, id, k, proxyFails) => AbandonedEnd(s, p, q, id, k, proxyFails);
      case RecvExceeded(_, _) =>
      case RecvNeedsInterrupt(_, _) =>
      case RecvNeedsTermination(_, _) =>
      case CancelContext =>
      case _ =>
    }
  }

  /** Nothing of the kind happens in the whole run: no process ends by itself, and no kill is lost. */
  ghost predicate Undisturbed(s: State, run: seq<Action>)
    decreases |run|
  {
    run == [] || (var n := |run| - 1; Undisturbed(s, run[..n]) && !Disturbs(Exec(s, run[..n]), run[n]))
  }

  lemma UndisturbedAppend(s: State, run: seq<Action>, a: Action)
    requires Undisturbed(s, run) && !Disturbs(Exec(s, run), a)
    ensures Undisturbed(s, run + [a])
  {
    assert (run + [a])[..|run|] == run;
  }

  /** An abandoned proxy keeps the supervisor in its loop for as long as no process ends by itself. */
  lemma {:induction false} AbandonedForever(s: State, run: seq<Action>, p: string)
    requires Inv(s) && Abandoned(s, p) && Undisturbed(s, run)
    ensures Abandoned(Exec(s, run), p)
    decreases |run|
  {
    if run != [] {
      var n := |run| - 1;
      AbandonedForever(s, run[..n], p);
      InvRun(s, run[..n]);
      AbandonedStep(Exec(s, run[..n]), run[n], p);
    }
  }

  // ----- kills that find no process

  /** A kill is outstanding that cannot find a process: the current one could not be started. */
  predicate LostKill(s: Slot) {
    Ended(s.cur) && s.cur.failed && s.needsTermination > 0
  }

  ghost predicate NoLostKill(s: State) {
    forall p, id | HasSlot(s, p, id) :: !LostKill(SlotOf(s, p, id))
  }

  /**
   Kills, exactly: a received kill issues SIGKILL to the current process of the slot if and
   only if that process runs. It goes to monoceros itself if and only if the current incarnation
   has no PID, yet or for good, and then it was meant for an earlier one.
   */
  predicate KillLands(t: State, p: string, id: string)
    requires Enabled(t, RecvNeedsTermination(p, id))
  {
    var a := RecvNeedsTermination(p, id);
    var i := OnSlot(t.pools[p], id, TakeTermination(SlotOf(t, p, id)));
    var q := ForceTerminateWorker(i.pool, id);
    var slot := SlotOf(t, p, id);
    && q.slots[id] == TakeTermination(slot).(cur := slot.cur.(killed := slot.cur.killed || slot.cur.phase.Live?))
    && q.ownKills == t.pools[p].pool.ownKills + (if HitsItself(t, a) then 1 else 0)
    && (HitsItself(t, a) <==> slot.cur.phase.Starting? || LostKill(slot))
    && (HitsItself(t, a) ==> slot.past != [])
  }

  lemma LateKill(s: State, run: seq<Action>, p: string, id: string)
    requires Initial(s) && Enabled(Exec(s, run), RecvNeedsTermination(p, id))
    ensures KillLands(Exec(s, run), p, id)
    ensures var t := Exec(s, run);
            Step(t, RecvNeedsTermination(p, id)).pools[p].pool
            == ForceTerminateWorker(OnSlot(t.pools[p], id, TakeTermination(SlotOf(t, p, id))).pool, id)
  {
    hide *;
    InitialInv(s);
    InvRun(s, run);
    var t := Exec(s, run);
    KillEnabled(t, p, id);
    SlotAlive(t, p, id);
    KillStep(t, p, id);
  }

  lemma KillEnabled(t: State, p: string, id: string)
    requires Enabled(t, RecvNeedsTermination(p, id))
    ensures HasSlot(t, p, id) && SlotOf(t, p, id).needsTermination > 0 && Receiving(t) && !t.stage.Ready?
    ensures p in t.pools && id in t.pools[p].pool.slots
  {
  }

  lemma SlotAlive(t: State, p: string, id: string)
    requires Inv(t) && HasSlot(t, p, id)
    ensures Sound(SlotOf(t, p, id)) && (!t.stage.Ready? ==> !SlotOf(t, p, id).cur.phase.Prepared?)
  {
    hide Sound;
    assert InfoInv(t.pools[p], t.stage);
    assert SlotSound(id, SlotOf(t, p, id), t.pools[p].pool.maxRestarts, !t.stage.Ready?);
  }

  lemma KillStep(t: State, p: string, id: string)
    requires Enabled(t, RecvNeedsTermination(p, id))
    requires Sound(SlotOf(t, p, id)) && !SlotOf(t, p, id).cur.phase.Prepared?
    ensures KillLands(t, p, id)
    ensures Step(t, RecvNeedsTermination(p, id)).pools[p].pool
            == ForceTerminateWorker(OnSlot(t.pools[p], id, TakeTermination(SlotOf(t, p, id))).pool, id)
  {
    hide LogInOrder;
  }

  /** What an action may make of a slot once the shutdown has begun. */
  predicate Becomes(s: State, a: Action, p: string, id: string, t: Slot)
    requires HasSlot(s, p, id) && Enabled(s, a)
  {
    var slot := SlotOf(s, p, id);
    || t == slot || t == Terminate(slot)
    || (a.World? && a.pool == p && a.id == id && t == Happen(slot, a.k, a.ev))
    || (a.RecvEnd? && a.pool == p && a.id == id && (t == Reap(slot, a.k) || t == Terminate(Reap(slot, a.k))))
    || (a == RecvExceeded(p, id) && t == TakeExceeded(slot))
    || (a == RecvNeedsInterrupt(p, id) && t == Terminate(TakeInterrupt(slot)))
    || (a == RecvNeedsTermination(p, id) && t == ForceTerminate(TakeTermination(slot)))
  }

  lemma SlotBecomes(s: State, a: Action, p: string, id: string)
    requires Interrupted(s.stage) && HasSlot(s, p, id) && Enabled(s, a)
    ensures HasSlot(Apply(s, a), p, id) && Becomes(s, a, p, id, SlotOf(Apply(s, a), p, id))
  {
    hide Happen;
    hide CanHappen;
    hide EndPending;
    hide Reap;
    hide Terminate;
    hide ForceTerminate;
    hide WaitReturns;
    if a.CancelContext? || a.pool != p {
      OtherPool(s, a, p);
    }
  }

  /** A lost kill can be got rid of only by letting it hit the program. */
  lemma LostKillStays(s: State, a: Action, p: string, id: string)
    requires Interrupted(s.stage) && HasSlot(s, p, id) && LostKill(SlotOf(s, p, id)) && !HitsItself(s, a)
    ensures HasSlot(Step(s, a), p, id) && LostKill(SlotOf(Step(s, a), p, id))
  {
    hide *;
    StepIs(s, a);
    if Enabled(s, a) {
      SlotBecomes(s, a, p, id);
      LostKept(s, a, p, id, SlotOf(Apply(s, a), p, id));
    }
  }

  lemma StepIs(s: State, a: Action)
    ensures Step(s, a) == if Enabled(s, a) then Apply(s, a) else s
  {
  }

  lemma LostKept(s: State, a: Action, p: string, id: string, t: Slot)
    requires HasSlot(s, p, id) && Enabled(s, a) && Becomes(s, a, p, id, t) && !HitsItself(s, a)
    requires LostKill(SlotOf(s, p, id))
    ensures LostKill(t)
  {
    hide Happen;
    if a.World? && a.pool == p && a.id == id {
      LostHappens(SlotOf(s, p, id), a.k, a.ev);
    }
  }

  lemma LostHappens(s: Slot, k: nat, ev: ProcEvent)
    requires k <= |s.past| && CanHappen(ProcAt(s, k), ev)
    ensures LostKill(s) ==> LostKill(Happen(s, k, ev))
    ensures Sound(s) && !ev.StartFail? && LostKill(Happen(s, k, ev)) ==> LostKill(s)
  {
    hide LogInOrder;
  }

  lemma NoLostKillStep(s: State, a: Action)
    requires Inv(s) && Interrupted(s.stage) && NoLostKill(s) && !Disturbs(s, a)
    ensures NoLostKill(Step(s, a))
  {
    hide Inv;
    var t := Step(s, a);
    if Enabled(s, a) {
      forall p, id | HasSlot(t, p, id) ensures !LostKill(SlotOf(t, p, id)) {
        assert HasSlot(s, p, id);
        SlotAlive(s, p, id);
        SlotBecomes(s, a, p, id);
        hide Apply;
        NoKillLost(s, a, p, id, SlotOf(t, p, id));
      }
    }
  }

  lemma NoKillLost(s: State, a: Action, p: string, id: string, t: Slot)
    requires HasSlot(s, p, id) && Enabled(s, a) && Becomes(s, a, p, id, t) && !Disturbs(s, a)
    requires Sound(SlotOf(s, p, id)) && !LostKill(SlotOf(s, p, id))
    ensures !LostKill(t)
  {
    hide Sound;
    hide Happen;
    if a.World? && a.pool == p && a.id == id {
      LostHappens(SlotOf(s, p, id), a.k, a.ev);
    }
  }

  /** A proxy is no obstacle, or a kill is on its way to it. */
  predicate Handled(i: Info) {
    ProxyOk(i) || i.pool.slots[PROXY_ID].needsTermination > 0
  }

  lemma HandledStep(s: State, a: Action, p: string)
    requires Inv(s) && Interrupted(s.stage) && p in s.pools && Handled(s.pools[p]) && !HitsItself(s, a)
    ensures Handled(Step(s, a).pools[p])
  {
    hide Inv;
    if ProxyOk(s.pools[p]) {
      OkStep(s, a, p);
    } else if Enabled(s, a) {
      hide ProxyOk;
      hide Apply;
      ObstacleSlot(s, p);
      SlotBecomes(s, a, p, PROXY_ID);
      if SlotOf(Step(s, a), p, PROXY_ID).needsTermination == 0 {
        KillStaysOrLands(s, a, p, SlotOf(Step(s, a), p, PROXY_ID));
      }
    }
  }

  /** A proxy that is an obstacle has a slot, and if a kill is on its way to it it has no PID yet. */
  lemma ObstacleSlot(s: State, p: string)
    requires Inv(s) && Interrupted(s.stage) && p in s.pools && !ProxyOk(s.pools[p])
    ensures HasSlot(s, p, PROXY_ID)
    ensures var slot := SlotOf(s, p, PROXY_ID);
            if slot.needsTermination > 0 then slot.cur.phase.Starting? else Unasked(slot)
  {
    hide Inv;
    NotOk(s.pools[p]);
    SlotAlive(s, p, PROXY_ID);
    NotOwed(SlotOf(s, p, PROXY_ID));
  }

  lemma NotOk(i: Info)
    requires !ProxyOk(i)
    ensures PROXY_ID in i.pool.slots && !Dead(i.pool.slots[PROXY_ID]) && !Owed(i.pool.slots[PROXY_ID])
    ensures i.running != i.total
  {
  }

  lemma NotOwed(s: Slot)
    requires Sound(s) && !s.cur.phase.Prepared? && !Dead(s) && !Owed(s)
    ensures if s.needsTermination > 0 then s.cur.phase.Starting? else Unasked(s)
  {
    hide LogInOrder;
  }

  lemma KillStaysOrLands(s: State, a: Action, p: string, t: Slot)
    requires HasSlot(s, p, PROXY_ID) && Enabled(s, a) && Becomes(s, a, p, PROXY_ID, t) && !HitsItself(s, a)
    requires SlotOf(s, p, PROXY_ID).needsTermination > 0 && SlotOf(s, p, PROXY_ID).cur.phase.Starting?
    ensures t.needsTermination > 0
  {
  }

  /** Abandoned proxies are the obstacles to which no kill is on its way. */
  lemma AbandonedIff(s: State, p: string)
    requires Inv(s) && s.stage.Stopping?
    ensures Abandoned(s, p) <==> p in s.pools && !Handled(s.pools[p])
  {
    hide Inv;
    if p in s.pools && !ProxyOk(s.pools[p]) {
      ObstacleSlot(s, p);
    } else if Abandoned(s, p) {
      UnaskedNotOwed(SlotOf(s, p, PROXY_ID));
      ProxyHasSlot(s, p);
    }
  }

  lemma UnaskedNotOwed(s: Slot)
    requires Unasked(s)
    ensures !Owed(s) && !Dead(s)
  {
  }

  // ----- when the loop can hang

  /** An undisturbed run after which the loop waits and nothing is bound to happen. */
  ghost predicate Hangs(s: State, run: seq<Action>) {
    Undisturbed(s, run) && Exec(s, run).stage.Stopping? && !exists a :: Forced(Exec(s, run), a)
  }

  /** A kill that would hit the program can wait for its process to get a PID. */
  lemma Instead(s: State, a: Action) returns (b: Action)
    requires Inv(s) && s.stage.Stopping? && NoLostKill(s) && Forced(s, a)
    ensures Forced(s, b) && !Disturbs(s, b)
  {
    hide Inv;
    b := a;
    if HitsItself(s, a) {
      SlotAlive(s, a.pool, a.id);
      assert !LostKill(SlotOf(s, a.pool, a.id));
      b := World(a.pool, a.id, |SlotOf(s, a.pool, a.id).past|, Start);
    }
  }

  /** Once a proxy is abandoned, everything else can be used up. */
  lemma AbandonedHangs(s: State, p: string) returns (run: seq<Action>)
    requires Inv(s) && Abandoned(s, p) && NoLostKill(s)
    ensures Hangs(s, run)
  {
    hide Inv;
    hide Abandoned;
    hide NoLostKill;
    hide Weight;
    hide Disturbs;
    run := [];
    AbandonedStops(s, p);
    while exists a :: Forced(Exec(s, run), a)
      invariant Undisturbed(s, run) && Inv(Exec(s, run)) && Abandoned(Exec(s, run), p) && NoLostKill(Exec(s, run))
      invariant Exec(s, run).stage.Stopping?
      decreases Weight(Exec(s, run))
    {
      var t := Exec(s, run);
      var a :| Forced(t, a);
      a := Instead(t, a);
      UndisturbedAppend(s, run, a);
      ExecAppend(s, run, a);
      NextForced(t, a, p);
      run := run + [a];
    }
  }

  lemma NextForced(t: State, a: Action, p: string)
    requires Inv(t) && t.stage.Stopping? && Abandoned(t, p) && NoLostKill(t) && Forced(t, a) && !Disturbs(t, a)
    ensures Inv(Step(t, a)) && Abandoned(Step(t, a), p) && NoLostKill(Step(t, a)) && Step(t, a).stage.Stopping?
    ensures 0 <= Weight(Step(t, a)) < Weight(t)
  {
    hide *;
    assert Interrupted(t.stage) && Productive(t, a) && !Spontaneous(t, a) by {
      ForcedIs(t, a);
    }
    InvStep(t, a);
    AbandonedStep(t, a, p);
    AbandonedStops(Step(t, a), p);
    NoLostKillStep(t, a);
    StepWeighs(t, a);
    WeightBounded(Step(t, a));
  }

  lemma ForcedIs(t: State, a: Action)
    requires t.stage.Stopping? && Forced(t, a)
    ensures Interrupted(t.stage) && Productive(t, a) && !Spontaneous(t, a)
  {
  }

  lemma AbandonedStops(s: State, p: string)
    requires Abandoned(s, p)
    ensures s.stage.Stopping?
  {
  }

  /** While a kill is lost, or all proxies are handled, the loop does not run out of things to do. */
  ghost predicate Busy(s: State) {
    !NoLostKill(s) || forall p | p in s.pools :: Handled(s.pools[p])
  }

  lemma BusyStep(s: State, a: Action)
    requires Inv(s) && Interrupted(s.stage) && Busy(s) && !HitsItself(s, a)
    ensures Busy(Step(s, a))
  {
    hide Inv;
    hide Handled;
    hide Step;
    hide LostKill;
    if p, id :| HasSlot(s, p, id) && LostKill(SlotOf(s, p, id)) {
      LostKillStays(s, a, p, id);
    } else {
      forall p | p in Step(s, a).pools ensures Handled(Step(s, a).pools[p]) {
        HandledStep(s, a, p);
      }
    }
  }

  lemma {:induction false} BusyRun(s: State, run: seq<Action>)
    requires Inv(s) && Interrupted(s.stage) && Busy(s) && Undisturbed(s, run)
    ensures Busy(Exec(s, run))
    decreases |run|
  {
    hide Inv;
    hide Busy;
    if run != [] {
      var n := |run| - 1;
      BusyRun(s, run[..n]);
      InvRun(s, run[..n]);
      DrainBound(s, run[..n]);
      BusyStep(Exec(s, run[..n]), run[n]);
    }
  }

  lemma BusyForced(s: State)
    requires Inv(s) && s.stage.Stopping? && Busy(s)
    ensures exists a :: Forced(s, a)
  {
    hide Inv;
    if p, id :| HasSlot(s, p, id) && LostKill(SlotOf(s, p, id)) {
      assert Forced(s, RecvNeedsTermination(p, id));
    } else if p :| p in s.pools && !ProxyOk(s.pools[p]) {
      ObstacleSlot(s, p);
      assert Handled(s.pools[p]);
      assert Forced(s, RecvNeedsTermination(p, PROXY_ID));
    } else {
      SomethingForced(s);
    }
  }

  /**
   The exact condition: the shutdown loop can be left waiting, with nothing bound to happen and
   no kill sent to the program itself, if and only if some proxied pool has a counted death
   while its proxy is alive and has no stop and no kill on its way, and no kill is lost
   anywhere. With a lost kill, receiving it would end the program.
   */
  lemma ShutdownHangsIff(s: State)
    requires Inv(s) && s.stage.Stopping?
    ensures (exists run :: Hangs(s, run)) <==> NoLostKill(s) && exists p :: Abandoned(s, p)
  {
    hide Inv;
    hide Abandoned;
    hide NoLostKill;
    hide Forced;
    if NoLostKill(s) && exists p :: Abandoned(s, p) {
      var p :| Abandoned(s, p);
      var run := AbandonedHangs(s, p);
    } else {
      StaysBusy(s);
    }
  }

  lemma StaysBusy(s: State)
    requires Inv(s) && s.stage.Stopping? && (NoLostKill(s) ==> !exists p :: Abandoned(s, p))
    ensures forall run :: !Hangs(s, run)
  {
    hide Inv;
    hide NoLostKill;
    hide Abandoned;
    hide Handled;
    hide Forced;
    if NoLostKill(s) {
      forall p | p in s.pools ensures Handled(s.pools[p]) {
        AbandonedIff(s, p);
      }
    }
    hide Busy;
    assert Busy(s) by {
      BusyIs(s);
    }
    forall run | Undisturbed(s, run) ensures !Hangs(s, run) {
      BusyRun(s, run);
      InvRun(s, run);
      if Exec(s, run).stage.Stopping? {
        BusyForced(Exec(s, run));
      }
    }
  }

  lemma BusyIs(s: State)
    requires NoLostKill(s) ==> forall p | p in s.pools :: Handled(s.pools[p])
    ensures Busy(s)
  {
  }
}
