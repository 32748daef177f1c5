/**
 What each action does to a slot, field by field, and what becomes of every event: over any
 run, the events outstanding are those sent less those received, the timers armed are the
 stops of running processes less the firings, and the log is what was started and written.
 */
module Events {
  import opened Worker
  import opened Pool
  import opened Supervisor
  import opened Invariant
  import opened Shutdown
  import opened Progress

  /** What an action means for one slot. */
  datatype Happening =
    | Nothing
    | Launched
    | Moved(k: nat, ev: ProcEvent)
    | Relaunched(k: nat)      // the end of incarnation `k` is received and the process restarted
    | EndReceived(k: nat)    // the end of incarnation `k` is received and counted as a death
    | LimitReceived(stop: bool)
    | InterruptReceived
    | KillReceived
    | StopRequested

  /** A death of the pool is counted that is its first, and not the proxy's own. */
  ghost predicate FirstDeath(t: State, a: Action, p: string)
    requires p in t.pools
  {
    && a.RecvEnd? && a.pool == p && a.id != PROXY_ID
    && t.pools[p].running == t.pools[p].total && Step(t, a).pools[p].running < t.pools[p].running
  }

  ghost function HappeningTo(t: State, a: Action, p: string, id: string): Happening
    requires HasSlot(t, p, id)
  {
    if !Enabled(t, a) then Nothing
    else
      match a
      case Launch => Launched
      case World(q, i, k, ev) => if q == p && i == id then Moved(k, ev) else Nothing
      case RecvEnd(q, i, k, _) =>
        if q == p && i == id then
          if |SlotOf(Step(t, a), p, id).past| > |SlotOf(t, p, id).past| then Relaunched(k) else EndReceived(k)
        else if id == PROXY_ID && FirstDeath(t, a, p) then StopRequested
        else Nothing
      case RecvExceeded(q, i) => if q == p && i == id then LimitReceived(t.stage.Serving?) else Nothing
      case RecvNeedsInterrupt(q, i) => if q == p && i == id then InterruptReceived else Nothing
      case RecvNeedsTermination(q, i) => if q == p && i == id then KillReceived else Nothing
      case CancelContext => Nothing
      case SelectDone => if id != PROXY_ID then StopRequested else Nothing
  }

  /** The happening is a request to stop the current process. */
  predicate IsStop(h: Happening) {
    h.StopRequested? || h.InterruptReceived? || (h.LimitReceived? && h.stop)
  }

  function Bit(b: bool): int { if b then 1 else 0 }

  // ----- the outcome of a happening

  function PhaseOutcome(phase: Phase, h: Happening, k: nat): Phase {
    match h
    case Launched => Starting
    case Moved(j, ev) =>
      if j != k then phase
      else (match ev case Start => Live case StartFail => Exited case Exit => Exited case _ => phase)
    case Relaunched(j) => if j == k then Reaped else phase
    case EndReceived(j) => if j == k then Reaped else phase
    case _ => phase
  }

  /** The world moves incarnation `k`. */
  predicate Moves(h: Happening, k: nat) {
    h.Moved? && h.k == k
  }

  /** `q` is what becomes of incarnation `k`, which was `p`. */
  predicate ProcOutcome(p: Proc, h: Happening, k: nat, current: bool, lifespan: bool, q: Proc) {
    && q.phase == PhaseOutcome(p.phase, h, k)
    && q.restarts == p.restarts && q.streaming == p.streaming
    && q.drained == (p.drained || (Moves(h, k) && h.ev.StreamsClose?))
    && q.failed == (p.failed || (Moves(h, k) && h.ev.StartFail?))
    && q.cancelled == (p.cancelled || (current && IsStop(h) && !Ended(p)))
    && q.killed == (p.killed || (current && h.KillReceived? && p.phase.Live?))
    && q.timers == p.timers + Bit(current && IsStop(h) && p.phase.Live?) - Bit(Moves(h, k) && h.ev.TimerFires?)
    && q.limiter == if h.Launched? then lifespan
                    else p.limiter && !(Moves(h, k) && (h.ev.LimiterFires? || h.ev.LimiterStops?))
  }

  /** The incarnation a restart makes. */
  predicate NewIncarnation(id: string, p: Proc, lifespan: bool, q: Proc) {
    q == Proc(Starting, if id == PROXY_ID then 0 else p.restarts + 1, true, false, false, false, false, 0, lifespan)
  }

  function NewRecords(s: Slot, h: Happening): seq<Record> {
    match h
    case Launched => [Record.Started(|s.past|)]
    case Relaunched(_) => [Record.Started(|s.past| + 1)]
    case Moved(k, Emit(text)) => [Line(k, text)]
    case _ => []
  }

  /** `t` is what becomes of the slot `s`: its incarnations, its outstanding events, its log. */
  ghost predicate Outcome(id: string, s: Slot, h: Happening, lifespan: bool, t: Slot) {
    && |t.past| == |s.past| + Bit(h.Relaunched?)
    && (forall k | 0 <= k <= |s.past| :: ProcOutcome(ProcAt(s, k), h, k, k == |s.past|, lifespan, ProcAt(t, k)))
    && (h.Relaunched? ==> NewIncarnation(id, s.cur, lifespan, t.cur))
    && EventOutcome(s, h, t)
    && t.log == s.log + NewRecords(s, h)
  }

  predicate EventOutcome(s: Slot, h: Happening, t: Slot) {
    && t.exceeded == s.exceeded + Bit(h.Moved? && h.ev.LimiterFires?) - Bit(h.LimitReceived?)
    && t.needsTermination == s.needsTermination + Bit(SendsKill(s, h)) - Bit(h.KillReceived?)
    && t.needsInterrupt == s.needsInterrupt + Bit(IsStop(h) && Status(s.cur) == PrepareWorkers) - Bit(h.InterruptReceived?)
  }

  /** A signal timer fires whose process has not ended. */
  predicate SendsKill(s: Slot, h: Happening) {
    h.Moved? && h.ev.TimerFires? && h.k <= |s.past| && !Ended(ProcAt(s, h.k))
  }

  lemma RunOutcome(id: string, s: Slot, lifespan: bool)
    requires s.past == []
    ensures Outcome(id, s, Launched, lifespan, Run(s, lifespan))
  {
  }

  lemma HappenOutcome(id: string, s: Slot, k: nat, ev: ProcEvent, lifespan: bool)
    requires k <= |s.past| && CanHappen(ProcAt(s, k), ev)
    ensures Outcome(id, s, Moved(k, ev), lifespan, Happen(s, k, ev))
  {
    hide ProcOutcome;
    var t := Happen(s, k, ev);
    assert |t.past| == |s.past| && ProcAt(t, k) == ProcAfter(ProcAt(s, k), ev);
    forall j | 0 <= j <= |s.past| ensures ProcOutcome(ProcAt(s, j), Moved(k, ev), j, j == |s.past|, lifespan, ProcAt(t, j)) {
      if j == k {
        ProcMoves(ProcAt(s, k), k, ev, k == |s.past|, lifespan);
      } else {
        assert ProcAt(t, j) == ProcAt(s, j);
        ProcRests(ProcAt(s, j), Moved(k, ev), j, j == |s.past|, lifespan);
      }
    }
  }

  lemma ProcMoves(p: Proc, k: nat, ev: ProcEvent, current: bool, lifespan: bool)
    requires CanHappen(p, ev)
    ensures ProcOutcome(p, Moved(k, ev), k, current, lifespan, ProcAfter(p, ev))
  {
    var h, q := Moved(k, ev), ProcAfter(p, ev);
    assert !IsStop(h) && Moves(h, k) && q.phase == PhaseOutcome(p.phase, h, k);
    hide IsStop;
    hide Moves;
    hide PhaseOutcome;
    match ev {
      case Start =>
      case StartFail =>
      case Exit =>
      case TimerFires =>
      case LimiterFires =>
      case LimiterStops =>
      case Emit(_) =>
      case StreamsClose =>
    }
  }

  /** A happening that is not about this incarnation leaves it as it is. */
  lemma ProcRests(p: Proc, h: Happening, k: nat, current: bool, lifespan: bool)
    requires h.Moved? || h.Relaunched? || h.EndReceived? ==> h.k != k
    requires !h.Launched? && (current ==> !IsStop(h) && !h.KillReceived?)
    ensures ProcOutcome(p, h, k, current, lifespan, p)
  {
  }

  lemma StopOutcome(id: string, s: Slot, h: Happening, lifespan: bool)
    requires h.StopRequested? || (h.InterruptReceived? && s.needsInterrupt > 0) || (h == LimitReceived(true) && s.exceeded > 0)
    ensures var taken := if h.InterruptReceived? then TakeInterrupt(s) else if h.LimitReceived? then TakeExceeded(s) else s;
            Outcome(id, s, h, lifespan, Terminate(taken))
  {
    hide ProcOutcome;
    var taken := if h.InterruptReceived? then TakeInterrupt(s) else if h.LimitReceived? then TakeExceeded(s) else s;
    var t := Terminate(taken);
    assert t.past == s.past;
    forall j | 0 <= j <= |s.past| ensures ProcOutcome(ProcAt(s, j), h, j, j == |s.past|, lifespan, ProcAt(t, j)) {
      if j == |s.past| {
        ProcStops(s, taken, h, lifespan);
      } else {
        ProcRests(ProcAt(s, j), h, j, false, lifespan);
      }
    }
  }

  lemma ProcStops(s: Slot, taken: Slot, h: Happening, lifespan: bool)
    requires IsStop(h) && taken.cur == s.cur
    ensures ProcOutcome(s.cur, h, |s.past|, true, lifespan, Terminate(taken).cur)
  {
    var q := Terminate(taken).cur;
    assert !Moves(h, |s.past|) && q.phase == s.cur.phase == PhaseOutcome(s.cur.phase, h, |s.past|);
    hide IsStop;
    hide Moves;
    hide PhaseOutcome;
    if Ended(s.cur) {
    } else if s.cur.phase.Live? {
    }
  }

  lemma LimitDropped(id: string, s: Slot, lifespan: bool)
    requires s.exceeded > 0
    ensures Outcome(id, s, LimitReceived(false), lifespan, TakeExceeded(s))
  {
  }

  lemma KillOutcome(id: string, s: Slot, lifespan: bool)
    requires s.needsTermination > 0
    ensures Outcome(id, s, KillReceived, lifespan, ForceTerminate(TakeTermination(s)))
  {
  }

  lemma NothingOutcome(id: string, s: Slot, lifespan: bool)
    ensures Outcome(id, s, Nothing, lifespan, s)
  {
  }

  lemma EndOutcome(id: string, s: Slot, lifespan: bool)
    requires s.cur.phase.Exited?
    ensures Outcome(id, s, EndReceived(|s.past|), lifespan, Reap(s, |s.past|))
    ensures Terminate(Reap(s, |s.past|)) == Reap(s, |s.past|)
  {
  }

  lemma RestartOutcome(id: string, s: Slot, lifespan: bool)
    requires s.cur.phase.Exited?
    ensures var restarts := if id == PROXY_ID then 0 else s.cur.restarts + 1;
            Outcome(id, s, Relaunched(|s.past|), lifespan, Relaunch(Reap(s, |s.past|), restarts, true, lifespan))
  {
  }

  // ----- the outcome of an action

  /** The limiter of a new incarnation of the slot is armed: workers of such a pool have one. */
  predicate Limited(t: State, p: string, id: string)
    requires HasSlot(t, p, id)
  {
    t.pools[p].pool.lifespan && id != PROXY_ID
  }

  /** The slots after a counted death. */
  lemma CountedSlots(i: Info, id: string, k: nat, x: string)
    requires id in i.pool.slots && x in i.pool.slots && EndPending(i.pool.slots[id], k)
    requires i.pool.proxied <==> PROXY_ID in i.pool.slots
    requires k == |i.pool.slots[id].past|
    ensures var j := EndCounted(i, id, k);
            && j.running == i.running - 1
            && x in j.pool.slots
            && j.pool.slots[x] == if x == id then Reap(i.pool.slots[id], k)
                                  else if x == PROXY_ID && i.running == i.total then Terminate(i.pool.slots[x])
                                  else i.pool.slots[x]
  {
    EndOutcome(id, i.pool.slots[id], false);
    hide Terminate;
    hide Reap;
  }

  /** The slots after a restart. */
  lemma RelaunchedSlots(q: Pool, id: string, k: nat, proxyFails: bool, x: string)
    requires q.state == PoolState.Prepared && id in q.slots && x in q.slots && EndPending(q.slots[id], k)
    requires k == |q.slots[id].past|
    requires RestartWorker(WithSlot(q, id, Reap(q.slots[id], k)), id, proxyFails).1.Restarted?
    ensures var r := RestartWorker(WithSlot(q, id, Reap(q.slots[id], k)), id, proxyFails).0;
            && x in r.slots
            && r.slots[x] == if x == id
                             then Relaunch(Reap(q.slots[id], k), if id == PROXY_ID then 0 else q.slots[id].cur.restarts + 1,
                                           true, q.lifespan && id != PROXY_ID)
                             else q.slots[x]
  {
    hide Relaunch;
  }

  /** Whether a received end is answered by a restart. */
  predicate Refused(t: State, p: string, id: string, proxyFails: bool)
    requires HasSlot(t, p, id)
  {
    t.stage.Stopping? || if id == PROXY_ID then proxyFails else SlotOf(t, p, id).cur.restarts == t.pools[p].pool.maxRestarts
  }

  lemma EndSlots(t: State, p: string, id: string, k: nat, proxyFails: bool, x: string)
    requires Inv(t) && Enabled(t, RecvEnd(p, id, k, proxyFails)) && HasSlot(t, p, x)
    ensures var u := Apply(t, RecvEnd(p, id, k, proxyFails));
            var i := t.pools[p];
            var slot := SlotOf(t, p, id);
            && k == |slot.past| && slot.cur.phase.Exited? && Receiving(t)
            && (u.pools[p].running == i.running - Bit(Refused(t, p, id, proxyFails)))
            && (u.ctxDone <==> t.ctxDone || (t.stage.Serving? && id != PROXY_ID && Refused(t, p, id, proxyFails)))
            && SlotOf(u, p, x) ==
               if Refused(t, p, id, proxyFails) then
                 if x == id then Reap(slot, k)
                 else if x == PROXY_ID && i.running == i.total then Terminate(SlotOf(t, p, x))
                 else SlotOf(t, p, x)
               else if x == id then Relaunch(Reap(slot, k), if id == PROXY_ID then 0 else slot.cur.restarts + 1, true, Limited(t, p, id))
               else SlotOf(t, p, x)
  {
    hide *;
    EndParts(t, p, id, k, proxyFails, x);
    EndIsCurrent(t, p, id, k);
    ProxyHasSlot(t, p);
    CountedSlots(t.pools[p], id, k, x);
    EndDecided(t.pools[p], t.stage, id, k, proxyFails, x);
    EndApplied(t, p, id, k, proxyFails);
    CountRestartParts();
  }

  lemma EndParts(t: State, p: string, id: string, k: nat, proxyFails: bool, x: string)
    requires Inv(t) && Enabled(t, RecvEnd(p, id, k, proxyFails)) && HasSlot(t, p, x)
    ensures HasSlot(t, p, id) && p in t.pools && id in t.pools[p].pool.slots && x in t.pools[p].pool.slots
    ensures SlotOf(t, p, id) == t.pools[p].pool.slots[id] && SlotOf(t, p, x) == t.pools[p].pool.slots[x]
    ensures EndPending(SlotOf(t, p, id), k) && WaitReturns(Reap(SlotOf(t, p, id), k))
    ensures Receiving(t) && (t.stage.Serving? || t.stage.Stopping?) && !t.stage.Ready?
    ensures InfoInv(t.pools[p], t.stage)
    ensures Refused(t, p, id, proxyFails) <==>
              (t.stage.Stopping? || if id == PROXY_ID then proxyFails
                                    else t.pools[p].pool.slots[id].cur.restarts == t.pools[p].pool.maxRestarts)
    ensures Limited(t, p, id) <==> t.pools[p].pool.lifespan && id != PROXY_ID
    ensures Bit(true) == 1 && Bit(false) == 0
    ensures var u := Apply(t, RecvEnd(p, id, k, proxyFails));
            HasSlot(u, p, x) && p in u.pools && x in u.pools[p].pool.slots && SlotOf(u, p, x) == u.pools[p].pool.slots[x]
  {
    hide InfoInv;
    hide Apply;
  }

  lemma CountRestartParts()
    ensures forall j :: CountRestart(j).pool == j.pool && CountRestart(j).running == j.running
  {
  }

  /** The state after a received end, in terms of what `handleProcessEnd` did. */
  lemma EndApplied(t: State, p: string, id: string, k: nat, proxyFails: bool)
    requires Enabled(t, RecvEnd(p, id, k, proxyFails)) && HasSlot(t, p, id) && EndPending(SlotOf(t, p, id), k)
    requires var (j, r) := HandleProcessEnd(OnSlot(t.pools[p], id, Reap(SlotOf(t, p, id), k)), id, t.stage.Stopping?, proxyFails);
             !r.Panic? && (j.pool.proxied ==> PROXY_ID in j.pool.slots) && (r.Nil? ==> t.stage.Serving?)
    ensures var (j, r) := HandleProcessEnd(OnSlot(t.pools[p], id, Reap(SlotOf(t, p, id), k)), id, t.stage.Stopping?, proxyFails);
            var u := Apply(t, RecvEnd(p, id, k, proxyFails));
            && u.pools[p] == (if r.Nil? then CountRestart(j) else CountDeath(j))
            && (u.ctxDone <==> t.ctxDone || (t.stage.Serving? && r.TooMany?))
  {
    hide HandleProcessEnd;
    hide CountDeath;
    hide CountRestart;
    hide Reap;
  }

  /** What `handleProcessEnd` decides, and the pool after it. */
  lemma EndDecided(i: Info, stage: Stage, id: string, k: nat, proxyFails: bool, x: string)
    requires InfoInv(i, stage) && (stage.Serving? || stage.Stopping?) && id in i.pool.slots && x in i.pool.slots
    requires EndPending(i.pool.slots[id], k) && WaitReturns(Reap(i.pool.slots[id], k)) && k == |i.pool.slots[id].past|
    ensures var (j, r) := HandleProcessEnd(OnSlot(i, id, Reap(i.pool.slots[id], k)), id, stage.Stopping?, proxyFails);
            var refused := stage.Stopping? || if id == PROXY_ID then proxyFails
                                              else i.pool.slots[id].cur.restarts == i.pool.maxRestarts;
            && !r.Panic? && (r.Nil? <==> !refused) && (stage.Serving? ==> (r.TooMany? <==> refused && id != PROXY_ID))
            && (j.pool.proxied ==> PROXY_ID in j.pool.slots)
            && (!r.Nil? ==> CountDeath(j) == EndCounted(i, id, k))
            && (r.Nil? ==> j.running == i.running && x in j.pool.slots)
            && (r.Nil? ==> j.pool.slots[x] ==
                           if x == id then Relaunch(Reap(i.pool.slots[id], k),
                                                    if id == PROXY_ID then 0 else i.pool.slots[id].cur.restarts + 1,
                                                    true, i.pool.lifespan && id != PROXY_ID)
                           else i.pool.slots[x])
  {
    hide PoolSound;
    hide WorkersOwed;
    hide Reap;
    hide Relaunch;
    hide CountDeath;
    hide EndCounted;
    hide RestartWorker;
    hide WaitReturns;
    hide EndPending;
    if stage.Stopping? {
      StoppingEnd(i, id, k, proxyFails);
    } else {
      ServingEnd(i, id, k, proxyFails);
      RestartPool(i.pool, id, k, proxyFails);
      if RestartWorker(WithSlot(i.pool, id, Reap(i.pool.slots[id], k)), id, proxyFails).1.Restarted? {
        RelaunchedSlots(i.pool, id, k, proxyFails, x);
      }
    }
  }

  /** What any action of the supervisor or of the world makes of a slot. */
  lemma StepOutcome(t: State, a: Action, p: string, id: string)
    requires Inv(t) && HasSlot(t, p, id)
    ensures Outcome(id, SlotOf(t, p, id), HappeningTo(t, a, p, id), Limited(t, p, id), SlotOf(Step(t, a), p, id))
  {
    hide Inv;
    hide Outcome;
    hide Apply;
    hide FirstDeath;
    var slot, lifespan := SlotOf(t, p, id), Limited(t, p, id);
    NothingOutcome(id, slot, lifespan);
    if Enabled(t, a) {
      match a
      case Launch => LaunchOutcome(t, p, id);
      case World(_, _, _, _) => WorldOutcome(t, a, p, id);
      case RecvEnd(_, _, _, _) => RecvEndOutcome(t, a, p, id);
      case RecvExceeded(_, _) => RecvOutcome(t, a, p, id);
      case RecvNeedsInterrupt(_, _) => RecvOutcome(t, a, p, id);
      case RecvNeedsTermination(_, _) => RecvOutcome(t, a, p, id);
      case CancelContext => OtherPool(t, a, p);
      case SelectDone => DrainOutcome(t, p, id);
    }
  }

  lemma LaunchOutcome(t: State, p: string, id: string)
    requires Inv(t) && HasSlot(t, p, id) && t.stage.Ready?
    ensures Outcome(id, SlotOf(t, p, id), Launched, Limited(t, p, id), SlotOf(Apply(t, Launch), p, id))
  {
    hide InfoInv;
    hide Outcome;
    hide Run;
    assert Fresh(t.pools[p]) && FreshSlot(id, t.pools[p].pool.slots[id]);
    RunOutcome(id, SlotOf(t, p, id), Limited(t, p, id));
  }

  lemma WorldOutcome(t: State, a: Action, p: string, id: string)
    requires HasSlot(t, p, id) && Enabled(t, a) && a.World?
    ensures Outcome(id, SlotOf(t, p, id), HappeningTo(t, a, p, id), Limited(t, p, id), SlotOf(Apply(t, a), p, id))
  {
    hide Outcome;
    hide Happen;
    hide CanHappen;
    NothingOutcome(id, SlotOf(t, p, id), Limited(t, p, id));
    if a.pool == p && a.id == id {
      HappenOutcome(id, SlotOf(t, p, id), a.k, a.ev, Limited(t, p, id));
    }
  }

  lemma RecvOutcome(t: State, a: Action, p: string, id: string)
    requires HasSlot(t, p, id) && Enabled(t, a)
    requires a.RecvExceeded? || a.RecvNeedsInterrupt? || a.RecvNeedsTermination?
    ensures Outcome(id, SlotOf(t, p, id), HappeningTo(t, a, p, id), Limited(t, p, id), SlotOf(Apply(t, a), p, id))
  {
    hide Outcome;
    hide Terminate;
    hide ForceTerminate;
    var slot, lifespan := SlotOf(t, p, id), Limited(t, p, id);
    NothingOutcome(id, slot, lifespan);
    if a.pool == p && a.id == id {
      if a.RecvExceeded? {
        StopOutcome(id, slot, LimitReceived(true), lifespan);
        LimitDropped(id, slot, lifespan);
      } else if a.RecvNeedsInterrupt? {
        StopOutcome(id, slot, InterruptReceived, lifespan);
      } else {
        KillOutcome(id, slot, lifespan);
      }
    }
  }

  lemma DrainOutcome(t: State, p: string, id: string)
    requires HasSlot(t, p, id) && Enabled(t, SelectDone)
    ensures Outcome(id, SlotOf(t, p, id), HappeningTo(t, SelectDone, p, id), Limited(t, p, id), SlotOf(Apply(t, SelectDone), p, id))
  {
    hide Outcome;
    hide Terminate;
    NothingOutcome(id, SlotOf(t, p, id), Limited(t, p, id));
    StopOutcome(id, SlotOf(t, p, id), StopRequested, Limited(t, p, id));
  }

  lemma RecvEndOutcome(t: State, a: Action, p: string, id: string)
    requires Inv(t) && HasSlot(t, p, id) && Enabled(t, a) && a.RecvEnd?
    ensures Outcome(id, SlotOf(t, p, id), HappeningTo(t, a, p, id), Limited(t, p, id), SlotOf(Apply(t, a), p, id))
    ensures a.pool == p && a.id == id ==>
              HappeningTo(t, a, p, id) == if Refused(t, p, id, a.proxyFails) then EndReceived(a.k) else Relaunched(a.k)
  {
    hide Inv;
    hide Outcome;
    hide Apply;
    hide Terminate;
    hide Reap;
    hide Relaunch;
    hide WaitReturns;
    var slot, lifespan := SlotOf(t, p, id), Limited(t, p, id);
    NothingOutcome(id, slot, lifespan);
    if a.pool != p {
      OtherPool(t, a, p);
    } else {
      EndSlots(t, p, a.id, a.k, a.proxyFails, id);
      if a.id == id {
        EndOutcome(id, slot, lifespan);
        RestartOutcome(id, slot, lifespan);
        PastGrows(slot, if id == PROXY_ID then 0 else slot.cur.restarts + 1, lifespan);
      } else {
        StopOutcome(id, slot, StopRequested, lifespan);
      }
    }
  }

  lemma PastGrows(s: Slot, restarts: nat, lifespan: bool)
    requires s.cur.phase.Exited?
    ensures |Reap(s, |s.past|).past| == |s.past|
    ensures |Relaunch(Reap(s, |s.past|), restarts, true, lifespan).past| == |s.past| + 1
  {
  }

  // ----- what the world can do, and what is heard of it

  /** When the world can move an incarnation of a slot of a launched supervisor. */
  lemma WorldCan(t: State, p: string, id: string, k: nat, ev: ProcEvent)
    requires HasSlot(t, p, id) && k <= |SlotOf(t, p, id).past| && !t.stage.Ready?
    ensures var q := ProcAt(SlotOf(t, p, id), k);
            Enabled(t, World(p, id, k, ev)) <==>
            match ev
            case Start => q.phase.Starting?
            case StartFail => q.phase.Starting?
            case Exit => q.phase.Live?
            case TimerFires => q.timers > 0
            case LimiterFires => q.limiter
            case LimiterStops => q.limiter && q.cancelled
            case Emit(_) => q.streaming && !q.drained && Status(q) != PrepareWorkers
            case StreamsClose => !q.drained && (!q.streaming || Status(q) == Terminated)
  {
  }

  /** When an event can be received: while the supervisor serves or stops, and it is outstanding. */
  lemma EventCan(t: State, p: string, id: string, k: nat, proxyFails: bool)
    requires Inv(t) && HasSlot(t, p, id)
    ensures var slot := SlotOf(t, p, id);
            var receiving := t.stage == Stage.Serving || t.stage == Stage.Stopping;
            && (Enabled(t, RecvExceeded(p, id)) <==> receiving && slot.exceeded > 0)
            && (Enabled(t, RecvNeedsInterrupt(p, id)) <==> receiving && slot.needsInterrupt > 0)
            && (Enabled(t, RecvNeedsTermination(p, id)) <==> receiving && slot.needsTermination > 0)
            && (Enabled(t, RecvEnd(p, id, k, proxyFails)) <==>
                  receiving && k == |slot.past| && slot.cur.phase == Phase.Exited && (slot.cur.streaming ==> slot.cur.drained))
            && (Enabled(t, SelectDone) <==> t.stage == Stage.Serving && t.ctxDone)
            && (Enabled(t, Launch) <==> t.stage == Stage.Ready)
  {
    hide Inv;
    ProxyHasSlot(t, p);
    if t.stage.Serving? || t.stage.Stopping? {
      if EndPending(SlotOf(t, p, id), k) {
        EndIsCurrent(t, p, id, k);
      }
    }
  }

  /** What is logged, sent and left alone when the world moves incarnation `k` of a slot. */
  ghost predicate Heard(t: State, p: string, id: string, k: nat, ev: ProcEvent)
    requires Enabled(t, World(p, id, k, ev))
  {
    var u := Step(t, World(p, id, k, ev));
    var x, y := SlotOf(t, p, id), SlotOf(u, p, id);
    && y.log == x.log + (match ev case Emit(text) => [Line(k, text)] case _ => [])
    && y.exceeded == x.exceeded + Bit(ev.LimiterFires?)
    && y.needsTermination == x.needsTermination + Bit(ev.TimerFires? && Status(ProcAt(x, k)) != Terminated)
    && y.needsInterrupt == x.needsInterrupt
    && (y.exceeded > 0 && Receiving(u) ==> Enabled(u, RecvExceeded(p, id)))
    && (y.needsTermination > 0 && Receiving(u) ==> Enabled(u, RecvNeedsTermination(p, id)))
    && (y.needsInterrupt > 0 && Receiving(u) ==> Enabled(u, RecvNeedsInterrupt(p, id)))
    && u.stage == t.stage && u.ctxDone == t.ctxDone
    && forall q, j | HasSlot(t, q, j) && (q != p || j != id) :: SlotOf(u, q, j) == SlotOf(t, q, j)
  }

  /**
   Whatever a process does is heard, in every state of every run: a line is logged as it was
   written, a limiter that fires sends an event that can be received, a timer that fires does
   unless its process has ended; nothing else is logged or sent, and no other slot is touched.
   */
  lemma WorldIsHeard(s: State, run: seq<Action>, p: string, id: string, k: nat, ev: ProcEvent)
    requires Initial(s) && Enabled(Exec(s, run), World(p, id, k, ev))
    ensures Heard(Exec(s, run), p, id, k, ev)
  {
    hide *;
    InitialInv(s);
    InvRun(s, run);
    HeardStep(Exec(s, run), p, id, k, ev);
  }

  lemma HeardStep(t: State, p: string, id: string, k: nat, ev: ProcEvent)
    requires Inv(t) && Enabled(t, World(p, id, k, ev))
    ensures Heard(t, p, id, k, ev)
  {
    hide Inv;
    hide Outcome;
    hide Happen;
    hide CanHappen;
    StepOutcome(t, World(p, id, k, ev), p, id);
    HeardOutcome(id, SlotOf(t, p, id), k, ev, Limited(t, p, id), SlotOf(Step(t, World(p, id, k, ev)), p, id));
  }

  lemma HeardOutcome(id: string, s: Slot, k: nat, ev: ProcEvent, lifespan: bool, t: Slot)
    requires k <= |s.past| && Outcome(id, s, Moved(k, ev), lifespan, t)
    ensures t.log == s.log + (match ev case Emit(text) => [Line(k, text)] case _ => [])
    ensures t.exceeded == s.exceeded + Bit(ev.LimiterFires?)
    ensures t.needsTermination == s.needsTermination + Bit(ev.TimerFires? && Status(ProcAt(s, k)) != Terminated)
    ensures t.needsInterrupt == s.needsInterrupt
  {
    hide ProcOutcome;
  }

  // ----- conservation over runs

  /** How many steps of the run meet `f`. */
  ghost function Count(s: State, run: seq<Action>, f: (State, Action) -> bool): nat
    decreases |run|
  {
    if run == [] then 0
    else
      var n := |run| - 1;
      Count(s, run[..n], f) + if f(Exec(s, run[..n]), run[n]) then 1 else 0
  }

  ghost function LimitsSent(p: string, id: string): (State, Action) -> bool {
    (t, a) => HasSlot(t, p, id) && (var h := HappeningTo(t, a, p, id); h.Moved? && h.ev.LimiterFires?)
  }

  ghost function LimitsReceived(p: string, id: string): (State, Action) -> bool {
    (t, a) => HasSlot(t, p, id) && HappeningTo(t, a, p, id).LimitReceived?
  }

  ghost function KillsSent(p: string, id: string): (State, Action) -> bool {
    (t, a) => HasSlot(t, p, id) && SendsKill(SlotOf(t, p, id), HappeningTo(t, a, p, id))
  }

  ghost function KillsReceived(p: string, id: string): (State, Action) -> bool {
    (t, a) => HasSlot(t, p, id) && HappeningTo(t, a, p, id).KillReceived?
  }

  /** Stops that come before the process has a PID, and are sent back as events. */
  ghost function InterruptsSent(p: string, id: string): (State, Action) -> bool {
    (t, a) => HasSlot(t, p, id) && IsStop(HappeningTo(t, a, p, id)) && Status(SlotOf(t, p, id).cur) == PrepareWorkers
  }

  ghost function InterruptsReceived(p: string, id: string): (State, Action) -> bool {
    (t, a) => HasSlot(t, p, id) && HappeningTo(t, a, p, id).InterruptReceived?
  }

  /** Stops of a running process, each of which arms a timer. */
  ghost function RunningStopped(p: string, id: string): (State, Action) -> bool {
    (t, a) => HasSlot(t, p, id) && IsStop(HappeningTo(t, a, p, id)) && SlotOf(t, p, id).cur.phase.Live?
  }

  ghost function TimersFired(p: string, id: string): (State, Action) -> bool {
    (t, a) => HasSlot(t, p, id) && (var h := HappeningTo(t, a, p, id); h.Moved? && h.ev.TimerFires?)
  }

  /** The timers armed for the first `n` incarnations. */
  function TimersUpTo(s: Slot, n: nat): nat
    requires n <= |s.past| + 1
  {
    if n == 0 then 0 else TimersUpTo(s, n - 1) + ProcAt(s, n - 1).timers
  }

  function ArmedTimers(s: Slot): nat {
    TimersUpTo(s, |s.past| + 1)
  }

  lemma {:induction false} OldTimers(id: string, s: Slot, h: Happening, lifespan: bool, t: Slot, n: nat)
    requires Outcome(id, s, h, lifespan, t) && n <= |s.past| + 1
    ensures TimersUpTo(t, n) == TimersUpTo(s, n) + Bit(n == |s.past| + 1 && IsStop(h) && s.cur.phase.Live?)
                                - Bit(h.Moved? && h.ev.TimerFires? && h.k < n)
  {
    if n > 0 {
      OldTimers(id, s, h, lifespan, t, n - 1);
      assert ProcOutcome(ProcAt(s, n - 1), h, n - 1, n - 1 == |s.past|, lifespan, ProcAt(t, n - 1));
    }
  }

  lemma TimersOutcome(id: string, s: Slot, h: Happening, lifespan: bool, t: Slot)
    requires Outcome(id, s, h, lifespan, t) && (h.Moved? ==> h.k <= |s.past|)
    ensures ArmedTimers(t) == ArmedTimers(s) + Bit(IsStop(h) && s.cur.phase.Live?) - Bit(h.Moved? && h.ev.TimerFires?)
  {
    OldTimers(id, s, h, lifespan, t, |s.past| + 1);
    hide ProcOutcome;
    if h.Relaunched? {
      assert ProcAt(t, |s.past| + 1) == t.cur;
    }
  }

  /** Everything that was started and written, in the order in which it was. */
  ghost function History(s: State, run: seq<Action>, p: string, id: string): seq<Record>
    requires HasSlot(s, p, id)
    decreases |run|
  {
    if run == [] then []
    else
      var n := |run| - 1;
      var t := Exec(s, run[..n]);
      History(s, run[..n], p, id) + NewRecords(SlotOf(t, p, id), HappeningTo(t, run[n], p, id))
  }

  /**
   Conservation: over any run, the outstanding events of a slot are those sent less those
   received, its armed timers are the stops of running processes less the firings, and its log
   is what was started and written.
   */
  lemma {:induction false} EventsConserved(s: State, run: seq<Action>, p: string, id: string)
    requires Initial(s) && HasSlot(s, p, id)
    ensures var slot := SlotOf(Exec(s, run), p, id);
            && slot.exceeded == Count(s, run, LimitsSent(p, id)) - Count(s, run, LimitsReceived(p, id))
            && slot.needsTermination == Count(s, run, KillsSent(p, id)) - Count(s, run, KillsReceived(p, id))
            && slot.needsInterrupt == Count(s, run, InterruptsSent(p, id)) - Count(s, run, InterruptsReceived(p, id))
            && ArmedTimers(slot) == Count(s, run, RunningStopped(p, id)) - Count(s, run, TimersFired(p, id))
            && slot.log == History(s, run, p, id)
    decreases |run|
  {
    hide Inv;
    hide Outcome;
    hide Step;
    hide HappeningTo;
    hide ArmedTimers;
    InitialInv(s);
    if run == [] {
      FreshBalance(s, p, id);
    } else {
      var n := |run| - 1;
      var t, a := Exec(s, run[..n]), run[n];
      EventsConserved(s, run[..n], p, id);
      InvRun(s, run[..n]);
      hide Initial;
      StepBalance(t, a, p, id);
    }
  }

  lemma FreshBalance(s: State, p: string, id: string)
    requires Initial(s) && HasSlot(s, p, id)
    ensures var slot := SlotOf(s, p, id);
            slot.exceeded == slot.needsTermination == slot.needsInterrupt == ArmedTimers(slot) == 0 && slot.log == []
  {
    assert Fresh(s.pools[p]) && FreshSlot(id, s.pools[p].pool.slots[id]);
    assert TimersUpTo(SlotOf(s, p, id), 1) == 0;
  }

  lemma StepBalance(t: State, a: Action, p: string, id: string)
    requires Inv(t) && HasSlot(t, p, id)
    ensures var x, y := SlotOf(t, p, id), SlotOf(Step(t, a), p, id);
            var h := HappeningTo(t, a, p, id);
            && y.exceeded == x.exceeded + Bit(h.Moved? && h.ev.LimiterFires?) - Bit(h.LimitReceived?)
            && y.needsTermination == x.needsTermination + Bit(SendsKill(x, h)) - Bit(h.KillReceived?)
            && y.needsInterrupt == x.needsInterrupt + Bit(IsStop(h) && Status(x.cur) == PrepareWorkers) - Bit(h.InterruptReceived?)
            && ArmedTimers(y) == ArmedTimers(x) + Bit(IsStop(h) && x.cur.phase.Live?) - Bit(h.Moved? && h.ev.TimerFires?)
            && y.log == x.log + NewRecords(x, h)
  {
    StepOutcome(t, a, p, id);
    MovedWithin(t, a, p, id);
    hide Inv;
    hide Step;
    hide HappeningTo;
    hide ProcOutcome;
    TimersOutcome(id, SlotOf(t, p, id), HappeningTo(t, a, p, id), Limited(t, p, id), SlotOf(Step(t, a), p, id));
  }

  lemma MovedWithin(t: State, a: Action, p: string, id: string)
    requires HasSlot(t, p, id)
    ensures var h := HappeningTo(t, a, p, id); h.Moved? ==> h.k <= |SlotOf(t, p, id).past|
  {
    hide Step;
    hide FirstDeath;
  }

  // ----- decisions of the supervisor

  /**
   A received end, in every run: in the first loop the process is restarted unless a worker is
   at its limit or the proxy cannot be prepared; in the second it never is. What is not
   restarted is counted. Only a worker's death in the first loop cancels the context.
   */
  lemma EndIsDecided(s: State, run: seq<Action>, p: string, id: string, k: nat, proxyFails: bool)
    requires Initial(s) && Enabled(Exec(s, run), RecvEnd(p, id, k, proxyFails))
    ensures var t := Exec(s, run);
            var a := RecvEnd(p, id, k, proxyFails);
            var u := Step(t, a);
            var refused := Refused(t, p, id, proxyFails);
            && HappeningTo(t, a, p, id) == (if refused then EndReceived(k) else Relaunched(k))
            && u.pools[p].running == t.pools[p].running - Bit(refused)
            && (u.ctxDone <==> t.ctxDone || (t.stage.Serving? && id != PROXY_ID && refused))
  {
    hide Initial;
    hide Inv;
    hide Outcome;
    InitialInv(s);
    InvRun(s, run);
    var t := Exec(s, run);
    hide Exec;
    EndHasSlot(t, p, id, k, proxyFails);
    hide Enabled;
    hide Apply;
    hide Refused;
    RecvEndOutcome(t, RecvEnd(p, id, k, proxyFails), p, id);
    EndSlots(t, p, id, k, proxyFails, id);
    hide HappeningTo;
  }

  lemma EndHasSlot(t: State, p: string, id: string, k: nat, proxyFails: bool)
    requires Enabled(t, RecvEnd(p, id, k, proxyFails))
    ensures HasSlot(t, p, id)
  {
  }

  /** Nothing else but an outside cancel cancels the context. */
  lemma ContextIsKept(t: State, a: Action)
    requires !a.RecvEnd?
    ensures Step(t, a).ctxDone <==> t.ctxDone || a.CancelContext?
  {
  }

  // ----- kills are counted

  ghost function KillsIn(p: string): (State, Action) -> bool {
    (t: State, a: Action) => a.RecvNeedsTermination? && a.pool == p && Enabled(t, a)
  }

  ghost function OwnKillsIn(p: string): (State, Action) -> bool {
    (t: State, a: Action) => HitsItself(t, a) && a.pool == p
  }

  lemma KillsStep(t: State, a: Action, p: string)
    requires p in t.pools
    ensures Step(t, a).pools[p].pool.sigkills == t.pools[p].pool.sigkills + Bit(KillsIn(p)(t, a))
    ensures Step(t, a).pools[p].pool.ownKills == t.pools[p].pool.ownKills + Bit(OwnKillsIn(p)(t, a))
  {
    hide Happen;
    hide Terminate;
    hide ForceTerminate;
    hide Relaunch;
    hide Reap;
    hide WaitReturns;
    hide EndPending;
    if Enabled(t, a) {
      if a.RecvEnd? {
        EndKillsNothing(t, a, p);
      } else if a.CancelContext? || a.Launch? || a.SelectDone? {
      } else if a.pool != p {
        OtherPool(t, a, p);
      }
    }
  }

  lemma EndKillsNothing(t: State, a: Action, p: string)
    requires p in t.pools && Enabled(t, a) && a.RecvEnd?
    ensures var i, j := t.pools[p].pool, Apply(t, a).pools[p].pool;
            j.sigkills == i.sigkills && j.ownKills == i.ownKills
  {
    hide HandleProcessEnd;
    hide CountDeath;
    hide Reap;
    hide WaitReturns;
    hide EndPending;
    if a.pool == p {
      var i := OnSlot(t.pools[p], a.id, Reap(SlotOf(t, p, a.id), a.k));
      NoKillHandled(i, a.id, t.stage.Stopping?, a.proxyFails);
    }
  }

  lemma NoKillHandled(i: Info, id: string, terminating: bool, proxyFails: bool)
    requires id in i.pool.slots && (i.pool.proxied ==> PROXY_ID in i.pool.slots)
    ensures var j := HandleProcessEnd(i, id, terminating, proxyFails).0;
            && j.pool.sigkills == i.pool.sigkills && j.pool.ownKills == i.pool.ownKills
            && CountDeath(j).pool.sigkills == i.pool.sigkills && CountDeath(j).pool.ownKills == i.pool.ownKills
  {
    hide Relaunch;
    hide Terminate;
  }

  /** The counter of SIGKILLs is the number of kills received, of which some hit the program itself. */
  lemma {:induction false} KillsCounted(s: State, run: seq<Action>, p: string)
    requires Initial(s) && p in s.pools
    ensures var q := Exec(s, run).pools[p].pool;
            q.sigkills == Count(s, run, KillsIn(p)) && q.ownKills == Count(s, run, OwnKillsIn(p))
    decreases |run|
  {
    hide Step;
    hide KillsIn;
    hide OwnKillsIn;
    NoKillsYet(s, p);
    hide Initial;
    if run != [] {
      var n := |run| - 1;
      assert Initial(s);
      KillsCounted(s, run[..n], p);
      KillsStep(Exec(s, run[..n]), run[n], p);
    }
  }

  lemma NoKillsYet(s: State, p: string)
    requires Initial(s) && p in s.pools
    ensures s.pools[p].pool.sigkills == s.pools[p].pool.ownKills == 0
  {
    assert Fresh(s.pools[p]);
  }
}
