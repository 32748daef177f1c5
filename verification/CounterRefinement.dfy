/**
 The counters of the supervisor refine a machine that knows nothing but restarts, final
 deaths and the shutdown. Every other step, in particular an exceeded limit, an interrupt or
 a kill that reaches whatever incarnation is there, is a stutter on the counters and gauges.
 */
module CounterRefinement {
  import opened Sums
  import opened Worker
  import opened Pool
  import opened Supervisor
  import opened Invariant

  datatype Counters = Counters(total: int, running: int, restarts: int, gaugeRunning: int, gaugeTerminated: int)

  datatype Book = Book(stage: Stage, terminated: int, total: int, pools: map<string, Counters>)

  datatype Entry = Begin | Restart(pool: string) | Death(pool: string) | Shutdown | Stutter

  /** The abstract machine's guards: a restart needs service, a death needs a running process. */
  predicate Allowed(b: Book, e: Entry) {
    match e
    case Begin => b.stage.Ready?
    case Restart(p) => b.stage.Serving? && p in b.pools && b.pools[p].running > 0
    case Death(p) => (b.stage.Serving? || b.stage.Stopping?) && p in b.pools && b.pools[p].running > 0
    case Shutdown => b.stage.Serving?
    case Stutter => true
  }

  function Next(b: Book, e: Entry): Book
    requires Allowed(b, e)
  {
    match e
    case Begin => b.(stage := Serving, pools := map p | p in b.pools :: b.pools[p].(gaugeRunning := b.pools[p].running))
    case Restart(p) => b.(pools := b.pools[p := b.pools[p].(restarts := b.pools[p].restarts + 1)])
    case Death(p) =>
      var c := b.pools[p];
      b.(stage := if b.stage.Stopping? && b.terminated + 1 == b.total then Returned(false) else b.stage,
         terminated := b.terminated + 1,
         pools := b.pools[p := c.(running := c.running - 1, gaugeRunning := c.gaugeRunning - 1, gaugeTerminated := c.gaugeTerminated + 1)])
    case Shutdown => b.(stage := if b.terminated == b.total then Returned(false) else Stopping)
    case Stutter => b
  }

  // ----- the view of the supervisor

  function CountersOf(i: Info): Counters {
    Counters(i.total, i.running, i.pool.workerRestarts + i.pool.proxyRestarts, i.gaugeRunning, i.gaugeTerminated)
  }

  function BookOf(s: State): Book {
    Book(s.stage, s.terminated, s.total, map p | p in s.pools :: CountersOf(s.pools[p]))
  }

  /** Which entry an action makes: only a received ProcessEnd, the launch and the shutdown make one. */
  function EntryOf(s: State, a: Action): Entry {
    if !Enabled(s, a) then Stutter
    else
      match a
      case Launch => Begin
      case RecvEnd(p, id, k, proxyFails) =>
        var i := OnSlot(s.pools[p], id, Reap(SlotOf(s, p, id), k));
        if HandleProcessEnd(i, id, s.stage.Stopping?, proxyFails).1.Nil? then Restart(p) else Death(p)
      case SelectDone => Shutdown
      case _ => Stutter
  }

  lemma RestartEntry(i: Info, id: string, k: nat, proxyFails: bool)
    requires InfoInv(i, Serving) && id in i.pool.slots
    requires EndPending(i.pool.slots[id], k) && WaitReturns(Reap(i.pool.slots[id], k))
    requires HandleProcessEnd(OnSlot(i, id, Reap(i.pool.slots[id], k)), id, false, proxyFails).1.Nil?
    ensures var j := CountRestart(HandleProcessEnd(OnSlot(i, id, Reap(i.pool.slots[id], k)), id, false, proxyFails).0);
            CountersOf(j) == CountersOf(i).(restarts := CountersOf(i).restarts + 1)
  {
    hide SlotsSound;
    hide Reap;
    hide Relaunch;
    PoolIsPrepared(i);
  }

  lemma PoolIsPrepared(i: Info)
    requires InfoInv(i, Serving)
    ensures i.pool.state == PoolState.Prepared
  {
    hide PoolSound;
  }

  lemma EndEntry(s: State, p: string, id: string, k: nat, proxyFails: bool)
    requires Inv(s) && Enabled(s, RecvEnd(p, id, k, proxyFails))
    ensures var e := EntryOf(s, RecvEnd(p, id, k, proxyFails));
            Allowed(BookOf(s), e) && BookOf(Apply(s, RecvEnd(p, id, k, proxyFails))) == Next(BookOf(s), e)
  {
    hide InfoInv;
    hide HandleProcessEnd;
    hide CountRestart;
    hide CountDeath;
    hide EndCounted;
    hide CountersOf;
    hide Reap;
    var i := s.pools[p];
    HasProcess(s, p, id, k);
    if s.stage.Serving? {
      ServingEnd(i, id, k, proxyFails);
      var (j, r) := HandleProcessEnd(OnSlot(i, id, Reap(SlotOf(s, p, id), k)), id, false, proxyFails);
      if r.Nil? {
        RestartEntry(i, id, k, proxyFails);
        RestartBook(s, p, CountRestart(j));
      } else {
        DeathStays(s, RecvEnd(p, id, k, proxyFails));
        CountedApply(s, p, id, k, proxyFails);
        CountedEntry(s, p, id, k, proxyFails);
      }
    } else {
      StoppingEnd(i, id, k, proxyFails);
      DeathStays(s, RecvEnd(p, id, k, proxyFails));
      CountedApply(s, p, id, k, proxyFails);
      CountedEntry(s, p, id, k, proxyFails);
    }
  }

  lemma CountedEntry(s: State, p: string, id: string, k: nat, proxyFails: bool)
    requires Enabled(s, RecvEnd(p, id, k, proxyFails))
    requires s.pools[p].running > 0 && CountersOf(s.pools[p]).running == s.pools[p].running
    requires var t := Apply(s, RecvEnd(p, id, k, proxyFails));
             && t == LoopTest(WithInfo(s, p, EndCounted(s.pools[p], id, k)).(terminated := s.terminated + 1, ctxDone := t.ctxDone))
             && (t.stage.Returned? ==> !t.stage.failed)
    ensures BookOf(Apply(s, RecvEnd(p, id, k, proxyFails))) == Next(BookOf(s), Death(p))
  {
    hide *;
    IsReceiving(s, RecvEnd(p, id, k, proxyFails));
    DeathEntry(s.pools[p], id, k);
    DeathBook(s, p, EndCounted(s.pools[p], id, k), Apply(s, RecvEnd(p, id, k, proxyFails)));
  }

  lemma IsReceiving(s: State, a: Action)
    requires Enabled(s, a) && a.RecvEnd?
    ensures Receiving(s) && a.pool in s.pools && a.id in s.pools[a.pool].pool.slots
    ensures EndPending(s.pools[a.pool].pool.slots[a.id], a.k)
    ensures s.pools[a.pool].pool.proxied ==> PROXY_ID in s.pools[a.pool].pool.slots
  {
  }

  lemma CountedApply(s: State, p: string, id: string, k: nat, proxyFails: bool)
    requires Enabled(s, RecvEnd(p, id, k, proxyFails))
    requires var (j, r) := HandleProcessEnd(OnSlot(s.pools[p], id, Reap(SlotOf(s, p, id), k)), id, s.stage.Stopping?, proxyFails);
             !r.Nil? && !r.Panic? && (j.pool.proxied ==> PROXY_ID in j.pool.slots) && CountDeath(j) == EndCounted(s.pools[p], id, k)
    ensures var t := Apply(s, RecvEnd(p, id, k, proxyFails));
            t == LoopTest(WithInfo(s, p, EndCounted(s.pools[p], id, k)).(terminated := s.terminated + 1, ctxDone := t.ctxDone))
  {
    hide HandleProcessEnd;
    hide CountDeath;
    hide EndCounted;
    hide Reap;
    var r := HandleProcessEnd(OnSlot(s.pools[p], id, Reap(SlotOf(s, p, id), k)), id, s.stage.Stopping?, proxyFails).1;
    match r case Nil => case TooMany => case NoProxy => case AlreadyTerminating => case Panic =>
  }

  lemma RestartBook(s: State, p: string, j: Info)
    requires s.stage.Serving? && p in s.pools && s.pools[p].running > 0
    requires CountersOf(s.pools[p]).running == s.pools[p].running
    requires CountersOf(j) == CountersOf(s.pools[p]).(restarts := CountersOf(s.pools[p]).restarts + 1)
    ensures BookOf(WithInfo(s, p, j)) == Next(BookOf(s), Restart(p))
  {
    hide CountersOf;
    assert BookOf(WithInfo(s, p, j)).pools == Next(BookOf(s), Restart(p)).pools;
  }

  lemma DeathStays(s: State, a: Action)
    requires Inv(s) && Enabled(s, a) && a.RecvEnd?
    ensures Apply(s, a).stage.Returned? ==> !Apply(s, a).stage.failed
  {
    hide InfoInv;
    hide Apply;
    EndKeeps(s, a.pool, a.id, a.k, a.proxyFails);
  }

  lemma DeathBook(s: State, p: string, j: Info, t: State)
    requires Receiving(s) && p in s.pools && s.pools[p].running > 0
    requires CountersOf(s.pools[p]).running == s.pools[p].running
    requires var c := CountersOf(s.pools[p]);
             CountersOf(j) == c.(running := c.running - 1, gaugeRunning := c.gaugeRunning - 1, gaugeTerminated := c.gaugeTerminated + 1)
    requires t == LoopTest(WithInfo(s, p, j).(terminated := s.terminated + 1, ctxDone := t.ctxDone))
    requires t.stage.Returned? ==> !t.stage.failed
    ensures BookOf(t) == Next(BookOf(s), Death(p))
  {
    hide CountersOf;
    assert BookOf(t).pools == Next(BookOf(s), Death(p)).pools;
  }

  lemma DeathEntry(i: Info, id: string, k: nat)
    requires id in i.pool.slots && EndPending(i.pool.slots[id], k) && (i.pool.proxied ==> PROXY_ID in i.pool.slots)
    ensures CountersOf(EndCounted(i, id, k)) ==
            CountersOf(i).(running := i.running - 1, gaugeRunning := i.gaugeRunning - 1, gaugeTerminated := i.gaugeTerminated + 1)
    ensures var c := CountersOf(i);
            c.running == i.running && c.gaugeRunning == i.gaugeRunning && c.gaugeTerminated == i.gaugeTerminated
  {
    hide Reap;
    hide Terminate;
  }

  /** A pool with an unreceived end has a process that is counted as running. */
  lemma HasProcess(s: State, p: string, id: string, k: nat)
    requires Inv(s) && !s.stage.Ready? && HasSlot(s, p, id) && EndPending(SlotOf(s, p, id), k)
    ensures CountersOf(s.pools[p]).running == s.pools[p].running > 0
  {
    hide Sound;
    assert InfoInv(s.pools[p], s.stage);
    SoundAt(s.pools[p].pool, id);
    OneEnd(SlotOf(s, p, id), k);
    BooksRange(s.pools[p], s.stage);
  }

  /** Counter refinement, one step. */
  lemma StepRefines(s: State, a: Action)
    requires Inv(s)
    ensures Allowed(BookOf(s), EntryOf(s, a)) && BookOf(Step(s, a)) == Next(BookOf(s), EntryOf(s, a))
  {
    hide InfoInv;
    if Enabled(s, a) {
      match a
      case Launch => LaunchEntry(s);
      case RecvEnd(p, id, k, proxyFails) => EndEntry(s, p, id, k, proxyFails);
      case SelectDone => DrainEntry(s);
      case World(p, id, k, ev) => SlotEntry(s, a);
      case RecvExceeded(_, _) => SlotEntry(s, a);
      case RecvNeedsInterrupt(_, _) => SlotEntry(s, a);
      case RecvNeedsTermination(_, _) => SlotEntry(s, a);
      case CancelContext =>
    }
  }

  lemma SlotEntry(s: State, a: Action)
    requires Enabled(s, a)
    requires a.World? || a.RecvExceeded? || a.RecvNeedsInterrupt? || a.RecvNeedsTermination?
    ensures BookOf(Apply(s, a)) == BookOf(s)
  {
    hide Happen;
    hide Terminate;
    hide ForceTerminate;
    assert CountersOf(Apply(s, a).pools[a.pool]) == CountersOf(s.pools[a.pool]);
    assert BookOf(Apply(s, a)).pools == BookOf(s).pools;
  }

  lemma LaunchEntry(s: State)
    requires Inv(s) && s.stage.Ready?
    ensures BookOf(Apply(s, Launch)) == Next(BookOf(s), Begin)
  {
    hide InfoInv;
    hide Fresh;
    hide RunPool;
    hide CountersOf;
    forall p | p in s.pools ensures CountersOf(Apply(s, Launch).pools[p]) == Next(BookOf(s), Begin).pools[p] {
      assert Fresh(s.pools[p]);
      LaunchCounters(s.pools[p]);
    }
    assert BookOf(Apply(s, Launch)).pools == Next(BookOf(s), Begin).pools;
  }

  lemma LaunchCounters(i: Info)
    requires Fresh(i)
    ensures CountersOf(RunPool(i)) == CountersOf(i).(gaugeRunning := CountersOf(i).running)
  {
    hide RunAll;
    var q := RunAll(i.pool);
    assert q.workerRestarts == i.pool.workerRestarts && q.proxyRestarts == i.pool.proxyRestarts by {
      RunAllCounts(i.pool);
    }
  }

  lemma RunAllCounts(p: Pool)
    ensures RunAll(p).workerRestarts == p.workerRestarts && RunAll(p).proxyRestarts == p.proxyRestarts
  {
  }

  lemma DrainEntry(s: State)
    requires Enabled(s, SelectDone)
    ensures BookOf(Apply(s, SelectDone)) == Next(BookOf(s), Shutdown)
  {
    hide Terminate;
    assert BookOf(Apply(s, SelectDone)).pools == BookOf(s).pools;
  }

  /** The entries of a run. */
  ghost function Entries(s: State, run: seq<Action>): seq<Entry>
    decreases |run|
  {
    if run == [] then [] else
      var n := |run| - 1;
      Entries(s, run[..n]) + [EntryOf(Exec(s, run[..n]), run[n])]
  }

  /** `b` is reached from `a` by making the given entries, each of them allowed. */
  ghost predicate Reaches(a: Book, entries: seq<Entry>, b: Book)
    decreases |entries|
  {
    if entries == [] then a == b else
      var n := |entries| - 1;
      exists m :: Reaches(a, entries[..n], m) && Allowed(m, entries[n]) && b == Next(m, entries[n])
  }

  // ----- what the abstract machine guarantees by itself

  function LostOf(c: Counters): int { c.total - c.running }

  /** Every counter is in range, deaths are what the pools have lost, and a return is complete. */
  ghost predicate Sane(b: Book) {
    && (forall p | p in b.pools ::
          && 0 <= b.pools[p].running <= b.pools[p].total && b.pools[p].restarts >= 0
          && b.pools[p].gaugeRunning == (if b.stage.Ready? then 0 else b.pools[p].running)
          && b.pools[p].gaugeTerminated == LostOf(b.pools[p]))
    && b.terminated == Sum(b.pools, LostOf)
    && (b.stage.Stopping? ==> b.terminated != b.total) && (b.stage.Returned? ==> b.terminated == b.total)
  }

  lemma SaneNext(b: Book, e: Entry)
    requires Sane(b) && Allowed(b, e)
    ensures Sane(Next(b, e))
  {
    var n := Next(b, e);
    if e.Begin? {
      Congruent(b.pools, LostOf, n.pools, LostOf);
    } else if e.Restart? || e.Death? {
      Update(b.pools, LostOf, e.pool, n.pools[e.pool]);
    }
  }

  /** Restarts, deaths and the shutdown alone keep the machine sane, along any entries it allows. */
  lemma {:induction false} SaneReaches(a: Book, entries: seq<Entry>, b: Book)
    requires Sane(a) && Reaches(a, entries, b)
    ensures Sane(b)
    decreases |entries|
  {
    if entries != [] {
      var n := |entries| - 1;
      var m :| Reaches(a, entries[..n], m) && Allowed(m, entries[n]) && b == Next(m, entries[n]);
      SaneReaches(a, entries[..n], m);
      SaneNext(m, entries[n]);
    }
  }

  /** Counter refinement, over whole runs. */
  lemma {:induction false} RunRefines(s: State, run: seq<Action>)
    requires Inv(s)
    ensures Reaches(BookOf(s), Entries(s, run), BookOf(Exec(s, run)))
    decreases |run|
  {
    if run != [] {
      hide Inv;
      hide BookOf;
      hide EntryOf;
      var n := |run| - 1;
      var t := Exec(s, run[..n]);
      RunRefines(s, run[..n]);
      InvRun(s, run[..n]);
      StepRefines(t, run[n]);
      assert Entries(s, run)[..|Entries(s, run)| - 1] == Entries(s, run[..n]);
      assert Reaches(BookOf(s), Entries(s, run[..n]), BookOf(t)) && Allowed(BookOf(t), EntryOf(t, run[n]));
    }
  }
}
