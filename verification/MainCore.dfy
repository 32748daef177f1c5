/**
 `mainCore`: a signal watcher, the admin interface and the supervisor run side by side; the
 first of the latter two to finish stops the other, and both are waited for. The supervisor is
 the transition system of `Supervisor`, whose context the others cancel.
 */
module MainCore {
  import opened Worker
  import opened Pool
  import opened Supervisor
  import opened Invariant
  import opened Shutdown
  import opened Progress

  /** Whose result came first, and whether it is an error. */
  datatype First = FromAdmin(failed: bool) | FromSupervisor(failed: bool)

  datatype Waiting = Selecting | Joining(first: First) | Finished(first: First)

  datatype Result = Running | Finished(failed: bool)

  datatype Whole = Whole(
    supervisor: State,
    supervisorResult: Result,  // what the supervisor's goroutine has put into its channel
    adminResult: Result,
    adminDone: bool,           // the admin context is cancelled
    signalled: bool,
    watching: bool,
    main: Waiting)

  datatype Move =
    | SignalArrives
    | WatcherCancels
    | WatcherQuits
    | SupervisorMoves(a: Action)
    | SupervisorNotCreated
    | SupervisorReturns
    | AdminReturns(failed: bool)
    | TakeAdmin
    | TakeSupervisor
    | Join

  predicate CanMove(w: Whole, m: Move) {
    match m
    case SignalArrives => true
    case WatcherCancels => w.watching && w.signalled
    case WatcherQuits => w.watching && (w.supervisor.ctxDone || w.adminDone)
    case SupervisorMoves(a) =>
      !a.CancelContext? && Enabled(w.supervisor, a) && (w.supervisorResult.Running? || a.World?)
    case SupervisorNotCreated => w.supervisorResult.Running? && w.supervisor.stage.Ready?
    case SupervisorReturns => w.supervisorResult.Running? && w.supervisor.stage.Returned?
    case AdminReturns(_) => w.adminResult.Running?
    case TakeAdmin => w.main.Selecting? && w.adminResult.Finished?
    case TakeSupervisor => w.main.Selecting? && w.supervisorResult.Finished?
    case Join => w.main.Joining? && w.adminResult.Finished? && w.supervisorResult.Finished?
  }

  function Cancel(s: State): State {
    s.(ctxDone := true)
  }

  ghost function After(w: Whole, m: Move): Whole {
    if !CanMove(w, m) then w
    else
      match m
      case SignalArrives => w.(signalled := true)
      case WatcherCancels => w.(supervisor := Cancel(w.supervisor), adminDone := true, watching := false)
      case WatcherQuits => w.(watching := false)
      case SupervisorMoves(a) => w.(supervisor := Apply(w.supervisor, a))
      case SupervisorNotCreated => w.(supervisorResult := Result.Finished(true))
      case SupervisorReturns => w.(supervisorResult := Result.Finished(w.supervisor.stage.failed))
      case AdminReturns(failed) => w.(adminResult := Result.Finished(failed))
      case TakeAdmin => w.(main := Joining(FromAdmin(w.adminResult.failed)), supervisor := Cancel(w.supervisor))
      case TakeSupervisor => w.(main := Joining(FromSupervisor(w.supervisorResult.failed)), adminDone := true)
      case Join => w.(main := Waiting.Finished(w.main.first))
  }

  ghost function Moves(w: Whole, moves: seq<Move>): Whole
    decreases |moves|
  {
    if moves == [] then w else After(Moves(w, moves[..|moves| - 1]), moves[|moves| - 1])
  }

  predicate Begins(w: Whole) {
    && w.supervisorResult == w.adminResult == Result.Running
    && !w.adminDone && !w.supervisor.ctxDone && !w.signalled && w.watching && w.main.Selecting?
  }

  /** No incarnation of the slot has been started and has not ended. */
  predicate Quiet(s: Slot) {
    && (s.cur.phase.Prepared? || s.cur.phase.Reaped?)
    && forall k | 0 <= k < |s.past| :: s.past[k].phase.Reaped?
  }

  /** Nothing is alive that the supervisor has started. */
  ghost predicate NothingAlive(s: State) {
    forall p, id | HasSlot(s, p, id) :: Quiet(SlotOf(s, p, id))
  }

  /** The result taken first is the one that was delivered, and its taker has stopped the other side. */
  predicate Took(w: Whole, first: First) {
    match first
    case FromAdmin(failed) => w.adminResult == Result.Finished(failed) && w.supervisor.ctxDone
    case FromSupervisor(failed) => w.supervisorResult == Result.Finished(failed) && w.adminDone
  }

  ghost predicate WholeInv(w: Whole) {
    && Inv(w.supervisor)
    && (w.supervisorResult.Finished? ==>
          if w.supervisorResult.failed then w.supervisor.stage.Ready? else w.supervisor.stage == Returned(false))
    && (!w.watching ==> w.supervisor.ctxDone || w.adminDone)
    && (w.main.Joining? || w.main.Finished? ==> Took(w, w.main.first))
    && (w.main.Finished? ==> w.adminResult.Finished? && w.supervisorResult.Finished?)
  }

  lemma CancelKeeps(s: State)
    requires Inv(s)
    ensures Inv(Cancel(s))
  {
    InvStep(s, CancelContext);
    assert Step(s, CancelContext) == Cancel(s);
  }

  lemma ReadyStays(s: State, a: Action)
    requires Inv(s) && Enabled(s, a)
    ensures s.ctxDone ==> Apply(s, a).ctxDone
    ensures s.stage.Returned? && a.World? ==> Apply(s, a).stage == s.stage
    ensures s.stage.Ready? ==> !a.World?
  {
    hide InfoInv;
    hide HandleProcessEnd;
    hide CountDeath;
  }

  lemma WholeStep(w: Whole, m: Move)
    requires WholeInv(w)
    ensures WholeInv(After(w, m))
  {
    hide Inv;
    hide Enabled;
    hide Apply;
    CancelKeeps(w.supervisor);
    if CanMove(w, m) && m.SupervisorMoves? {
      InvStep(w.supervisor, m.a);
      assert Step(w.supervisor, m.a) == Apply(w.supervisor, m.a);
      ReadyStays(w.supervisor, m.a);
    } else if CanMove(w, m) && m.SupervisorReturns? {
      ReturnsClean(w.supervisor);
    }
  }

  lemma ReturnsClean(s: State)
    requires Inv(s) && s.stage.Returned?
    ensures !s.stage.failed
  {
  }

  lemma BeginsWell(w: Whole)
    requires Begins(w) && Initial(w.supervisor)
    ensures WholeInv(w)
  {
    hide Inv;
    InitialInv(w.supervisor);
  }

  lemma MovesNone(w: Whole)
    ensures Moves(w, []) == w
  {
  }

  lemma MovesLast(w: Whole, moves: seq<Move>)
    requires moves != []
    ensures Moves(w, moves) == After(Moves(w, moves[..|moves| - 1]), moves[|moves| - 1])
  {
  }

  lemma {:induction false} WholeRun(w: Whole, moves: seq<Move>)
    requires Begins(w) && Initial(w.supervisor)
    ensures WholeInv(Moves(w, moves))
    decreases |moves|
  {
    hide *;
    if moves == [] {
      BeginsWell(w);
      MovesNone(w);
    } else {
      MovesLast(w, moves);
      WholeRun(w, moves[..|moves| - 1]);
      WholeStep(Moves(w, moves[..|moves| - 1]), moves[|moves| - 1]);
    }
  }

  lemma QuietSlot(id: string, s: Slot, maxRestarts: nat, launched: bool)
    requires SlotSound(id, s, maxRestarts, launched) && (Dead(s) || !launched)
    ensures Quiet(s)
  {
  }

  /** A state in which the supervisor has returned, or never started, has nothing alive. */
  lemma StoppedIsQuiet(s: State)
    requires Inv(s) && (s.stage.Ready? || s.stage.Returned?)
    ensures NothingAlive(s)
  {
    hide SlotSound;
    hide Quiet;
    if s.stage.Returned? {
      AllDead(s);
    }
    forall p, id | HasSlot(s, p, id) ensures Quiet(SlotOf(s, p, id)) {
      assert InfoInv(s.pools[p], s.stage);
      QuietSlot(id, SlotOf(s, p, id), s.pools[p].pool.maxRestarts, !s.stage.Ready?);
    }
  }

  /**
   Join: `mainCore` returns only after both the admin interface and the supervisor have
   returned, with the result it received first, and no managed process is alive then.
   */
  lemma JoinSafety(w: Whole, moves: seq<Move>)
    requires Begins(w) && Initial(w.supervisor)
    ensures var t := Moves(w, moves);
            t.main.Finished? ==>
              && t.adminResult.Finished? && t.supervisorResult.Finished?
              && (match t.main.first
                  case FromAdmin(failed) => t.adminResult == Result.Finished(failed)
                  case FromSupervisor(failed) => t.supervisorResult == Result.Finished(failed))
              && NothingAlive(t.supervisor)
  {
    hide Inv;
    WholeRun(w, moves);
    if Moves(w, moves).main.Finished? {
      StoppedIsQuiet(Moves(w, moves).supervisor);
    }
  }

  /** Something has happened that makes the program end: a signal, a cancelled context, or a result. */
  predicate Triggered(w: Whole) {
    w.signalled || w.supervisor.ctxDone || w.adminDone || w.adminResult.Finished? || w.supervisorResult.Finished?
  }

  /**
   A move that somebody is bound to make. The admin interface and the supervisor are bound to
   move on only once their own contexts are cancelled.
   */
  predicate Bound(w: Whole, m: Move) {
    CanMove(w, m) &&
    match m
    case SignalArrives => false
    case WatcherQuits => false
    case AdminReturns(_) => w.adminDone
    case SupervisorMoves(a) => w.supervisor.ctxDone && (a.Launch? || a.SelectDone? || Forced(w.supervisor, a))
    case SupervisorNotCreated => false
    case _ => true
  }

  /** No proxy keeps the supervisor in its shutdown loop. */
  predicate Clear(w: Whole) {
    w.supervisor.stage.Stopping? ==> ProxiesOk(w.supervisor)
  }

  lemma SupervisorMovesOn(w: Whole)
    requires WholeInv(w) && w.supervisorResult.Running? && w.supervisor.ctxDone && Clear(w)
    ensures exists m :: Bound(w, m)
  {
    var s := w.supervisor;
    if s.stage.Ready? {
      assert Bound(w, SupervisorMoves(Launch));
    } else if s.stage.Serving? {
      assert Bound(w, SupervisorMoves(SelectDone));
    } else if s.stage.Stopping? {
      SomethingForced(s);
      var a :| Due(s, a);
      assert Bound(w, SupervisorMoves(a));
    } else {
      assert Bound(w, SupervisorReturns);
    }
  }

  lemma SomebodyMoves(w: Whole)
    requires WholeInv(w) && Triggered(w) && Clear(w)
    ensures w.main.Finished? || exists m :: Bound(w, m)
  {
    hide Inv;
    hide ProxiesOk;
    if w.adminResult.Finished? && w.supervisorResult.Finished? && w.main.Joining? {
      assert Bound(w, Join);
    } else if w.main.Selecting? && w.adminResult.Finished? {
      assert Bound(w, TakeAdmin);
    } else if w.main.Selecting? && w.supervisorResult.Finished? {
      assert Bound(w, TakeSupervisor);
    } else if w.adminResult.Running? && w.adminDone {
      assert Bound(w, AdminReturns(false));
    } else if w.supervisorResult.Running? && w.supervisor.ctxDone {
      SupervisorMovesOn(w);
    } else if w.watching && w.signalled {
      assert Bound(w, WatcherCancels);
    }
  }

  /**
   Join: once a signal has arrived, a context is cancelled or one side has finished, then until
   `mainCore` returns somebody is bound to move, unless a proxy keeps the supervisor waiting.
   */
  lemma JoinProgress(w: Whole, moves: seq<Move>)
    requires Begins(w) && Initial(w.supervisor)
    requires Triggered(Moves(w, moves)) && Clear(Moves(w, moves))
    ensures var t := Moves(w, moves);
            t.main.Finished? || exists m :: Bound(t, m)
  {
    hide *;
    WholeRun(w, moves);
    SomebodyMoves(Moves(w, moves));
  }

  // ----- who can move

  /** Signals come at any time, a running admin interface may return with or without an error, and so on. */
  lemma WhoCanMove(w: Whole)
    ensures CanMove(w, SignalArrives)
    ensures CanMove(w, WatcherCancels) <==> w.watching && w.signalled
    ensures CanMove(w, WatcherQuits) <==> w.watching && (w.adminDone || w.supervisor.ctxDone)
    ensures forall failed :: CanMove(w, AdminReturns(failed)) <==> w.adminResult == Result.Running
    ensures CanMove(w, SupervisorNotCreated) <==> w.supervisorResult == Result.Running && w.supervisor.stage == Stage.Ready
    ensures CanMove(w, SupervisorReturns) <==> w.supervisorResult == Result.Running && w.supervisor.stage.Returned?
    ensures CanMove(w, TakeAdmin) <==> w.main == Waiting.Selecting && w.adminResult != Result.Running
    ensures CanMove(w, TakeSupervisor) <==> w.main == Waiting.Selecting && w.supervisorResult != Result.Running
    ensures forall a: Action | a.World? :: CanMove(w, SupervisorMoves(a)) <==> Enabled(w.supervisor, a)
    ensures forall a: Action | !a.World? && !a.CancelContext? && w.supervisorResult == Result.Running ::
              CanMove(w, SupervisorMoves(a)) <==> Enabled(w.supervisor, a)
  {
    hide Enabled;
  }

  // ----- who cancels what

  /** A caught signal cancels both contexts, and nothing else; a result cancels the other side's. */
  lemma WhoCancels(w: Whole, m: Move)
    ensures var t := After(w, m);
            && (t.adminDone <==> w.adminDone || (CanMove(w, m) && (m.WatcherCancels? || m.TakeSupervisor?)))
            && (!m.SupervisorMoves? ==>
                  (t.supervisor.ctxDone <==> w.supervisor.ctxDone || (CanMove(w, m) && (m.WatcherCancels? || m.TakeAdmin?)))
                  && t.supervisor.(ctxDone := w.supervisor.ctxDone) == w.supervisor)
            && (t.watching <==> w.watching && !(CanMove(w, m) && (m.WatcherCancels? || m.WatcherQuits?)))
            && (t.signalled <==> w.signalled || m.SignalArrives?)
  {
  }

  /** Once cancelled, both contexts stay so: a caught signal ends both sides. */
  lemma {:induction false} CancelLasts(w: Whole, moves: seq<Move>)
    ensures w.adminDone ==> Moves(w, moves).adminDone
    ensures w.supervisor.ctxDone ==> Moves(w, moves).supervisor.ctxDone
    decreases |moves|
  {
    if moves != [] {
      var n := |moves| - 1;
      CancelLasts(w, moves[..n]);
      WhoCancels(Moves(w, moves[..n]), moves[n]);
      if moves[n].SupervisorMoves? {
        ContextLasts(Moves(w, moves[..n]).supervisor, moves[n].a);
      }
    }
  }

  lemma ContextLasts(s: State, a: Action)
    ensures s.ctxDone && Enabled(s, a) ==> Apply(s, a).ctxDone
  {
    hide HandleProcessEnd;
    hide CountDeath;
    hide CountRestart;
  }

  /**
   A signal, in every run: when the watcher catches it both contexts are cancelled, whatever
   happens afterwards.
   */
  lemma SignalCancelsBoth(w: Whole, before: seq<Move>, after: seq<Move>)
    requires CanMove(Moves(w, before), WatcherCancels)
    ensures var t := Moves(After(Moves(w, before), WatcherCancels), after);
            t.adminDone && t.supervisor.ctxDone
  {
    hide Moves;
    CancelLasts(After(Moves(w, before), WatcherCancels), after);
  }

  // ----- the join takes boundedly many moves

  /** The supervisor has noticed its cancelled context, or its goroutine has finished. */
  predicate Ending(w: Whole) {
    Interrupted(w.supervisor.stage) || w.supervisorResult.Finished?
  }

  /** A move that gets the program closer to its end. */
  predicate ProductiveMove(w: Whole, m: Move) {
    CanMove(w, m) && !m.SignalArrives? && (m.SupervisorMoves? ==> Productive(w.supervisor, m.a))
  }

  /** What is left to do: the supervisor's own weight, two results, the watcher, and two steps of main. */
  ghost function MoveWeight(w: Whole): int {
    Weight(w.supervisor)
    + (if w.supervisorResult.Running? then 1 else 0)
    + (if w.adminResult.Running? then 1 else 0)
    + (if w.watching then 1 else 0)
    + (match w.main case Selecting => 2 case Joining(_) => 1 case Finished(_) => 0)
  }

  ghost function ProductiveMoves(w: Whole, moves: seq<Move>): nat
    decreases |moves|
  {
    if moves == [] then 0
    else
      var n := |moves| - 1;
      ProductiveMoves(w, moves[..n]) + (if ProductiveMove(Moves(w, moves[..n]), moves[n]) then 1 else 0)
  }

  /** Once it is ending, no move raises the weight, a productive one lowers it, and no proxy comes into the way. */
  lemma MoveWeighs(w: Whole, m: Move)
    requires WholeInv(w) && Ending(w) && Clear(w)
    ensures MoveWeight(After(w, m)) <= MoveWeight(w) - (if ProductiveMove(w, m) then 1 else 0)
    ensures Ending(After(w, m)) && Clear(After(w, m))
  {
    hide Inv;
    hide Weight;
    hide Enabled;
    hide Apply;
    hide Productive;
    hide ProxyOk;
    CancelWeighs(w.supervisor);
    CancelApplies(w.supervisor);
    if CanMove(w, m) && m.SupervisorMoves? {
      InterruptedMove(w.supervisor, m.a, w.supervisorResult.Finished?);
    }
  }

  lemma CancelApplies(s: State)
    ensures Enabled(s, CancelContext) && Apply(s, CancelContext) == Cancel(s)
  {
  }

  lemma InterruptedMove(s: State, a: Action, finished: bool)
    requires Inv(s) && Enabled(s, a) && (finished ==> a.World?)
    requires Interrupted(s.stage) || (finished && s.stage.Ready?)
    requires s.stage.Stopping? ==> ProxiesOk(s)
    ensures var t := Apply(s, a);
            && Weight(t) <= Weight(s) - (if Productive(s, a) then 1 else 0)
            && Interrupted(t.stage) && (t.stage.Stopping? ==> ProxiesOk(t))
  {
    hide Inv;
    hide Weight;
    hide Apply;
    hide ProxyOk;
    hide Productive;
    assert Step(s, a) == Apply(s, a);
    StepWeighs(s, a);
    if s.stage.Stopping? {
      AllOkStep(s, a);
    } else {
      ReturnedStays(s, a);
    }
  }

  lemma ReturnedStays(s: State, a: Action)
    requires s.stage.Returned? && Enabled(s, a)
    ensures Apply(s, a).stage.Returned?
  {
  }

  lemma {:induction false} MovesBound(w: Whole, moves: seq<Move>)
    requires WholeInv(w) && Ending(w) && Clear(w)
    ensures var t := Moves(w, moves);
            && WholeInv(t) && Ending(t) && Clear(t)
            && ProductiveMoves(w, moves) <= MoveWeight(w) - MoveWeight(t)
    decreases |moves|
  {
    hide *;
    MovesNone(w);
    ProductiveNone(w);
    if moves != [] {
      var n := |moves| - 1;
      var t := Moves(w, moves[..n]);
      MovesBound(w, moves[..n]);
      MovesLast(w, moves);
      ProductiveLast(w, moves);
      WholeStep(t, moves[n]);
      MoveWeighs(t, moves[n]);
    }
  }

  lemma ProductiveNone(w: Whole)
    ensures ProductiveMoves(w, []) == 0
  {
  }

  lemma ProductiveLast(w: Whole, moves: seq<Move>)
    requires moves != []
    ensures var n := |moves| - 1;
            ProductiveMoves(w, moves)
            == ProductiveMoves(w, moves[..n]) + (if ProductiveMove(Moves(w, moves[..n]), moves[n]) then 1 else 0)
  {
  }

  lemma BoundIsProductive(w: Whole, m: Move)
    requires WholeInv(w) && Ending(w) && Bound(w, m)
    ensures ProductiveMove(w, m)
  {
    hide Inv;
    hide Productive;
    hide Spontaneous;
  }

  lemma EndingTriggered(w: Whole)
    requires WholeInv(w) && Ending(w)
    ensures Triggered(w)
  {
    hide InfoInv;
  }

  lemma WeightOfWhole(w: Whole)
    ensures MoveWeight(w) >= 0
  {
    hide Weight;
    WeightBounded(w.supervisor);
  }

  /**
   Return: once the supervisor has noticed its cancelled context, or has finished, and no proxy
   is in the way, every interleaving takes a bounded number of productive moves, and until
   `mainCore` has returned there is always one that somebody is bound to make.
   */
  lemma MainReturns(w: Whole, before: seq<Move>, after: seq<Move>)
    requires Begins(w) && Initial(w.supervisor)
    requires Ending(Moves(w, before)) && Clear(Moves(w, before))
    ensures var t := Moves(w, before);
            var u := Moves(t, after);
            && ProductiveMoves(t, after) <= MoveWeight(t)
            && (u.main.Finished? || exists m :: Bound(u, m) && ProductiveMove(u, m))
  {
    hide *;
    WholeRun(w, before);
    var t := Moves(w, before);
    MovesBound(t, after);
    var u := Moves(t, after);
    WeightOfWhole(u);
    EndingTriggered(u);
    SomebodyMoves(u);
    if !u.main.Finished? {
      var m :| Bound(u, m);
      BoundIsProductive(u, m);
    }
  }
}
