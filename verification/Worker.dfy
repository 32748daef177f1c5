/**
 One worker slot of a pool: every incarnation of the process that ran in it, the events
 those incarnations have put on the supervisor's channel and that nobody has received yet,
 and the log records they have written.

 Events carry the slot's name and no incarnation, so an event sent on behalf of an old
 incarnation acts on whatever incarnation the pool holds when the event is received.
 */
module Worker {

  datatype ProcessStatus = PrepareWorkers | Running | Terminated

  /**
   Life of one incarnation. `Starting` is the window between `cmd.Start` and the moment the
   process has a PID. `Exited` means that the process has ended and that its one ProcessEnd
   event has not been received; `Reaped` means that it has been received.
   */
  datatype Phase = Prepared | Starting | Live | Exited | Reaped

  datatype Proc = Proc(
    phase: Phase,
    restarts: nat,      // the restart count this instance was built with
    streaming: bool,    // whether stdout and stderr are streamed to the log
    drained: bool,      // stdStreamChan has been closed, the last thing `LogSink.StreamLogs` does
    failed: bool,       // the process could not be started
    cancelled: bool,    // Terminate has cancelled the context of this instance
    killed: bool,       // SIGKILL has been issued to the running process
    timers: nat,        // armed signal timers of this instance
    limiter: bool)      // the lifespan limiter of this instance is armed

  /** What the outside world may do to one incarnation. */
  datatype ProcEvent =
    | Start | StartFail | Exit
    | TimerFires | LimiterFires | LimiterStops
    | Emit(text: string) | StreamsClose

  datatype Record = Started(k: nat) | Line(k: nat, text: string)

  /** `cur` is the instance stored in the pool's map; its incarnation number is `|past|`. */
  datatype Slot = Slot(
    past: seq<Proc>,
    cur: Proc,
    needsInterrupt: nat,    // unreceived ProcessNeedsInterrupt events
    needsTermination: nat,  // unreceived ProcessNeedsTermination events
    exceeded: nat,          // unreceived ProcessExceededLimit events
    log: seq<Record>)

  predicate Ended(p: Proc) {
    p.phase.Exited? || p.phase.Reaped?
  }

  function Status(p: Proc): ProcessStatus {
    if Ended(p) then Terminated else if p.phase.Live? then Running else PrepareWorkers
  }

  /** A process has a PID from its start on, and keeps it when it has ended. */
  predicate HasPid(p: Proc) {
    p.phase.Live? || (Ended(p) && !p.failed)
  }

  function NewProc(restarts: nat, streaming: bool): Proc {
    Proc(Prepared, restarts, streaming, false, false, false, false, 0, false)
  }

  function NewSlot(streaming: bool): Slot {
    Slot([], NewProc(0, streaming), 0, 0, 0, [])
  }

  // ----- what the supervisor does to a slot

  /** `Run` on the instance held by the slot. */
  function Run(s: Slot, lifespan: bool): Slot {
    s.(cur := s.cur.(phase := Starting, limiter := lifespan), log := s.log + [Started(|s.past|)])
  }

  /** Replace the instance held by the slot by a new one and run it. */
  function Relaunch(s: Slot, restarts: nat, streaming: bool, lifespan: bool): Slot {
    Run(s.(past := s.past + [s.cur], cur := NewProc(restarts, streaming)), lifespan)
  }

  function Cancel(s: Slot): Slot {
    s.(cur := s.cur.(cancelled := true))
  }

  /** `cmd.Stop` and what follows it: without a PID the request is sent back as an event. */
  function Signal(s: Slot): Slot {
    if HasPid(s.cur) then s.(cur := s.cur.(timers := s.cur.timers + 1))
    else s.(needsInterrupt := s.needsInterrupt + 1)
  }

  /** Ask for a graceful stop. */
  function Terminate(s: Slot): Slot {
    if Status(s.cur) == Terminated then s else Signal(Cancel(s))
  }

  /** SIGKILL by PID. Of the processes of the slot, only the current one is affected, if it runs. */
  function ForceTerminate(s: Slot): Slot {
    if s.cur.phase.Live? then s.(cur := s.cur.(killed := true)) else s
  }

  /** `WaitForWorkerToCleanBuffer` returns at once, with or without an error. */
  predicate WaitReturns(s: Slot) {
    Status(s.cur) != Terminated || !s.cur.streaming || s.cur.drained
  }

  // ----- what the outside world does to a slot

  function ProcAt(s: Slot, k: nat): Proc
    requires k <= |s.past|
  {
    if k < |s.past| then s.past[k] else s.cur
  }

  function WithProc(s: Slot, k: nat, p: Proc): Slot
    requires k <= |s.past|
  {
    if k < |s.past| then s.(past := s.past[k := p]) else s.(cur := p)
  }

  predicate CanHappen(p: Proc, ev: ProcEvent) {
    match ev
    case Start => p.phase.Starting?
    case StartFail => p.phase.Starting?
    case Exit => p.phase.Live?
    case TimerFires => p.timers > 0
    case LimiterFires => p.limiter
    case LimiterStops => p.limiter && p.cancelled
    case Emit(_) => p.streaming && !p.drained && (p.phase.Live? || Ended(p))
    case StreamsClose => !p.drained && (p.streaming ==> Ended(p))
  }

  function ProcAfter(p: Proc, ev: ProcEvent): Proc
    requires CanHappen(p, ev)
  {
    match ev
    case Start => p.(phase := Live)
    case StartFail => p.(phase := Exited, failed := true)
    case Exit => p.(phase := Exited)
    case TimerFires => p.(timers := p.timers - 1)
    case LimiterFires => p.(limiter := false)
    case LimiterStops => p.(limiter := false)
    case Emit(_) => p
    case StreamsClose => p.(drained := true)
  }

  /** A timer that finds its own instance terminated sends nothing. */
  function Happen(s: Slot, k: nat, ev: ProcEvent): Slot
    requires k <= |s.past| && CanHappen(ProcAt(s, k), ev)
  {
    var p := ProcAt(s, k);
    var t := WithProc(s, k, ProcAfter(p, ev));
    match ev
    case TimerFires => if Status(p) != Terminated then t.(needsTermination := t.needsTermination + 1) else t
    case LimiterFires => t.(exceeded := t.exceeded + 1)
    case Emit(text) => t.(log := t.log + [Line(k, text)])
    case _ => t
  }

  /** The ProcessEnd event of incarnation `k` waits to be received. */
  predicate EndPending(s: Slot, k: nat) {
    k <= |s.past| && ProcAt(s, k).phase.Exited?
  }

  /** Incarnation `k`'s ProcessEnd event is received. */
  function Reap(s: Slot, k: nat): Slot
    requires EndPending(s, k)
  {
    WithProc(s, k, ProcAt(s, k).(phase := Reaped))
  }

  // ----- invariants of a slot

  /** The slot will never hold another process: the last one ended and its end was received. */
  predicate Dead(s: Slot) {
    s.cur.phase.Reaped?
  }

  predicate Settled(p: Proc) {
    p.phase.Reaped? && (p.streaming ==> p.drained)
  }

  /**
   Something outstanding will, without any new request, end the running process: its end is
   already reported, or a stop request, a signal timer or a kill is on its way.
   */
  predicate Owed(s: Slot) {
    match s.cur.phase
    case Prepared => false
    case Starting => s.needsInterrupt > 0
    case Live => s.needsInterrupt > 0 || s.needsTermination > 0 || s.cur.timers > 0 || s.cur.killed
    case Exited => true
    case Reaped => false
  }

  /** Records come in incarnation order and an incarnation's start precedes its lines. */
  ghost predicate LogInOrder(log: seq<Record>, launched: nat) {
    && (forall i | 0 <= i < |log| :: log[i].k < launched)
    && (forall i, j | 0 <= i < j < |log| :: log[i].k <= log[j].k)
    && (forall i, j | 0 <= i < j < |log| && log[j].Started? :: log[i].k < log[j].k)
    && (forall k | 0 <= k < launched :: Started(k) in log)
  }

  /** How many incarnations have been run. */
  function Launched(s: Slot): nat {
    if s.cur.phase.Prepared? then |s.past| else |s.past| + 1
  }

  ghost predicate Sound(s: Slot) {
    && (forall k | 0 <= k < |s.past| :: Settled(s.past[k]))
    && (s.cur.phase.Reaped? ==> Settled(s.cur))
    && (s.cur.cancelled && !Ended(s.cur) ==> Owed(s))
    && (Status(s.cur) == PrepareWorkers ==> s.cur.timers == 0 && !s.cur.killed)
    && (s.cur.failed ==> Ended(s.cur))
    && (s.past == [] && s.needsTermination > 0 ==> HasPid(s.cur))
    && LogInOrder(s.log, Launched(s))
  }

  lemma SoundNew(streaming: bool, lifespan: bool)
    ensures Sound(NewSlot(streaming))
    ensures Sound(Run(NewSlot(streaming), lifespan))
  {
  }

  lemma SoundHappen(s: Slot, k: nat, ev: ProcEvent)
    requires Sound(s) && k <= |s.past| && CanHappen(ProcAt(s, k), ev)
    ensures Sound(Happen(s, k, ev))
    ensures Owed(s) ==> Owed(Happen(s, k, ev))
    ensures Dead(Happen(s, k, ev)) == Dead(s)
  {
    hide LogInOrder;
    if ev.Emit? {
      LineInOrder(s, k, ev.text);
      hide Owed;
    } else if k < |s.past| {
      assert Settled(ProcAfter(s.past[k], ev));
      hide Owed;
    }
  }

  /** Only the current incarnation can still write: earlier ones have been drained. */
  lemma LineInOrder(s: Slot, k: nat, text: string)
    requires Sound(s) && k <= |s.past| && CanHappen(ProcAt(s, k), Emit(text))
    ensures k == |s.past| && LogInOrder(s.log + [Line(k, text)], Launched(s))
  {
    var log := s.log + [Line(k, text)];
    forall j | 0 <= j < Launched(s) ensures Started(j) in log {
      assert Started(j) in s.log;
    }
  }

  lemma SoundTerminate(s: Slot)
    requires Sound(s) && !s.cur.phase.Prepared?
    ensures Sound(Terminate(s))
    ensures !Dead(s) ==> Owed(Terminate(s))
    ensures Dead(Terminate(s)) == Dead(s)
    ensures !Ended(s.cur) ==> Terminate(s).cur.cancelled
  {
  }

  /**
   A stop reads the status, cancels the context and signals the process. Whatever happens to
   the process in between, the outcome is that of the whole stop before it or after it.
   */
  lemma StopIsAtomic(s: Slot, k: nat, ev: ProcEvent)
    requires Sound(s) && Status(s.cur) != Terminated && k <= |s.past|
    ensures CanHappen(ProcAt(s, k), ev) ==>
              StopOrder(s, k, ev, Signal(Cancel(Happen(s, k, ev))))
    ensures CanHappen(ProcAt(Cancel(s), k), ev) ==>
              StopOrder(s, k, ev, Signal(Happen(Cancel(s), k, ev)))
  {
    hide LogInOrder;
  }

  /** `t` is what a stop and the event make of the slot, in one order or the other. */
  predicate StopOrder(s: Slot, k: nat, ev: ProcEvent, t: Slot)
    requires k <= |s.past|
  {
    || (CanHappen(ProcAt(s, k), ev) && t == Terminate(Happen(s, k, ev)))
    || (CanHappen(ProcAt(Terminate(s), k), ev) && t == Happen(Terminate(s), k, ev))
  }

  /** The slot holds the same process, in the same phase of its life. */
  predicate SameProcess(s: Slot, t: Slot) {
    t.past == s.past && t.cur.restarts == s.cur.restarts && t.cur.phase == s.cur.phase
  }

  /** Receiving a request to interrupt never loses the obligation it stood for. */
  lemma SoundInterruptAgain(s: Slot)
    requires Sound(s) && s.needsInterrupt > 0 && !s.cur.phase.Prepared?
    ensures var t := Terminate(s.(needsInterrupt := s.needsInterrupt - 1));
            SameProcess(s, t) && Sound(t) && Dead(t) == Dead(s) && (!Dead(s) ==> Owed(t)) && (Owed(s) ==> Owed(t))
  {
    hide LogInOrder;
  }

  /** Taking an exceeded limit off the channel, and stopping the process or dropping the event. */
  lemma SoundLimit(s: Slot)
    requires Sound(s) && s.exceeded > 0 && !s.cur.phase.Prepared?
    ensures var t := s.(exceeded := s.exceeded - 1);
            && SameProcess(s, t) && Sound(t) && Dead(t) == Dead(s) && Owed(t) == Owed(s)
            && SameProcess(s, Terminate(t)) && Sound(Terminate(t)) && Dead(Terminate(t)) == Dead(s)
            && (!Dead(s) ==> Owed(Terminate(t))) && (Owed(s) ==> Owed(Terminate(t)))
  {
    hide LogInOrder;
    SoundTerminate(s.(exceeded := s.exceeded - 1));
  }

  /** Receiving a request to kill never loses the obligation it stood for. */
  lemma SoundKill(s: Slot)
    requires Sound(s) && s.needsTermination > 0
    ensures var t := ForceTerminate(s.(needsTermination := s.needsTermination - 1));
            SameProcess(s, t) && Sound(t) && Dead(t) == Dead(s) && (Owed(s) ==> Owed(t))
  {
    hide LogInOrder;
  }

  /** Only the incarnation in the pool's map can have an unreceived ProcessEnd. */
  lemma OneEnd(s: Slot, k: nat)
    requires Sound(s) && EndPending(s, k)
    ensures k == |s.past| && s.cur.phase.Exited? && Status(s.cur) == Terminated
  {
  }

  lemma SoundReap(s: Slot, k: nat)
    requires Sound(s) && EndPending(s, k) && WaitReturns(s)
    ensures Sound(Reap(s, k)) && Dead(Reap(s, k))
  {
  }

  lemma SoundRelaunch(s: Slot, restarts: nat, streaming: bool, lifespan: bool)
    requires Sound(s) && Dead(s)
    ensures Sound(Relaunch(s, restarts, streaming, lifespan))
    ensures !Dead(Relaunch(s, restarts, streaming, lifespan))
  {
    var t := Relaunch(s, restarts, streaming, lifespan);
    assert t.log[|s.log|] == Started(|t.past|);
    forall k | 0 <= k < |t.past| ensures Started(k) in t.log {
      assert Started(k) in s.log;
    }
  }

  /**
   Log order across restarts: a line of incarnation `k` never stands after the start of a
   later incarnation, and never before the start of its own.
   */
  lemma LogOrder(s: Slot, i: nat, j: nat)
    requires Sound(s) && i < |s.log| && j < |s.log|
    requires s.log[i].Line? && s.log[j].Started?
    ensures s.log[i].k < s.log[j].k <==> i < j
  {
  }
}
