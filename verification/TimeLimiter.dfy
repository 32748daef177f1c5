/**
 The lifespan limiter. `Monitor` may be called by several goroutines at once; a
 compare-and-swap on `isMonitoring` admits one of them, which clears the flag when its timer
 fires or its context is cancelled, and only then sends its event.
 */
module TimeLimiter {

  /**
   Life of an admitted monitor: `Fired` and `Leaving` have chosen their branch of the select
   and not yet cleared the flag; `Sending` has cleared it and waits for its event to be
   received; `Sent` has yet to bump the limit counter.
   */
  datatype Phase = Waiting | Fired | Leaving | Sending | Sent | Counted | Gone

  datatype Protocol = Protocol(
    timeout: nat,
    isMonitoring: bool,
    monitors: seq<Phase>,  // one for each successful compare-and-swap
    received: nat,         // ProcessExceededLimit events received
    limitCounter: nat)

  /** One atomic step. */
  datatype Step = Call | TimerFires(i: nat) | ContextDone(i: nat) | Clear(i: nat) | Receive(i: nat) | Count(i: nat)

  predicate Active(p: Phase) {
    p.Waiting? || p.Fired? || p.Leaving?
  }

  predicate HasFired(p: Phase) {
    p.Sending? || p.Sent? || p.Counted?
  }

  predicate Can(s: Protocol, a: Step) {
    match a
    case Call => true
    case TimerFires(i) => i < |s.monitors| && s.monitors[i].Waiting?
    case ContextDone(i) => i < |s.monitors| && s.monitors[i].Waiting?
    case Clear(i) => i < |s.monitors| && (s.monitors[i].Fired? || s.monitors[i].Leaving?)
    case Receive(i) => i < |s.monitors| && s.monitors[i].Sending?
    case Count(i) => i < |s.monitors| && s.monitors[i].Sent?
  }

  function Next(s: Protocol, a: Step): Protocol {
    if !Can(s, a) then s
    else
      match a
      case Call =>
        if s.timeout == 0 || s.isMonitoring then s
        else s.(isMonitoring := true, monitors := s.monitors + [Waiting])
      case TimerFires(i) => s.(monitors := s.monitors[i := Fired])
      case ContextDone(i) => s.(monitors := s.monitors[i := Leaving])
      case Clear(i) =>
        s.(isMonitoring := false, monitors := s.monitors[i := if s.monitors[i].Fired? then Sending else Gone])
      case Receive(i) => s.(monitors := s.monitors[i := Sent], received := s.received + 1)
      case Count(i) => s.(monitors := s.monitors[i := Counted], limitCounter := s.limitCounter + 1)
  }

  function Run(s: Protocol, run: seq<Step>): Protocol
    decreases |run|
  {
    if run == [] then s else Next(Run(s, run[..|run| - 1]), run[|run| - 1])
  }

  function New(timeout: nat): Protocol {
    Protocol(timeout, false, [], 0, 0)
  }

  function Tally(ps: seq<Phase>, mark: Phase -> bool): nat {
    if ps == [] then 0 else Tally(ps[..|ps| - 1], mark) + (if mark(ps[|ps| - 1]) then 1 else 0)
  }

  lemma {:induction false} TallyUpdate(ps: seq<Phase>, mark: Phase -> bool, i: nat, p: Phase)
    requires i < |ps|
    ensures Tally(ps[i := p], mark) == Tally(ps, mark) - (if mark(ps[i]) then 1 else 0) + (if mark(p) then 1 else 0)
  {
    var n := |ps| - 1;
    if i < n {
      TallyUpdate(ps[..n], mark, i, p);
      assert ps[i := p][..n] == ps[..n][i := p];
    } else {
      assert ps[i := p][..n] == ps[..n];
    }
  }

  lemma TallyAppend(ps: seq<Phase>, mark: Phase -> bool, p: Phase)
    ensures Tally(ps + [p], mark) == Tally(ps, mark) + (if mark(p) then 1 else 0)
  {
    assert (ps + [p])[..|ps|] == ps;
  }

  predicate IsGone(p: Phase) { p.Gone? }
  predicate IsSending(p: Phase) { p.Sending? }
  predicate IsSent(p: Phase) { p.Sent? }
  predicate IsCounted(p: Phase) { p.Counted? }

  /**
   The flag is set exactly while one admitted monitor has not cleared it; admissions are the
   active monitors, the cancelled exits and the firings; every firing yields at most one
   event, received before it is counted.
   */
  predicate Consistent(s: Protocol) {
    && Tally(s.monitors, Active) == (if s.isMonitoring then 1 else 0)
    && |s.monitors| == Tally(s.monitors, Active) + Tally(s.monitors, IsGone) + Tally(s.monitors, HasFired)
    && Tally(s.monitors, HasFired) == Tally(s.monitors, IsSending) + s.received
    && s.received == Tally(s.monitors, IsSent) + s.limitCounter
    && s.limitCounter == Tally(s.monitors, IsCounted)
  }

  /** All tallies at once, when monitor `i` moves. */
  lemma MonitorMoves(ps: seq<Phase>, i: nat, p: Phase)
    requires i < |ps|
    ensures Tally(ps[i := p], Active) == Tally(ps, Active) - Bit(Active(ps[i])) + Bit(Active(p))
    ensures Tally(ps[i := p], IsGone) == Tally(ps, IsGone) - Bit(IsGone(ps[i])) + Bit(IsGone(p))
    ensures Tally(ps[i := p], HasFired) == Tally(ps, HasFired) - Bit(HasFired(ps[i])) + Bit(HasFired(p))
    ensures Tally(ps[i := p], IsSending) == Tally(ps, IsSending) - Bit(IsSending(ps[i])) + Bit(IsSending(p))
    ensures Tally(ps[i := p], IsSent) == Tally(ps, IsSent) - Bit(IsSent(ps[i])) + Bit(IsSent(p))
    ensures Tally(ps[i := p], IsCounted) == Tally(ps, IsCounted) - Bit(IsCounted(ps[i])) + Bit(IsCounted(p))
  {
    hide Tally;
    TallyUpdate(ps, Active, i, p);
    TallyUpdate(ps, IsGone, i, p);
    TallyUpdate(ps, HasFired, i, p);
    TallyUpdate(ps, IsSending, i, p);
    TallyUpdate(ps, IsSent, i, p);
    TallyUpdate(ps, IsCounted, i, p);
  }

  function Bit(b: bool): int { if b then 1 else 0 }

  lemma MonitorStarts(ps: seq<Phase>)
    ensures Tally(ps + [Waiting], Active) == Tally(ps, Active) + 1
    ensures Tally(ps + [Waiting], IsGone) == Tally(ps, IsGone)
    ensures Tally(ps + [Waiting], HasFired) == Tally(ps, HasFired)
    ensures Tally(ps + [Waiting], IsSending) == Tally(ps, IsSending)
    ensures Tally(ps + [Waiting], IsSent) == Tally(ps, IsSent)
    ensures Tally(ps + [Waiting], IsCounted) == Tally(ps, IsCounted)
  {
    hide Tally;
    TallyAppend(ps, Active, Waiting);
    TallyAppend(ps, IsGone, Waiting);
    TallyAppend(ps, HasFired, Waiting);
    TallyAppend(ps, IsSending, Waiting);
    TallyAppend(ps, IsSent, Waiting);
    TallyAppend(ps, IsCounted, Waiting);
  }

  lemma ConsistentStep(s: Protocol, a: Step)
    requires Consistent(s)
    ensures Consistent(Next(s, a))
    ensures Can(s, a) && !a.Call? ==>
              Tally(Next(s, a).monitors, Active) == Tally(s.monitors, Active) - (if a.Clear? then 1 else 0)
  {
    hide Tally;
    if Can(s, a) {
      if a.Call? {
        MonitorStarts(s.monitors);
      } else {
        MonitorMoves(s.monitors, a.i, Next(s, a).monitors[a.i]);
      }
    }
  }

  lemma ConsistentMeans(s: Protocol)
    requires Consistent(s)
    ensures Tally(s.monitors, Active) == if s.isMonitoring then 1 else 0
  {
    hide Tally;
  }

  /** What a monitor, and the receiver of its event, can do next; a call is always possible. */
  lemma MonitorCan(s: Protocol, i: nat)
    requires i < |s.monitors|
    ensures var p := s.monitors[i];
            && Can(s, Call)
            && Can(s, TimerFires(i)) == Can(s, ContextDone(i)) == (Active(p) && !TimedOut(p) && !Withdrawn(p))
            && (Can(s, Clear(i)) <==> Active(p) && (TimedOut(p) || Withdrawn(p)))
            && (Can(s, Receive(i)) || Can(s, Count(i)) ==> TimedOut(p) && !Active(p))
            && (!Active(p) ==> Can(s, Receive(i)) || Can(s, Count(i)) || p.Counted? || p.Gone?)
            && (p.Counted? ==> HasFired(p)) && (p.Gone? ==> Withdrawn(p))
  {
  }

  // ----- timers and cancellations, and what becomes of a monitor

  /** The monitor's timer fired. */
  predicate TimedOut(p: Phase) {
    p.Fired? || p.Sending? || p.Sent? || p.Counted?
  }

  /** The monitor's context was cancelled first. */
  predicate Withdrawn(p: Phase) {
    p.Leaving? || p.Gone?
  }

  /** How many steps of the run were possible and of the kind `f`. */
  function Taken(s: Protocol, run: seq<Step>, f: Step -> bool): nat
    decreases |run|
  {
    if run == [] then 0
    else
      var n := |run| - 1;
      Taken(s, run[..n], f) + if Can(Run(s, run[..n]), run[n]) && f(run[n]) then 1 else 0
  }

  /** No step but its timer or its context decides which way a monitor goes. */
  lemma FateStep(s: Protocol, a: Step)
    ensures var t := Next(s, a);
            && Tally(t.monitors, TimedOut) == Tally(s.monitors, TimedOut) + Bit(Can(s, a) && a.TimerFires?)
            && Tally(t.monitors, Withdrawn) == Tally(s.monitors, Withdrawn) + Bit(Can(s, a) && a.ContextDone?)
            && t.received == s.received + Bit(Can(s, a) && a.Receive?)
            && t.limitCounter == s.limitCounter + Bit(Can(s, a) && a.Count?)
            && |t.monitors| >= |s.monitors|
            && forall i | 0 <= i < |s.monitors| ::
                 && (TimedOut(t.monitors[i]) <==> TimedOut(s.monitors[i]) || (Can(s, a) && a == TimerFires(i)))
                 && (Withdrawn(t.monitors[i]) <==> Withdrawn(s.monitors[i]) || (Can(s, a) && a == ContextDone(i)))
  {
    hide Tally;
    if Can(s, a) {
      if a.Call? {
        TallyAppend(s.monitors, TimedOut, Waiting);
        TallyAppend(s.monitors, Withdrawn, Waiting);
      } else {
        TallyUpdate(s.monitors, TimedOut, a.i, Next(s, a).monitors[a.i]);
        TallyUpdate(s.monitors, Withdrawn, a.i, Next(s, a).monitors[a.i]);
      }
    }
  }

  /**
   In every interleaving the timers that fired are the monitors that go on to send, and the
   cancellations those that leave; receipts and counts are the steps that made them.
   */
  lemma {:induction false} FatesCounted(timeout: nat, run: seq<Step>)
    ensures var s := Run(New(timeout), run);
            && Tally(s.monitors, TimedOut) == Taken(New(timeout), run, (a: Step) => a.TimerFires?)
            && Tally(s.monitors, Withdrawn) == Taken(New(timeout), run, (a: Step) => a.ContextDone?)
            && s.received == Taken(New(timeout), run, (a: Step) => a.Receive?)
            && s.limitCounter == Taken(New(timeout), run, (a: Step) => a.Count?)
    decreases |run|
  {
    hide Next;
    hide Can;
    if run != [] {
      FatesCounted(timeout, run[..|run| - 1]);
      FateStep(Run(New(timeout), run[..|run| - 1]), run[|run| - 1]);
    }
  }

  /** A monitor that was cancelled never sends, and one whose timer fired never leaves without sending. */
  lemma {:induction false} FateIsFinal(s: Protocol, run: seq<Step>, i: nat)
    requires i < |s.monitors|
    ensures var t := Run(s, run);
            && i < |t.monitors|
            && (Withdrawn(s.monitors[i]) ==> Withdrawn(t.monitors[i]) && !Can(t, Receive(i)))
            && (TimedOut(s.monitors[i]) ==> TimedOut(t.monitors[i]))
            && (TimedOut(s.monitors[i]) && !Active(t.monitors[i]) ==>
                  Can(t, Receive(i)) || t.monitors[i].Sent? || t.monitors[i].Counted?)
    decreases |run|
  {
    hide Next;
    if run != [] {
      FateIsFinal(s, run[..|run| - 1], i);
      FateStep(Run(s, run[..|run| - 1]), run[|run| - 1]);
    }
  }

  /** The limiter protocol, for every interleaving of calls, firings and cancellations. */
  lemma {:induction false} LimiterProtocol(timeout: nat, run: seq<Step>)
    ensures Consistent(Run(New(timeout), run))
    decreases |run|
  {
    if run != [] {
      LimiterProtocol(timeout, run[..|run| - 1]);
      ConsistentStep(Run(New(timeout), run[..|run| - 1]), run[|run| - 1]);
    }
  }

  /** No two monitors are active at once. */
  lemma OneMonitor(timeout: nat, run: seq<Step>, i: nat, j: nat)
    ensures var ps := Run(New(timeout), run).monitors;
            i < j < |ps| ==> !Active(ps[i]) || !Active(ps[j])
  {
    LimiterProtocol(timeout, run);
    var ps := Run(New(timeout), run).monitors;
    if i < j < |ps| && Active(ps[i]) && Active(ps[j]) {
      TwoCounted(ps, i, j);
    }
  }

  lemma {:induction false} TwoCounted(ps: seq<Phase>, i: nat, j: nat)
    requires i < j < |ps| && Active(ps[i]) && Active(ps[j])
    ensures Tally(ps, Active) >= 2
  {
    var n := |ps| - 1;
    if j < n {
      TwoCounted(ps[..n], i, j);
    } else {
      TallyUpdate(ps[..n], Active, i, Gone);
    }
  }

  // ----- the object

  class Limiter {
    const timeout: nat
    var isMonitoring: bool
    var monitors: seq<Phase>
    var received: nat
    var limitCounter: nat

    function View(): Protocol
      reads this
    {
      Protocol(timeout, isMonitoring, monitors, received, limitCounter)
    }

    constructor (timeout: nat)
      ensures View() == New(timeout) && Consistent(View())
    {
      this.timeout := timeout;
      isMonitoring, monitors, received, limitCounter := false, [], 0, 0;
    }

    method CompareAndSwap(was: bool, will: bool) returns (swapped: bool)
      modifies this`isMonitoring
      ensures swapped <==> old(isMonitoring) == was
      ensures isMonitoring == if swapped then will else old(isMonitoring)
    {
      swapped := isMonitoring == was;
      if swapped { isMonitoring := will; }
    }

    /** `Monitor`: a caller gets to start a monitor exactly when there is a timeout and no monitor is active. */
    method Monitor() returns (admitted: bool)
      requires Consistent(View())
      modifies this
      ensures Consistent(View()) && View() == Next(old(View()), Call)
      ensures admitted <==> timeout != 0 && Tally(old(monitors), Active) == 0
      ensures Tally(monitors, Active) == if admitted then 1 else Tally(old(monitors), Active)
    {
      ConsistentStep(View(), Call);
      if timeout == 0 {
        return false;
      }
      var swapped := CompareAndSwap(false, true);
      if !swapped {
        return false;
      }
      monitors := monitors + [Waiting];
      return true;
    }

    /**
     What the goroutine of monitor `a.i`, or its receiver, does next. The others are left alone;
     clearing the flag leaves no monitor active, so the next caller is admitted; and an event
     is received only from a monitor whose timer fired.
     */
    method Advance(a: Step)
      requires Consistent(View()) && !a.Call? && Can(View(), a)
      modifies this
      ensures Consistent(View()) && View() == Next(old(View()), a)
      ensures Tally(monitors, Active) == Tally(old(monitors), Active) - (if a.Clear? then 1 else 0)
      ensures a.Clear? ==> !isMonitoring && Tally(monitors, Active) == 0
      ensures TimedOut(monitors[a.i]) <==> TimedOut(old(monitors)[a.i]) || a.TimerFires?
      ensures Withdrawn(monitors[a.i]) <==> Withdrawn(old(monitors)[a.i]) || a.ContextDone?
      ensures a.Clear? && TimedOut(old(monitors)[a.i]) ==> Can(View(), Receive(a.i))
      ensures received == old(received) + (if a.Receive? then 1 else 0) && (a.Receive? ==> TimedOut(old(monitors)[a.i]))
      ensures limitCounter == old(limitCounter) + (if a.Count? then 1 else 0)
      ensures |monitors| == |old(monitors)| && forall j | 0 <= j < |monitors| && j != a.i :: monitors[j] == old(monitors)[j]
    {
      hide Tally;
      hide Consistent;
      ConsistentStep(View(), a);
      ConsistentMeans(View());
      ConsistentMeans(Next(View(), a));
      match a
      case TimerFires(i) => monitors := monitors[i := Fired];
      case ContextDone(i) => monitors := monitors[i := Leaving];
      case Clear(i) =>
        isMonitoring := false;
        monitors := monitors[i := if monitors[i].Fired? then Sending else Gone];
      case Receive(i) =>
        monitors := monitors[i := Sent];
        received := received + 1;
      case Count(i) =>
        monitors := monitors[i := Counted];
        limitCounter := limitCounter + 1;
    }
  }

  // ----- the timeout

  const NANOS_PER_MILLI := 1_000_000
  const FLOAT_STEP := 1.0 / 9007199254740992.0    // 2^-53

  datatype Timeout = Timeout(nanos: int) | BadBound

  /** `Milliseconds`, which truncates toward zero. */
  function Millis(nanos: int): int {
    if nanos >= 0 then nanos / NANOS_PER_MILLI else -(-nanos / NANOS_PER_MILLI)
  }

  /**
   `y` is what float64 makes of `x`: it is off by at most one part in 2^53, and it is at least
   1 exactly from the midpoint below 1 on (roundTiesToEven, section 4.3.1 of IEEE 754-2019).
   */
  predicate Float64(x: real, y: real) {
    && (var bound := FLOAT_STEP * (if x < 0.0 then -x else x); -bound <= y - x <= bound)
    && (y >= 1.0 <==> x >= 1.0 - FLOAT_STEP / 2.0)
  }

  /** There is a whole millisecond of jitter to draw from, or no jitter is asked for. */
  predicate Drawable(jitter: real, product: real) {
    jitter <= 0.0 || product >= 1.0
  }

  /**
   `newTimeLimiter`: a random number of milliseconds below the product of the jitter ratio and
   the timeout in milliseconds, a float64 multiplication, is added. Drawing panics unless the
   product, rounded down, is positive.
   */
  function NewTimeout(nanos: int, jitter: real, product: real, draw: nat): (r: Timeout)
    requires Float64(jitter * Millis(nanos) as real, product)
    requires jitter > 0.0 ==> draw < product.Floor || product.Floor <= 0
    ensures r.BadBound? <==> !Drawable(jitter, product)
    ensures r.BadBound? <==> jitter > 0.0 && jitter * Millis(nanos) as real < 1.0 - FLOAT_STEP / 2.0
    ensures r.Timeout? ==> nanos <= r.nanos
    ensures r.Timeout? && jitter > 0.0 ==> nanos > 0 && (r.nanos - nanos) as real < jitter * nanos as real * (1.0 + FLOAT_STEP)
    ensures r.Timeout? ==> r.nanos == nanos + if jitter > 0.0 then draw * NANOS_PER_MILLI else 0
  {
    if jitter > 0.0 then
      if product.Floor <= 0 then BadBound
      else
        JitterBelow(nanos, jitter, product, draw);
        Timeout(nanos + draw * NANOS_PER_MILLI)
    else Timeout(nanos)
  }

  lemma JitterBelow(nanos: int, jitter: real, product: real, draw: nat)
    requires jitter > 0.0 && product >= 1.0 && draw < product.Floor
    requires Float64(jitter * Millis(nanos) as real, product)
    ensures nanos > 0 && (draw * NANOS_PER_MILLI) as real < jitter * nanos as real * (1.0 + FLOAT_STEP)
  {
    var millis := Millis(nanos) as real;
    assert millis > 0.0;
    assert product <= jitter * millis * (1.0 + FLOAT_STEP);
    assert millis * NANOS_PER_MILLI as real <= nanos as real;
    Scaled(jitter, millis, nanos as real);
  }

  lemma Scaled(jitter: real, millis: real, nanos: real)
    requires jitter > 0.0 && millis * NANOS_PER_MILLI as real <= nanos
    ensures jitter * millis * (1.0 + FLOAT_STEP) * NANOS_PER_MILLI as real <= jitter * nanos * (1.0 + FLOAT_STEP)
  {
    assert jitter * (millis * NANOS_PER_MILLI as real) <= jitter * nanos;
  }
}
