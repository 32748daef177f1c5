/**
 At its start and at its shutdown the supervisor walks over all slots, one at a time, while
 the world goes on moving them. Such a walk has the effect of a single step with some of the
 world's moves before it and the others after it.
 */
module Walks {
  import opened Worker
  import opened Pool
  import Supervisor

  /** `Visit` is the supervisor coming to a slot, `Meanwhile` the world moving one. */
  datatype WalkStep<K> = Visit(key: K) | Meanwhile(key: K, k: nat, ev: ProcEvent)

  function Move<K>(m: map<K, Slot>, a: WalkStep<K>): map<K, Slot> {
    if a.Meanwhile? && a.key in m && a.k <= |m[a.key].past| && CanHappen(ProcAt(m[a.key], a.k), a.ev)
    then m[a.key := Happen(m[a.key], a.k, a.ev)]
    else m
  }

  function MoveAll<K>(m: map<K, Slot>, moves: seq<WalkStep<K>>): map<K, Slot>
    decreases |moves|
  {
    if moves == [] then m else Move(MoveAll(m, moves[..|moves| - 1]), moves[|moves| - 1])
  }

  /** The walk as it happens, with `f` done to each visited slot. */
  function Walk<K>(m: map<K, Slot>, steps: seq<WalkStep<K>>, f: (K, Slot) -> Slot): map<K, Slot>
    decreases |steps|
  {
    if steps == [] then m
    else
      var w, a := Walk(m, steps[..|steps| - 1], f), steps[|steps| - 1];
      if a.Meanwhile? then Move(w, a) else if a.key in w then w[a.key := f(a.key, w[a.key])] else w
  }

  /** The walk as one step. */
  function VisitAll<K>(m: map<K, Slot>, done: set<K>, f: (K, Slot) -> Slot): (r: map<K, Slot>)
    ensures r.Keys == m.Keys
  {
    map key | key in m :: if key in done then f(key, m[key]) else m[key]
  }

  function Done<K>(steps: seq<WalkStep<K>>): set<K> {
    set i | 0 <= i < |steps| && steps[i].Visit? :: steps[i].key
  }

  /** No slot is visited twice. */
  predicate Once<K(==)>(steps: seq<WalkStep<K>>) {
    forall i, j | 0 <= i < j < |steps| && steps[i].Visit? && steps[j].Visit? :: steps[i].key != steps[j].key
  }

  /** The moves of slots that had, or had not, been visited at the time. */
  function Moves<K(==)>(steps: seq<WalkStep<K>>, visited: bool): seq<WalkStep<K>>
    decreases |steps|
  {
    if steps == [] then []
    else
      var n := |steps| - 1;
      Moves(steps[..n], visited)
      + if steps[n].Meanwhile? && (steps[n].key in Done(steps[..n]) <==> visited) then [steps[n]] else []
  }

  predicate Untouched<K(==)>(moves: seq<WalkStep<K>>, key: K) {
    forall i | 0 <= i < |moves| :: moves[i].key != key
  }

  /** Moving other slots leaves a slot alone, and does not depend on it. */
  lemma {:induction false} MovesElsewhere<K>(m: map<K, Slot>, moves: seq<WalkStep<K>>, key: K, s: Slot)
    requires key in m && Untouched(moves, key)
    ensures key in MoveAll(m, moves) && MoveAll(m, moves)[key] == m[key]
    ensures MoveAll(m[key := s], moves) == MoveAll(m, moves)[key := s]
    decreases |moves|
  {
    hide Happen;
    hide CanHappen;
    if moves != [] {
      MovesElsewhere(m, moves[..|moves| - 1], key, s);
    }
  }

  lemma {:induction false} MovesKeepKeys<K>(m: map<K, Slot>, moves: seq<WalkStep<K>>)
    ensures MoveAll(m, moves).Keys == m.Keys
    decreases |moves|
  {
    if moves != [] {
      MovesKeepKeys(m, moves[..|moves| - 1]);
    }
  }

  lemma {:induction false} MovedWereVisited<K>(steps: seq<WalkStep<K>>, key: K)
    requires key !in Done(steps)
    ensures Untouched(Moves(steps, true), key)
    decreases |steps|
  {
    if steps != [] {
      var n := |steps| - 1;
      assert forall x | x in Done(steps[..n]) :: x in Done(steps);
      MovedWereVisited(steps[..n], key);
    }
  }

  lemma MoveAllAppend<K>(m: map<K, Slot>, moves: seq<WalkStep<K>>, a: WalkStep<K>)
    ensures MoveAll(m, moves + [a]) == Move(MoveAll(m, moves), a)
  {
    assert (moves + [a])[..|moves|] == moves;
  }

  lemma DoneNext<K>(steps: seq<WalkStep<K>>, n: nat)
    requires |steps| == n + 1
    ensures Done(steps) == Done(steps[..n]) + if steps[n].Visit? then {steps[n].key} else {}
  {
    forall key | key in Done(steps[..n]) ensures key in Done(steps) {
      var i :| 0 <= i < n && steps[i].Visit? && steps[i].key == key;
      assert steps[i] == steps[..n][i];
    }
    forall key | key in Done(steps) ensures key in Done(steps[..n]) || (steps[n].Visit? && key == steps[n].key) {
      var i :| 0 <= i <= n && steps[i].Visit? && steps[i].key == key;
      if i < n {
        assert steps[..n][i] == steps[i];
      }
    }
  }

  /** A slot is visited after moves that were not its own. */
  lemma VisitStep<K>(u: map<K, Slot>, done: set<K>, after: seq<WalkStep<K>>, key: K, f: (K, Slot) -> Slot)
    requires key in u && key !in done && Untouched(after, key)
    ensures var w := MoveAll(VisitAll(u, done, f), after);
            key in w && MoveAll(VisitAll(u, done + {key}, f), after) == w[key := f(key, w[key])]
  {
    var v := VisitAll(u, done, f);
    assert VisitAll(u, done + {key}, f) == v[key := f(key, u[key])];
    MovesElsewhere(v, after, key, f(key, u[key]));
  }

  /** The world moves a slot that has not been visited yet. */
  lemma EarlyMove<K>(u: map<K, Slot>, done: set<K>, after: seq<WalkStep<K>>, a: WalkStep<K>, f: (K, Slot) -> Slot)
    requires a.Meanwhile? && a.key in u && a.key !in done && Untouched(after, a.key)
    ensures Move(MoveAll(VisitAll(u, done, f), after), a) == MoveAll(VisitAll(Move(u, a), done, f), after)
  {
    hide Happen;
    hide CanHappen;
    var v, s := VisitAll(u, done, f), Move(u, a)[a.key];
    assert VisitAll(Move(u, a), done, f) == v[a.key := s];
    MovesElsewhere(v, after, a.key, s);
  }

  lemma NoSlot<K>(u: map<K, Slot>, done: set<K>, key: K, f: (K, Slot) -> Slot)
    requires key !in u
    ensures VisitAll(u, done + {key}, f) == VisitAll(u, done, f)
  {
  }

  /**
   Walks are atomic: however the world moves the slots during a walk, the outcome is that of
   the moves of slots not yet visited, then the whole walk at once, then the other moves.
   */
  lemma {:induction false} WalkIsAtomic<K>(m: map<K, Slot>, steps: seq<WalkStep<K>>, f: (K, Slot) -> Slot)
    requires Once(steps)
    ensures Walk(m, steps, f) == MoveAll(VisitAll(MoveAll(m, Moves(steps, false)), Done(steps), f), Moves(steps, true))
    decreases |steps|
  {
    if steps == [] {
      assert Done(steps) == {};
      assert VisitAll(m, {}, f) == m;
    } else {
      var n := |steps| - 1;
      WalkIsAtomic(m, steps[..n], f);
      LastStep(m, steps, n, f);
    }
  }

  lemma LastStep<K>(m: map<K, Slot>, steps: seq<WalkStep<K>>, n: nat, f: (K, Slot) -> Slot)
    requires |steps| == n + 1 && Once(steps)
    requires Walk(m, steps[..n], f)
          == MoveAll(VisitAll(MoveAll(m, Moves(steps[..n], false)), Done(steps[..n]), f), Moves(steps[..n], true))
    ensures Walk(m, steps, f) == MoveAll(VisitAll(MoveAll(m, Moves(steps, false)), Done(steps), f), Moves(steps, true))
  {
    var a, done := steps[n], Done(steps[..n]);
    var before, after := Moves(steps[..n], false), Moves(steps[..n], true);
    var u := MoveAll(m, before);
    var w := MoveAll(VisitAll(u, done, f), after);
    DoneNext(steps, n);
    MovesKeepKeys(m, before);
    MovesKeepKeys(VisitAll(u, done, f), after);
    hide Move;
    hide MoveAll;
    hide VisitAll;
    if a.Visit? {
      FirstVisit(steps, n);
      MovedWereVisited(steps[..n], a.key);
      assert Moves(steps, false) == before && Moves(steps, true) == after;
      if a.key in u {
        VisitStep(u, done, after, a.key, f);
      } else {
        NoSlot(u, done, a.key, f);
      }
    } else if a.key in done {
      assert Moves(steps, false) == before && Moves(steps, true) == after + [a] && Done(steps) == done;
      MoveAllAppend(VisitAll(u, done, f), after, a);
    } else {
      assert Moves(steps, false) == before + [a] && Moves(steps, true) == after && Done(steps) == done;
      MoveAllAppend(m, before, a);
      MovedWereVisited(steps[..n], a.key);
      if a.key in u {
        EarlyMove(u, done, after, a, f);
      } else {
        NoMove(u, a);
        NoMove(w, a);
      }
    }
  }

  lemma FirstVisit<K>(steps: seq<WalkStep<K>>, n: nat)
    requires |steps| == n + 1 && Once(steps) && steps[n].Visit?
    ensures steps[n].key !in Done(steps[..n])
  {
  }

  lemma NoMove<K>(m: map<K, Slot>, a: WalkStep<K>)
    requires a.key !in m
    ensures Move(m, a) == m
  {
  }

  /** A walk goes on step by step, and each move is counted once, as an early or as a late one. */
  lemma WalkGoesOn<K>(m: map<K, Slot>, steps: seq<WalkStep<K>>, a: WalkStep<K>, f: (K, Slot) -> Slot)
    ensures var w := Walk(m, steps, f);
            Walk(m, steps + [a], f) ==
            if a.key !in w then w else if a.Meanwhile? then Move(w, a) else w[a.key := f(a.key, w[a.key])]
    ensures |Moves(steps + [a], false)| + |Moves(steps + [a], true)|
         == |Moves(steps, false)| + |Moves(steps, true)| + if a.Meanwhile? then 1 else 0
  {
    assert (steps + [a])[..|steps|] == steps;
  }

  /** A move is what the world does to a pool in the transition system. */
  lemma MoveIsWorld(s: Supervisor.State, p: string, id: string, k: nat, ev: ProcEvent)
    requires p in s.pools && !s.stage.Ready?
    ensures Supervisor.Step(s, Supervisor.World(p, id, k, ev)).pools[p].pool.slots
         == Move(s.pools[p].pool.slots, Meanwhile(id, k, ev))
  {
    hide Happen;
    hide CanHappen;
  }

  // ----- the walks of a pool

  function RunOne(lifespan: bool): (string, Slot) -> Slot {
    (id, s) => Run(s, lifespan && id != PROXY_ID)
  }

  function InterruptOne(): (string, Slot) -> Slot {
    (id, s) => if id != PROXY_ID then Terminate(s) else s
  }

  /** Running and interrupting all slots, as `Pool` has them in one step, are what such walks amount to. */
  lemma PoolWalks(p: Pool, steps: seq<WalkStep<string>>)
    requires Once(steps) && Done(steps) == p.slots.Keys
    ensures var q := p.(slots := MoveAll(p.slots, Moves(steps, false)));
            && Walk(p.slots, steps, RunOne(p.lifespan)) == MoveAll(RunAll(q).slots, Moves(steps, true))
            && Walk(p.slots, steps, InterruptOne()) == MoveAll(InterruptAll(q).slots, Moves(steps, true))
  {
    hide Walk;
    hide MoveAll;
    hide Moves;
    hide Run;
    hide Terminate;
    var q := p.(slots := MoveAll(p.slots, Moves(steps, false)));
    MovesKeepKeys(p.slots, Moves(steps, false));
    WalkIsAtomic(p.slots, steps, RunOne(p.lifespan));
    WalkIsAtomic(p.slots, steps, InterruptOne());
    assert VisitAll(q.slots, Done(steps), RunOne(p.lifespan)) == RunAll(q).slots;
    assert VisitAll(q.slots, Done(steps), InterruptOne()) == InterruptAll(q).slots;
  }
}
