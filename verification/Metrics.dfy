/** The gauges for the number of workers of a pool that are running or terminated. */
module Metrics {

  class StateGauges {
    var running: map<string, int>
    var terminated: map<string, int>

    /** A gauge that was never touched reads 0. */
    function Running(pool: string): int
      reads this
    {
      if pool in running then running[pool] else 0
    }

    function Terminated(pool: string): int
      reads this
    {
      if pool in terminated then terminated[pool] else 0
    }

    constructor ()
      ensures forall p :: Running(p) == 0 && Terminated(p) == 0
    {
      running, terminated := map[], map[];
    }

    method AddRunningStats(pool: string, number: int)
      modifies this
      ensures Running(pool) == old(Running(pool)) + number
      ensures forall p | p != pool :: Running(p) == old(Running(p))
      ensures forall p :: Terminated(p) == old(Terminated(p))
    {
      running := running[pool := Running(pool) + number];
    }

    method IncrementRunningDecrementTerminated(pool: string)
      modifies this
      ensures Running(pool) == old(Running(pool)) + 1 && Terminated(pool) == old(Terminated(pool)) - 1
      ensures forall p | p != pool :: Running(p) == old(Running(p)) && Terminated(p) == old(Terminated(p))
    {
      terminated := terminated[pool := Terminated(pool) - 1];
      running := running[pool := Running(pool) + 1];
    }

    method DecrementRunningIncrementTerminated(pool: string)
      modifies this
      ensures Running(pool) == old(Running(pool)) - 1 && Terminated(pool) == old(Terminated(pool)) + 1
      ensures forall p | p != pool :: Running(p) == old(Running(p)) && Terminated(p) == old(Terminated(p))
    {
      running := running[pool := Running(pool) - 1];
      terminated := terminated[pool := Terminated(pool) + 1];
    }
  }
}
