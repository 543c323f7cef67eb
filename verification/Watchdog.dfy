/** The watchdog that ends a process whose job never returns. Every arm and disarm opens a new
    generation, and a timer remembers the one it was armed in: once that has passed the timer is void,
    also when its callback was already under way and a cancel came too late. */
module Watchdog {
  import opened Domain

  datatype Op = Arm | Disarm

  class Watchdog {
    var generation: nat
    var timer: Option<nat>
    /** Every arm and disarm so far. */
    ghost var ops: seq<Op>

    ghost predicate Valid()
      reads this
    {
      && generation == |ops|
      && timer == if ops != [] && ops[|ops| - 1] == Arm then Some(|ops|) else None
    }

    /** The last operation armed the watchdog. */
    predicate Armed()
      reads this
    {
      timer.Some?
    }

    constructor ()
      ensures Valid() && ops == [] && !Armed()
    {
      generation, timer, ops := 0, None, [];
    }

    /** The returned number is the generation handed to the new timer. */
    method ArmTimer() returns (g: nat)
      requires Valid()
      modifies this
      ensures Valid() && ops == old(ops) + [Arm] && Armed() && g == |ops|
    {
      generation := generation + 1;
      timer := Some(generation);
      g := generation;
      ops := ops + [Arm];
    }

    method DisarmTimer()
      requires Valid()
      modifies this
      ensures Valid() && ops == old(ops) + [Disarm] && !Armed()
    {
      generation := generation + 1;
      timer := None;
      ops := ops + [Disarm];
    }

    /** The callback of the timer started by operation number g. The process exits if and only if
        no arm or disarm happened after the arm that created the timer; in particular never while
        the watchdog is disarmed. */
    method Fire(g: nat) returns (exits: bool)
      requires Valid() && 1 <= g <= |ops| && ops[g - 1] == Arm
      ensures exits <==> ops[g..] == []
      ensures exits ==> Armed() && timer == Some(g)
    {
      exits := g == generation;
    }
  }
}
