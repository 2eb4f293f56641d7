/** What a process meets outside itself: whether each of its calls raises is settled beforehand, so
    that a process cannot make up an exception. */
module Environment {
  import opened Protocol

  class World {
    // whether the k-th call raises, and if so whether it took effect first
    const plan: nat -> Fault
    var calls: nat

    constructor (plan: nat -> Fault)
      ensures this.plan == plan && calls == 0
    {
      this.plan, calls := plan, 0;
    }

    // None of these calls raises
    ghost predicate Calm(start: nat, end: nat) {
      forall k :: start <= k < end ==> plan(k).NoFault?
    }

    method Call() returns (fault: Fault)
      modifies this
      ensures calls == old(calls) + 1 && fault == plan(old(calls))
      ensures fault.NoFault? <==> Calm(old(calls), calls)
    {
      fault := plan(calls);
      calls := calls + 1;
    }
  }
}
