/** The in-memory count of Investigations that all creators and the cleanup share. */
module Counting {

  predicate Admits(count: int, max: int) {
    count < max
  }

  function Lowered(count: int, n: int): int {
    if count - n < 0 then 0 else count - n
  }

  /** Every method runs under the counter's mutex, so each is one step of the lifecycle protocol. */
  class InvestigationCounter {
    var count: int
    const max: int

    /** A maximum of 0 makes the operator panic. */
    constructor (max: int)
      requires max != 0
      ensures this.max == max && count == 0
    {
      this.max := max;
      count := 0;
    }

    method Init(n: int)
      modifies this
      ensures count == n
    {
      count := n;
    }

    method TryIncrement() returns (ok: bool)
      modifies this
      ensures ok == Admits(old(count), max) == (old(count) < max)
      ensures count == if ok then old(count) + 1 else old(count)
    {
      if count >= max {
        return false;
      }
      count := count + 1;
      return true;
    }

    method Decrement(n: int)
      modifies this
      ensures count == Lowered(old(count), n) == if old(count) < n then 0 else old(count) - n
    {
      count := count - n;
      if count < 0 {
        count := 0;
      }
    }

    method Count() returns (n: int)
      ensures n == count
    {
      n := count;
    }
  }
}
