/** The cancellation token as a walk sees it: somebody else may set it between two polls, and
    nobody ever unsets it. `setAt` is the number of polls that still find it unset. */
module Cancellation {
  import opened Basics

  class CancellationToken {
    const setAt: Option<nat>
    var polls: nat

    constructor (setAt: Option<nat>)
      ensures this.setAt == setAt && polls == 0
    {
      this.setAt := setAt;
      polls := 0;
    }

    predicate Cancelled()
      reads this
    {
      setAt.Some? && polls >= setAt.value
    }

    method IsCancelled() returns (cancelled: bool)
      modifies this
      ensures polls == old(polls) + 1
      ensures cancelled == old(Cancelled())
      ensures old(Cancelled()) ==> Cancelled()
    {
      cancelled := setAt.Some? && polls >= setAt.value;
      polls := polls + 1;
    }
  }
}
