/**
 * A one-shot stop flag shared between a source and its tokens
 * (lab6/stopToken/StopToken.h). The `shared_ptr<atomic_flag>` becomes a
 * reference to one `StopFlag` object; test-and-set is one atomic step.
 */
module StopTokens {

  /** The shared flag. */
  class StopFlag {
    var isSet: bool

    constructor()
      ensures !isSet
    {
      isSet := false;
    }

    /** Sets the flag and reports whether it was already set. */
    method TestAndSet() returns (wasSet: bool)
      modifies this
      ensures wasSet == old(isSet) && isSet
    {
      wasSet := isSet;
      isSet := true;
    }
  }

  class StopToken {
    /** The flag of the source it came from; null once the token has been moved from. */
    var stopRequested: StopFlag?

    /** Only a source hands out tokens. */
    constructor(stopRequested: StopFlag)
      ensures this.stopRequested == stopRequested
    {
      this.stopRequested := stopRequested;
    }

    /** A move: the new token shares the source's flag, and `other` is left empty. */
    constructor Move(other: StopToken)
      modifies other
      ensures stopRequested == old(other.stopRequested) && other.stopRequested == null
    {
      stopRequested := other.stopRequested;
      new;
      other.stopRequested := null;
    }

    /** Whether a stop was requested: every token of one source answers alike. */
    predicate StopRequested()
      requires stopRequested != null
      reads this, stopRequested
      ensures StopRequested() <==> stopRequested.isSet
    {
      stopRequested.isSet
    }
  }

  class StopSource {
    const stopRequested: StopFlag

    constructor()
      ensures fresh(stopRequested) && !stopRequested.isSet
    {
      stopRequested := new StopFlag();
    }

    /** Requests a stop; only the first request returns true. The flag never clears. */
    method RequestStop() returns (first: bool)
      modifies stopRequested
      ensures first == !old(stopRequested.isSet) && stopRequested.isSet
    {
      var wasSet := stopRequested.TestAndSet();
      first := !wasSet;
    }

    /** A token observing this source's flag. */
    method GetToken() returns (token: StopToken)
      ensures fresh(token) && token.stopRequested == stopRequested
    {
      token := new StopToken(stopRequested);
    }
  }

  /**
   * The life of a source: tokens taken before and after the request, and one
   * moved to a new owner, all read false before the first request and true
   * after it; only the first request succeeds.
   */
  method StopScenario() returns (before: bool, first: bool, second: bool, early: bool, late: bool, moved: bool)
    ensures !before && first && !second && early && late && moved
  {
    var source := new StopSource();
    var token1 := source.GetToken();
    var token2 := source.GetToken();
    var token3 := new StopToken.Move(token2);
    before := token1.StopRequested() || token3.StopRequested();
    first := source.RequestStop();
    var token4 := source.GetToken();
    second := source.RequestStop();
    early := token1.StopRequested();
    late := token4.StopRequested();
    moved := token3.StopRequested();
  }
}
