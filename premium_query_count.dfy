/** The client-side mirror of the daily premium-query counter: a store with a
    `count` and an `isUnlimited` flag (true when the user has their own
    provider key), overwritten by `set`, `decrement` and `reset`. */
module PremiumQueryCount {

  /** The daily allowance the store starts from and resets to. */
  const DAILY_PREMIUM_QUERIES: int := 50

  /** `Math.max(0, count - 1)` unless the user is unlimited. */
  function DecrementedCount(count: int, isUnlimited: bool): (r: int)
    ensures isUnlimited ==> r == count
    ensures !isUnlimited ==> r >= 0
    ensures !isUnlimited && count > 0 ==> r == count - 1
    ensures !isUnlimited && count <= 0 ==> r == 0
  {
    if isUnlimited then count else if count - 1 > 0 then count - 1 else 0
  }

  /** The count after `n` successive decrements. */
  function DecrementedTimes(count: int, isUnlimited: bool, n: nat): int
    decreases n
  {
    if n == 0 then count else DecrementedTimes(DecrementedCount(count, isUnlimited), isUnlimited, n - 1)
  }

  /** `n` decrements in a row from a non-negative count never go below zero
      and take exactly `min(n, count)` queries off a limited user. */
  lemma {:induction false} RepeatedDecrement(count: int, isUnlimited: bool, n: nat)
    requires count >= 0
    ensures isUnlimited ==> DecrementedTimes(count, isUnlimited, n) == count
    ensures !isUnlimited ==> DecrementedTimes(count, isUnlimited, n) == if n <= count then count - n else 0
  {
    if n > 0 {
      RepeatedDecrement(DecrementedCount(count, isUnlimited), isUnlimited, n - 1);
    }
  }

  class PremiumQueryCountStore {
    var count: int
    var isUnlimited: bool

    /** The initial state: 50 queries, not unlimited. */
    constructor ()
      ensures count == DAILY_PREMIUM_QUERIES && !isUnlimited
    {
      count := DAILY_PREMIUM_QUERIES;
      isUnlimited := false;
    }

    /** `set(count, isUnlimited)` replaces both fields. */
    method Set(count: int, isUnlimited: bool)
      modifies this
      ensures this.count == count && this.isUnlimited == isUnlimited
    {
      this.count := count;
      this.isUnlimited := isUnlimited;
    }

    /** Takes one query off a limited user, never below zero; an unlimited
        user's state is left as it was. */
    method Decrement()
      modifies this
      ensures isUnlimited == old(isUnlimited)
      ensures count == DecrementedCount(old(count), old(isUnlimited))
    {
      if !isUnlimited {
        count := if count - 1 > 0 then count - 1 else 0;
      }
    }

    /** Back to 50 queries and not unlimited, whatever the prior state. */
    method Reset()
      modifies this
      ensures count == DAILY_PREMIUM_QUERIES && !isUnlimited
    {
      count := DAILY_PREMIUM_QUERIES;
      isUnlimited := false;
    }
  }
}
