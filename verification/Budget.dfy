// The evaluation budget of one collection cycle.
module Budget {
  import opened PolicyModel

  datatype BudgetError = DeadlineExceeded | CountExhausted

  /** `expired(n)` tells whether the deadline has passed when the budget is asked for the n-th time. */
  datatype BudgetState = Unlimited | Limited(remaining: int, asked: nat, expired: nat -> bool)

  datatype Spent = Spent(budget: BudgetState, error: Option<BudgetError>)

  /** The deadline is checked first, and then does not count against the remaining evaluations. */
  function Spend(b: BudgetState): Spent {
    match b
    case Unlimited => Spent(b, None)
    case Limited(remaining, asked, expired) =>
      if expired(asked) then Spent(Limited(remaining, asked + 1, expired), Some(DeadlineExceeded))
      else Spent(Limited(remaining - 1, asked + 1, expired), if remaining - 1 < 0 then Some(CountExhausted) else None)
  }

  predicate AlwaysExpired(n: nat) { true }

  /** A nil budget never runs out. */
  ghost function StateOf(b: CycleBudget?): BudgetState
    reads b
  {
    if b == null then Unlimited else Limited(b.remaining, b.asked, b.expired)
  }

  class CycleBudget {
    const expired: nat -> bool
    var remaining: int
    var asked: nat

    /** Non-positive limits give a budget that is exhausted from the start. */
    constructor (duration: int, maxEvals: int, clock: nat -> bool)
      ensures asked == 0 && remaining == if maxEvals > 0 then maxEvals else 0
      ensures if duration > 0 then expired == clock else forall n :: expired(n)
    {
      expired := clock;
      if duration <= 0 {
        expired := AlwaysExpired;
      }
      remaining := if maxEvals > 0 then maxEvals else 0;
      asked := 0;
    }

    method Consume() returns (error: Option<BudgetError>)
      modifies this
      ensures asked == old(asked) + 1
      ensures error == Some(DeadlineExceeded) <==> expired(old(asked))
      ensures error == Some(CountExhausted) <==> !expired(old(asked)) && old(remaining) <= 0
      ensures remaining == if expired(old(asked)) then old(remaining) else old(remaining) - 1
      ensures Spent(StateOf(this), error) == Spend(old(StateOf(this)))
    {
      var n := asked;
      asked := asked + 1;
      if expired(n) {
        return Some(DeadlineExceeded);
      }
      remaining := remaining - 1;
      if remaining < 0 {
        return Some(CountExhausted);
      }
      return None;
    }
  }

  method ConsumeOf(b: CycleBudget?) returns (error: Option<BudgetError>)
    modifies b
    ensures Spent(StateOf(b), error) == Spend(old(StateOf(b)))
    ensures b != null ==> b.asked == old(b.asked) + 1
  {
    if b == null {
      return None;
    }
    error := b.Consume();
  }
}
