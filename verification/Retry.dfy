/** Repeating an operation until it succeeds (core/src/dispatcher/utils.rs). The operation is given
    by its answers: `attempt(k)` is what call number `k` returns. */
module Retry {
  import opened Model

  /** `r` is the first success among the first `attempts + 1` answers, or the last error. */
  ghost predicate FirstSuccess<R, E>(attempt: nat -> Result<R, E>, attempts: nat, r: Result<R, E>, calls: nat) {
    && 1 <= calls <= attempts + 1
    && r == attempt(calls - 1)
    && (forall k: nat :: k < calls - 1 ==> attempt(k).Err?)
    && (r.Err? ==> calls == attempts + 1)
  }

  method RetryWithOpts<R, E>(attempt: nat -> Result<R, E>, delay: nat, attempts: nat)
      returns (r: Result<R, E>, calls: nat, slept: nat)
    ensures FirstSuccess(attempt, attempts, r, calls)
    ensures slept == delay * (calls - 1)
  {
    var attemptsLeft := attempts;
    calls, slept := 0, 0;
    while true
      invariant 0 <= attemptsLeft <= attempts && calls == attempts - attemptsLeft
      invariant forall k: nat :: k < calls ==> attempt(k).Err?
      invariant slept == delay * calls
      decreases attemptsLeft
    {
      r := attempt(calls);
      calls := calls + 1;
      match r
      case Ok(_) =>
        return;
      case Err(_) =>
        if attemptsLeft > 0 {
          attemptsLeft := attemptsLeft - 1;
          slept := slept + delay;
        } else {
          return;
        }
    }
  }

  const DELAY := 10
  const ATTEMPTS := 30

  method Retry<R, E>(attempt: nat -> Result<R, E>) returns (r: Result<R, E>, calls: nat, slept: nat)
    ensures FirstSuccess(attempt, ATTEMPTS, r, calls)
    ensures slept == 10 * (calls - 1) <= 300
  {
    r, calls, slept := RetryWithOpts(attempt, DELAY, ATTEMPTS);
  }

  /** A retried operation succeeds exactly when one of the first `attempts + 1` answers is a success. */
  lemma SucceedsIff<R, E>(attempt: nat -> Result<R, E>, attempts: nat, r: Result<R, E>, calls: nat)
    requires FirstSuccess(attempt, attempts, r, calls)
    ensures r.Ok? <==> exists k: nat :: k <= attempts && attempt(k).Ok?
  {
    if r.Ok? { assert calls - 1 <= attempts && attempt(calls - 1).Ok?; }
  }
}
