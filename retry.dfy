/** The bounded retry loop shared by the Danbooru and Pixiv lookups:
    `for _ in range(1, 12): try: ...; break / except ...: sleep(5) else: ...`.
    The waiting between attempts is not modelled; what each attempt's outcome
    makes the loop do is given as a step function over the attempt number. */
module Retry {
  import opened Wrappers

  /** `range(1, 12)` runs the body at most eleven times. */
  const MaxAttempts: nat := 11

  /** What one attempt makes the loop do: stop with a value (`break`),
      go round again (a caught exception), or let an exception escape. */
  datatype Step<T> = Settle(value: T) | Again | Raise

  /** How the loop ends: settled on some attempt, ran out of attempts
      (the `else` clause of the `for`), or an exception escaped. */
  datatype Ending<T> = Settled(value: T, attempts: nat) | Exhausted | Escaped(attempts: nat)

  /** The number of attempts that were made. */
  function Attempts<T>(e: Ending<T>): nat {
    match e
    case Settled(_, k) => k
    case Escaped(k) => k
    case Exhausted => MaxAttempts
  }

  /** The loop's behaviour from attempt `k` on: the first attempt in
      `k..MaxAttempts` that does not say `Again` decides the ending. */
  function RetryFrom<T>(step: nat -> Step<T>, k: nat): (e: Ending<T>)
    requires 1 <= k <= MaxAttempts + 1
    ensures e.Settled? ==> k <= e.attempts <= MaxAttempts && step(e.attempts) == Settle(e.value)
    ensures e.Escaped? ==> k <= e.attempts <= MaxAttempts && step(e.attempts).Raise?
    ensures !e.Exhausted? ==> forall j :: k <= j < Attempts(e) ==> step(j).Again?
    ensures e.Exhausted? <==> forall j :: k <= j <= MaxAttempts ==> step(j).Again?
    decreases MaxAttempts + 1 - k
  {
    if k > MaxAttempts then Exhausted
    else
      match step(k)
      case Settle(v) => Settled(v, k)
      case Raise => Escaped(k)
      case Again => RetryFrom(step, k + 1)
  }

  /** The loop itself: attempts 1, 2, ... until one settles or raises, at most
      `MaxAttempts` of them. */
  method RetryLoop<T(==)>(step: nat -> Step<T>) returns (e: Ending<T>)
    ensures e == RetryFrom(step, 1)
    ensures 1 <= Attempts(e) <= MaxAttempts
  {
    var attempt := 1;
    while attempt <= MaxAttempts
      invariant 1 <= attempt <= MaxAttempts + 1
      invariant RetryFrom(step, 1) == RetryFrom(step, attempt)
    {
      match step(attempt) {
        case Settle(v) =>
          return Settled(v, attempt);
        case Raise =>
          return Escaped(attempt);
        case Again =>
      }
      attempt := attempt + 1;
    }
    return Exhausted;
  }

  /** A lookup's result: the value it returns (`None` included), or an
      exception that escapes to the caller. */
  datatype Lookup<T> = Answer(value: Option<T>) | Raised

  /** The value a lookup returns once its loop has ended: the settled value,
      `None` after the `else` clause, or the escaping exception. */
  function Conclude<T>(e: Ending<Option<T>>): Lookup<T> {
    match e
    case Settled(v, _) => Answer(v)
    case Exhausted => Answer(None)
    case Escaped(_) => Raised
  }
}
