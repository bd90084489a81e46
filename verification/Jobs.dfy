/** Job rows and finishJob's decision (lifecycle.go). Times are in seconds. */
module Jobs {

  datatype Status = Queued | Active | Paused | Completed | Failed | Canceled | Seeding

  datatype Kind = URL | Torrent | Social | WebDAV | Unrecognized

  datatype Row = Row(kind: Kind, status: Status, retries: int)

  datatype Settings = Settings(maxConcurrent: int, autoRetry: bool, maxAttempts: int)

  /** How a worker ends: completed, context cancelled, an error, or neither. */
  datatype Outcome = Complete | Stopped | Broke | Ended

  predicate Retries(row: Row, how: Outcome, conf: Settings) {
    how.Broke? && conf.autoRetry && row.retries < conf.maxAttempts
  }

  /** The row finishJob writes; it arms a timer exactly when Retries holds. */
  function Settle(row: Row, how: Outcome, conf: Settings): Row {
    match how
    case Complete => row.(status := Completed, retries := 0)
    case Stopped => row.(status := Paused)
    case Broke => row.(status := Failed, retries := if Retries(row, how, conf) then row.retries + 1 else row.retries)
    case Ended => row.(status := Failed)
  }

  // ----- autoRetryBackoff -----

  const FIRST_DELAY := 5
  const CEILING := 300

  function Pow3(n: nat): nat {
    if n == 0 then 1 else 3 * Pow3(n - 1)
  }

  function Min(a: int, b: int): int {
    if a < b then a else b
  }

  lemma {:induction false} Pow3Grows(m: nat, n: nat)
    requires m <= n
    ensures 1 <= Pow3(m) <= Pow3(n)
    decreases n
  {
    if m < n {
      Pow3Grows(m, n - 1);
    } else if n > 0 {
      Pow3Grows(m - 1, n - 1);
    }
  }

  /** The wait before the attempt'th automatic retry: min(5s * 3^(k-1), 5min). */
  method AutoRetryBackoff(attempt: int) returns (delay: int)
    ensures attempt >= 1 ==> delay == Min(FIRST_DELAY * Pow3(attempt - 1), CEILING)
    ensures attempt < 1 ==> delay == FIRST_DELAY
    ensures FIRST_DELAY <= delay <= CEILING
  {
    delay := FIRST_DELAY;
    var i := 1;
    while i < attempt
      invariant 1 <= i && (i <= attempt || (attempt < 1 && i == 1))
      invariant delay == FIRST_DELAY * Pow3(i - 1) < CEILING
    {
      delay := delay * 3;
      if delay >= CEILING {
        Pow3Grows(i, attempt - 1);
        return CEILING;
      }
      i := i + 1;
    }
    Pow3Grows(0, i - 1);
  }

  /** Later attempts never wait less. */
  lemma BackoffMonotone(j: nat, k: nat)
    requires 1 <= j <= k
    ensures FIRST_DELAY <= Min(FIRST_DELAY * Pow3(j - 1), CEILING) <= Min(FIRST_DELAY * Pow3(k - 1), CEILING)
  {
    Pow3Grows(j - 1, k - 1);
    Pow3Grows(0, j - 1);
  }
}
