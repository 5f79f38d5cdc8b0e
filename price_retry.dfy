/** The bounded retry of `upsertPriceRecord` (utils/supabase/admin.ts): an
    upsert failing with a foreign-key error is retried, up to `maxRetries`
    times, before it throws; any other error throws at once. The error of
    each attempt is the parameter `upsertError`, indexed by the attempt's
    `retryCount`; the 2 s pause between attempts is not modelled. */
module PriceRetry {
  import opened Wrappers
  import opened Text

  const DefaultMaxRetries: nat := 3
  const ForeignKeyMarker: string := "foreign key constraint"

  /** How the call ends, and the `retryCount` of its last attempt plus one. */
  datatype PriceOutcome = Upserted(attempts: nat) | Threw(attempts: nat, retriesExhausted: bool)

  predicate IsForeignKeyError(e: Option<string>) {
    e.Some? && Contains(e.value, ForeignKeyMarker)
  }

  function UpsertPriceRecord(upsertError: nat -> Option<string>, retryCount: nat, maxRetries: nat): (r: PriceOutcome)
    ensures retryCount < r.attempts
    ensures retryCount <= maxRetries ==> r.attempts <= maxRetries + 1
    ensures r.Threw? && r.retriesExhausted ==> r.attempts == maxRetries + 1 || r.attempts == retryCount + 1
    decreases if retryCount < maxRetries then maxRetries - retryCount else 0
  {
    var e := upsertError(retryCount);
    if IsForeignKeyError(e) then
      if retryCount < maxRetries then UpsertPriceRecord(upsertError, retryCount + 1, maxRetries)
      else Threw(retryCount + 1, true)
    else if e.Some? then Threw(retryCount + 1, false)
    else Upserted(retryCount + 1)
  }

  /** Only foreign-key errors are retried: every attempt before the last one
      failed with a foreign-key error. */
  lemma {:induction false} OnlyForeignKeyRetried(upsertError: nat -> Option<string>, retryCount: nat, maxRetries: nat)
    ensures forall k :: retryCount <= k < UpsertPriceRecord(upsertError, retryCount, maxRetries).attempts - 1
                        ==> IsForeignKeyError(upsertError(k))
    decreases if retryCount < maxRetries then maxRetries - retryCount else 0
  {
    if IsForeignKeyError(upsertError(retryCount)) && retryCount < maxRetries {
      OnlyForeignKeyRetried(upsertError, retryCount + 1, maxRetries);
    }
  }

  /** The last attempt decides the outcome: success, another error (thrown at
      once), or a foreign-key error with no retries left. */
  lemma {:induction false} LastAttemptDecides(upsertError: nat -> Option<string>, retryCount: nat, maxRetries: nat)
    ensures var r := UpsertPriceRecord(upsertError, retryCount, maxRetries);
            var last := upsertError(r.attempts - 1);
            && (r.Upserted? <==> last.None?)
            && (r.Threw? && !r.retriesExhausted <==> last.Some? && !IsForeignKeyError(last))
            && (r.Threw? && r.retriesExhausted ==> IsForeignKeyError(last) && r.attempts - 1 >= maxRetries)
    decreases if retryCount < maxRetries then maxRetries - retryCount else 0
  {
    if IsForeignKeyError(upsertError(retryCount)) && retryCount < maxRetries {
      LastAttemptDecides(upsertError, retryCount + 1, maxRetries);
    }
  }

  /** With the defaults, a price upsert is attempted at most four times, and
      four foreign-key errors in a row make it throw. */
  lemma DefaultAtMostFourAttempts(upsertError: nat -> Option<string>)
    ensures UpsertPriceRecord(upsertError, 0, DefaultMaxRetries).attempts <= 4
    ensures (forall k :: 0 <= k <= 3 ==> IsForeignKeyError(upsertError(k))) ==>
              UpsertPriceRecord(upsertError, 0, DefaultMaxRetries) == Threw(4, true)
  {
  }
}
