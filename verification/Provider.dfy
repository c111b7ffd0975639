/** How the answer of the provider becomes an error the retry policy understands (internal/adapters/provider/webhook.go). */
module Provider {
  import opened Domain
  import opened Retry
  import Cursor

  const SECOND: Duration := 1_000_000_000
  const TOO_MANY_REQUESTS := 429
  const SERVICE_UNAVAILABLE := 503

  /** How a call ends. `date` is the instant the Retry-After header stands for when it reads as an HTTP date. */
  datatype Call =
    | NotBuilt
    | NoResponse
    | Answered(status: int, retryAfter: string, date: Option<Time>)

  /** Seconds, wrapped as 64-bit nanoseconds are, or a date, in which case a past one means at once. */
  function ParseRetryAfter(header: string, date: Option<Time>, now: Time): Option<Duration>
  {
    if header == "" then None
    else if Cursor.ParseInt64(header).Some? then Some(Cursor.Wrap64(Cursor.ParseInt64(header).value * SECOND))
    else if date.Some? then Some(if date.value - now < 0 then 0 else date.value - now)
    else None
  }

  function Classify(call: Call, now: Time): Result<(), ProviderError>
  {
    match call
    case NotBuilt => Err(ProviderError(true, None))
    case NoResponse => Err(ProviderError(false, None))
    case Answered(status, header, date) =>
      if 200 <= status < 300 then Ok(())
      else if status == TOO_MANY_REQUESTS then Err(ProviderError(false, ParseRetryAfter(header, date, now)))
      else if 400 <= status < 500 then Err(ProviderError(true, None))
      else Err(ProviderError(false, None))
  }

  /** The header reads as a number of seconds or as a date. */
  predicate IsParsable(header: string, date: Option<Time>)
  {
    header != "" && (Cursor.ParseInt64(header).Some? || date.Some?)
  }

  /** A Retry-After is passed on exactly for a 429 whose header can be read. */
  lemma RetryAfterIff(call: Call, now: Time)
    ensures Classify(call, now).Err? && Classify(call, now).error.retryAfter.Some? <==>
            call.Answered? && call.status == 429 && IsParsable(call.retryAfter, call.date)
  {
    hide Cursor.ParseInt64, Cursor.Wrap64;
  }

  /** An answer counts against the recipient for good exactly for the other client errors; success is exactly 2xx. */
  lemma PermanentIff(call: Call, now: Time)
    ensures Classify(call, now).Ok? <==> call.Answered? && 200 <= call.status <= 299
    ensures Classify(call, now).Err? && Classify(call, now).error.permanent <==>
            call.NotBuilt? || (call.Answered? && 400 <= call.status <= 499 && call.status != 429)
  {
    hide Cursor.ParseInt64, Cursor.Wrap64;
  }

  /** The documented case the code does not cover: the seconds of a 503 are dropped, and the schedule decides. */
  lemma UnavailableIgnoresRetryAfter(p: Policy, now: Time, attempts: nat, n: nat, date: Option<Time>, u: Draw)
    ensures var r := Classify(Answered(SERVICE_UNAVAILABLE, Cursor.FormatInt(n), date), now);
            && r.Err? && r.error.retryAfter.None?
            && Evaluate(p, now, attempts, Some(r.error), u) == Evaluate(p, now, attempts, None, u)
  {
    hide Cursor.ParseInt64, Cursor.Wrap64, BackoffFor;
  }

  /** The seconds of a 429 decide when the next attempt is due, as long as one is left. */
  lemma RateLimitSetsRetry(p: Policy, now: Time, attempts: nat, n: nat, date: Option<Time>, u: Draw)
    requires 0 < n && n * SECOND <= Cursor.MAX_INT64 && attempts + 1 < p.maxAttempts
    ensures var r := Classify(Answered(TOO_MANY_REQUESTS, Cursor.FormatInt(n), date), now);
            r.Err? && Evaluate(p, now, attempts, Some(r.error), u) == RetryAt(attempts + 1, now + n * SECOND)
  {
    hide Cursor.ParseInt64, Cursor.FormatInt, BackoffFor;
    Cursor.Int64RoundTrip(n);
    FormattedIsNotEmpty(n);
    assert Cursor.Wrap64(n * SECOND) == n * SECOND;
  }

  /** The date of a 429 decides when the next attempt is due, if it is still to come; else the schedule does. */
  lemma DateSetsRetry(p: Policy, now: Time, attempts: nat, header: string, date: Time, u: Draw)
    requires header != "" && Cursor.ParseInt64(header).None? && attempts + 1 < p.maxAttempts
    ensures var r := Classify(Answered(429, header, Some(date)), now);
            r.Err? && !r.error.permanent
            && Evaluate(p, now, attempts, Some(r.error), u) ==
               RetryAt(attempts + 1, if now < date then date else now + BackoffFor(p, attempts + 1, u))
  {
    hide Cursor.ParseInt64, BackoffFor;
  }

  /** What a header asks for: its seconds if it is a number, else the time to its date, and nothing if it is neither. */
  lemma HeaderAsks(header: string, date: Option<Time>, now: Time)
    ensures ParseRetryAfter(header, date, now) ==
            if header == "" || (Cursor.ParseInt64(header).None? && date.None?) then None
            else if Cursor.ParseInt64(header).Some? then Some(Cursor.Wrap64(Cursor.ParseInt64(header).value * 1_000_000_000))
            else if now <= date.value then Some(date.value - now) else Some(0)
  {
    hide Cursor.ParseInt64;
  }

  lemma FormattedIsNotEmpty(n: nat)
    ensures Cursor.FormatInt(n) != ""
  {
    Cursor.DigitsRoundTrip(n);
  }
}
