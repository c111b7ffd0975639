/** The bounded rate-limit wait, and when it keeps every worker inside its lease. */
module Budget {
  import opened Domain
  import opened Database
  import opened Lifecycle
  import opened Integrity
  import opened Leases
  import opened PromptRuns

  const DEFAULT_WAIT_STEP: Duration := 50_000_000
  const DEFAULT_WAIT_MAX: Duration := 30_000_000_000

  /** What one call of the limiter answers, how long it takes, and whether the context ends during the sleep after it. */
  datatype Answer = Answer(allowed: bool, retryAfter: Duration, latency: nat, cancelled: bool)

  /** The defaults applied when a worker is built. */
  function WaitStep(configured: Duration): (step: Duration)
    ensures step > 0 && (configured > 0 ==> step == configured) && (configured <= 0 ==> step == 50_000_000)
  {
    if configured <= 0 then DEFAULT_WAIT_STEP else configured
  }

  function WaitMax(leaseTTL: Duration): (max: Duration)
    ensures max > 0 && (leaseTTL > 1 ==> max == leaseTTL / 2) && (leaseTTL <= 1 ==> max == 30_000_000_000)
  {
    if leaseTTL / 2 <= 0 then DEFAULT_WAIT_MAX else leaseTTL / 2
  }

  function SleepFor(a: Answer, step: Duration): Duration
  {
    if 0 < a.retryAfter < step then a.retryAfter else step
  }

  /** The wait from the i-th call on: whether it got a token, and when it returned. */
  function WaitFrom(now: Time, deadline: Time, step: Duration, answers: nat -> Answer, i: nat): (bool, Time)
    requires step > 0
    decreases if now > deadline then 0 else deadline - now + 1
  {
    var a := answers(i);
    var t := now + a.latency;
    if a.allowed then (true, t)
    else if t > deadline || a.cancelled then (false, t)
    else WaitFrom(t + SleepFor(a, step), deadline, step, answers, i + 1)
  }

  /** The wait loop. */
  method WaitForRateLimit(start: Time, max: Duration, step: Duration, answers: nat -> Answer) returns (ok: bool, now: Time)
    requires step > 0
    ensures (ok, now) == WaitFrom(start, start + max, step, answers, 0)
  {
    var deadline := start + max;
    var i := 0;
    now := start;
    while true
      invariant i >= 0
      invariant WaitFrom(start, deadline, step, answers, 0) == WaitFrom(now, deadline, step, answers, i)
      decreases if now > deadline then 0 else deadline - now + 1
    {
      var a := answers(i);
      now := now + a.latency;
      if a.allowed {
        return true, now;
      }
      if now > deadline {
        return false, now;
      }
      var wait := step;
      if a.retryAfter > 0 && a.retryAfter < wait {
        wait := a.retryAfter;
      }
      if a.cancelled {
        return false, now;
      }
      now := now + wait;
      i := i + 1;
    }
  }

  /** The wait is over one step and one call after its deadline at the latest. */
  lemma {:induction false} WaitIsBounded(now: Time, deadline: Time, step: Duration, answers: nat -> Answer, i: nat, latency: nat)
    requires step > 0 && now <= deadline + step && forall j :: i <= j ==> answers(j).latency <= latency
    ensures now <= WaitFrom(now, deadline, step, answers, i).1 <= deadline + step + latency
    decreases if now > deadline then 0 else deadline - now + 1
  {
    var a := answers(i);
    var t := now + a.latency;
    if !a.allowed && t <= deadline && !a.cancelled {
      WaitIsBounded(t + SleepFor(a, step), deadline, step, answers, i + 1, latency);
    }
  }

  /** When the n-th call is made, if the wait has not ended before. */
  function CallAt(now: Time, step: Duration, answers: nat -> Answer, i: nat, n: nat): Time
    decreases n - i
  {
    if n <= i then now
    else CallAt(now + answers(i).latency + SleepFor(answers(i), step), step, answers, i + 1, n)
  }

  /** The n-th call grants the token, and every call before it was denied by the deadline, with the context still alive. */
  predicate IsGrant(now: Time, deadline: Time, step: Duration, answers: nat -> Answer, i: nat, n: nat)
  {
    && i <= n && answers(n).allowed
    && forall j :: i <= j < n ==>
                     !answers(j).allowed && !answers(j).cancelled
                     && CallAt(now, step, answers, i, j) + answers(j).latency <= deadline
  }

  /** The wait is granted exactly when such a call exists, and it returns with that call. */
  lemma {:induction false} WaitGrantedIff(now: Time, deadline: Time, step: Duration, answers: nat -> Answer, i: nat)
    requires step > 0
    ensures WaitFrom(now, deadline, step, answers, i).0 <==> exists n: nat :: IsGrant(now, deadline, step, answers, i, n)
    ensures forall n: nat :: IsGrant(now, deadline, step, answers, i, n) ==>
                          WaitFrom(now, deadline, step, answers, i).1 == CallAt(now, step, answers, i, n) + answers(n).latency
    decreases if now > deadline then 0 else deadline - now + 1
  {
    var a := answers(i);
    var t := now + a.latency;
    if a.allowed {
      assert IsGrant(now, deadline, step, answers, i, i);
      forall n: nat | IsGrant(now, deadline, step, answers, i, n) ensures n == i {
      }
    } else if t > deadline || a.cancelled {
      forall n: nat ensures !IsGrant(now, deadline, step, answers, i, n) {
        assert CallAt(now, step, answers, i, i) == now;
      }
    } else {
      var next, k := t + SleepFor(a, step), i + 1;
      WaitGrantedIff(next, deadline, step, answers, k);
      forall n: nat | n > i
        ensures IsGrant(now, deadline, step, answers, i, n) <==> IsGrant(next, deadline, step, answers, k, n)
        ensures CallAt(now, step, answers, i, n) == CallAt(next, step, answers, k, n)
      {
        GrantCarriesOver(now, deadline, step, answers, i, n);
      }
      if m: nat :| IsGrant(next, deadline, step, answers, k, m) {
        assert IsGrant(now, deadline, step, answers, i, m);
      }
      if n: nat :| IsGrant(now, deadline, step, answers, i, n) {
        assert n > i && IsGrant(next, deadline, step, answers, k, n);
      }
    }
  }

  lemma GrantCarriesOver(now: Time, deadline: Time, step: Duration, answers: nat -> Answer, i: nat, n: nat)
    requires i < n && !answers(i).allowed && !answers(i).cancelled && now + answers(i).latency <= deadline
    ensures var next := now + answers(i).latency + SleepFor(answers(i), step);
            IsGrant(now, deadline, step, answers, i, n) <==> IsGrant(next, deadline, step, answers, i + 1, n)
  {
    var next := now + answers(i).latency + SleepFor(answers(i), step);
    assert forall j :: i < j <= n ==> CallAt(now, step, answers, i, j) == CallAt(next, step, answers, i + 1, j);
    assert CallAt(now, step, answers, i, i) == now;
  }

  /** Denials that walk up to the deadline, one more, and a slow grant. */
  function SlowestAnswers(max: nat, latency: nat): nat -> Answer
  {
    (i: nat) =>
      if i < max then Answer(false, 1, 0, false)
      else if i == max then Answer(false, 0, 0, false)
      else Answer(true, 0, latency, false)
  }

  /** No smaller bound holds: a token can be granted at the very end. */
  lemma {:induction false} WaitBoundIsReached(start: Time, max: nat, step: Duration, latency: nat, i: nat)
    requires step > 0 && i <= max
    ensures WaitFrom(start + i, start + max, step, SlowestAnswers(max, latency), i) == (true, start + max + step + latency)
    decreases max - i
  {
    if i < max {
      WaitBoundIsReached(start, max, step, latency, i + 1);
      assert SleepFor(Answer(false, 1, 0, false), step) == 1;
    } else {
      assert WaitFrom(start + max + step, start + max, step, SlowestAnswers(max, latency), max + 1)
          == (true, start + max + step + latency);
    }
  }

  // ---- The budget ----

  /** The worst case from claim to mark; `slack` bounds the other latency of each of its two phases. */
  function WorstCase(c: Config, slack: nat): Duration
  {
    c.rateWaitMax + c.rateWaitStep + slack + c.providerTimeout + slack
  }

  predicate WithinBudget(c: Config, slack: nat)
  {
    WorstCase(c, slack) <= c.leaseTTL
  }

  /** Every send under way was started on time. */
  ghost predicate StartedOnTime(c: Config, slack: nat, s: State)
  {
    forall w :: IsSending(s, w) ==>
                  s.workers[w].sendingSince.value <= s.workers[w].startedAt + c.rateWaitMax + c.rateWaitStep + slack
  }

  lemma OnTimeIsLive(c: Config, slack: nat, s: State, w: Id)
    requires WithinBudget(c, slack) && c.providerTimeout >= 0 && WellFormed(c, s) && StartedOnTime(c, slack, s)
    requires IsFlying(s, w) && IsOnTime(c, slack, s, w)
    ensures s.now <= s.workers[w].lease
  {
    assert WorkerOk(c, s.db.deliveries, s.workers[w]);
    assert IsSending(s, w) ==> s.workers[w].sendingSince.value <= s.workers[w].startedAt + c.rateWaitMax + c.rateWaitStep + slack;
  }

  lemma StepKeepsStarts(c: Config, slack: nat, s: State, a: Action)
    requires Enabled(c, s, a) && Prompt(c, slack, s, a) && StartedOnTime(c, slack, s)
    ensures StartedOnTime(c, slack, Apply(c, s, a))
  {
    hide NextDB, NextStreams, NextRelays;
    var t := Apply(c, s, a);
    forall w | IsSending(t, w)
      ensures t.workers[w].sendingSince.value <= t.workers[w].startedAt + c.rateWaitMax + c.rateWaitStep + slack
    {
      if a == StartSend(w) {
        assert IsOnTime(c, slack, s, w);
      } else {
        assert IsSending(s, w) && t.workers[w] == s.workers[w];
      }
    }
  }

  /** Within the budget, prompt workers never act on an expired lease. */
  lemma {:induction false} PromptRunsAreTimely(c: Config, slack: nat, s: State, acts: seq<Action>, t: State)
    requires WithinBudget(c, slack) && c.providerTimeout >= 0 && c.policy.maxAttempts >= 1
    requires WellFormed(c, s) && StartedOnTime(c, slack, s) && Run(c, s, acts, t) && PromptRun(c, slack, s, acts)
    ensures TimelyRun(c, s, acts) && StartedOnTime(c, slack, t)
    decreases |acts|
  {
    hide WellFormed, StartedOnTime, Enabled, Apply, IsOnTime;
    if acts != [] {
      var a := acts[0];
      if IsWorkerWrite(a) && IsFlying(s, a.w) {
        OnTimeIsLive(c, slack, s, a.w);
      }
      StepKeepsStarts(c, slack, s, a);
      StepKeepsWellFormed(c, s, a);
      PromptRunsAreTimely(c, slack, Apply(c, s, a), acts[1..], t);
    }
  }

  /** Within the budget, a delivery whose worker is still on time is never reaped. */
  lemma NeverReapedInFlight(c: Config, slack: nat, s: State, acts: seq<Action>, t: State, w: Id)
    requires WithinBudget(c, slack) && c.providerTimeout >= 0 && c.policy.maxAttempts >= 1
    requires WellFormed(c, s) && Exclusive(s, {}) && StartedOnTime(c, slack, s)
    requires Run(c, s, acts, t) && PromptRun(c, slack, s, acts)
    requires IsFlying(t, w) && IsOnTime(c, slack, t, w)
    ensures Owned(t, w) && t.workers[w].key !in ReapMoves(t.db.deliveries, t.now)
  {
    PromptRunsAreTimely(c, slack, s, acts, t);
    LeaseExclusivity(c, s, acts, t);
    RunKeepsWellFormed(c, s, acts, t);
    OnTimeIsLive(c, slack, t, w);
    assert IsLive(t, {}, w);
  }

  /** Within the budget, final rows stay final in every prompt run. */
  lemma PromptRunsKeepFinalRows(c: Config, slack: nat, s: State, acts: seq<Action>, t: State, k: Key)
    requires WithinBudget(c, slack) && c.providerTimeout >= 0 && c.policy.maxAttempts >= 1
    requires WellFormed(c, s) && Exclusive(s, {}) && StartedOnTime(c, slack, s)
    requires Run(c, s, acts, t) && PromptRun(c, slack, s, acts)
    requires k in s.db.deliveries && s.db.deliveries[k].status.IsTerminal()
    ensures k in t.db.deliveries && t.db.deliveries[k] == s.db.deliveries[k]
  {
    PromptRunsAreTimely(c, slack, s, acts, t);
    LeaseExclusivity(c, s, acts, t);
    TerminalRowsAreFinal(c, s, acts, t, k);
  }

  // ---- Past the budget ----

  /**
   * Past the budget a worker can claim at once, wait as long as the limiter allows, start its send, and still be on time
   * when the reaper has taken its row.
   */
  lemma OverdueSend(c: Config, slack: nat, s: State, w: Id, k: Key) returns (t: State)
    requires !WithinBudget(c, slack) && c.rateWaitMax >= 0 && c.rateWaitStep >= 0 && c.providerTimeout >= 0
    requires w in s.workers && s.workers[w].Holding? && s.workers[w].msg.key == k && CanClaim(s.db, k)
    ensures Reaches(c, slack, s, t) && t.db.requests == s.db.requests && (forall x :: x != w && x in s.workers ==> x in t.workers && t.workers[x] == s.workers[x])
    ensures IsSending(t, w) && IsOnTime(c, slack, t, w)
    ensures t.workers[w].key == k && t.workers[w].requestId == s.db.deliveries[k].requestId
    ensures k in t.db.deliveries && t.db.deliveries[k].status.Retrying? && t.db.deliveries[k].requestId == s.db.deliveries[k].requestId
  {
    hide Reaches;
    var claimed := ClaimRun(c, slack, s, w, s.now);
    var waited := TickTo(c, slack, claimed, s.now + c.rateWaitMax + c.rateWaitStep + slack);
    var sending := StartRun(c, slack, waited, w);
    var late := if sending.now > s.now + c.leaseTTL then sending.now else s.now + c.leaseTTL + 1;
    var m := TickTo(c, slack, sending, late);
    t := ReapRun(c, slack, m, k);
    ReachesOn(c, slack, s, claimed, waited);
    ReachesOn(c, slack, s, waited, sending);
    ReachesOn(c, slack, s, sending, m);
    ReachesOn(c, slack, s, m, t);
  }

  /** Past the budget, a run of prompt workers turns a CANCELLED delivery into a SENT one. */
  lemma PastBudgetFinalRowsChange(c: Config, slack: nat, s: State, w: Id, k: Key)
    returns (before: seq<Action>, m: State, after: seq<Action>, t: State)
    requires !WithinBudget(c, slack) && c.rateWaitMax >= 0 && c.rateWaitStep >= 0 && c.providerTimeout >= 0
    requires w in s.workers && s.workers[w].Holding? && s.workers[w].msg.key == k
    requires k in s.db.deliveries && s.db.deliveries[k].status.IsClaimable() && s.db.deliveries[k].requestId in s.db.requests
    ensures Run(c, s, before, m) && PromptRun(c, slack, s, before)
    ensures Run(c, m, after, t) && PromptRun(c, slack, m, after)
    ensures k in m.db.deliveries && m.db.deliveries[k].status.Cancelled?
    ensures k in t.db.deliveries && t.db.deliveries[k].status.Sent?
  {
    hide Run, PromptRun, IsOnTime;
    var u := OverdueSend(c, slack, s, w, k);
    var a;
    a, m := CancelRun(c, slack, u, s.db.deliveries[k].requestId, k);
    ReachesOn(c, slack, s, u, m);
    StillOnTime(c, slack, u, m, w);
    t := SentRun(c, slack, m, w);
    before :| Run(c, s, before, m) && PromptRun(c, slack, s, before);
    after :| Run(c, m, after, t) && PromptRun(c, slack, m, after);
  }

  lemma StillOnTime(c: Config, slack: nat, s: State, t: State, w: Id)
    requires IsFlying(s, w) && w in t.workers && t.workers[w] == s.workers[w] && t.now == s.now && IsOnTime(c, slack, s, w)
    ensures IsOnTime(c, slack, t, w)
  {
  }

  // ---- Configuration ----

  /** The cross-field checks of the startup validation that concern the protocol. */
  predicate Validates(c: Config)
  {
    c.leaseTTL > c.providerTimeout && c.policy.maxAttempts >= 1 && c.policy.backoff != []
  }

  /** The waits a worker binary derives from its configuration. */
  predicate IsWired(c: Config)
  {
    c.rateWaitMax == WaitMax(c.leaseTTL) && c.rateWaitStep > 0
  }

  /**
   * The validated configurations that are safe, exactly: those that fit the budget. Each of the others lets a run of
   * prompt workers change a final row, from any state with a message for a claimable delivery at hand.
   */
  lemma BudgetIsExact(c: Config, slack: nat, s: State, w: Id, k: Key)
    requires Validates(c) && IsWired(c) && c.providerTimeout >= 0
    requires WellFormed(c, s) && Exclusive(s, {}) && StartedOnTime(c, slack, s)
    requires w in s.workers && s.workers[w].Holding? && s.workers[w].msg.key == k
    requires k in s.db.deliveries && s.db.deliveries[k].status.IsClaimable()
    ensures WithinBudget(c, slack) <==> forall before, m, after, t :: PromptPair(c, slack, s, before, m, after, t) ==> FinalKept(m, t)
  {
    if WithinBudget(c, slack) {
      forall before, m, after, t | PromptPair(c, slack, s, before, m, after, t) ensures FinalKept(m, t) {
        PromptPairKeepsFinal(c, slack, s, before, m, after, t);
      }
    } else {
      var before, m, after, t := PastBudgetFinalRowsChange(c, slack, s, w, k);
      assert PromptPair(c, slack, s, before, m, after, t);
      assert !FinalKept(m, t);
    }
  }

  /** A prompt run through m to t. */
  ghost predicate PromptPair(c: Config, slack: nat, s: State, before: seq<Action>, m: State, after: seq<Action>, t: State)
  {
    Run(c, s, before, m) && PromptRun(c, slack, s, before) && Run(c, m, after, t) && PromptRun(c, slack, m, after)
  }

  ghost predicate FinalKept(m: State, t: State)
  {
    forall k :: k in m.db.deliveries && m.db.deliveries[k].status.IsTerminal() ==>
                     k in t.db.deliveries && t.db.deliveries[k] == m.db.deliveries[k]
  }

  lemma PromptPairKeepsFinal(c: Config, slack: nat, s: State, before: seq<Action>, m: State, after: seq<Action>, t: State)
    requires WithinBudget(c, slack) && c.providerTimeout >= 0 && c.policy.maxAttempts >= 1
    requires WellFormed(c, s) && Exclusive(s, {}) && StartedOnTime(c, slack, s)
    requires PromptPair(c, slack, s, before, m, after, t)
    ensures FinalKept(m, t)
  {
    hide WellFormed, StartedOnTime, Run, PromptRun, TimelyRun, DisciplinedRun, Exclusive;
    PromptRunsAreTimely(c, slack, s, before, m);
    LeaseExclusivity(c, s, before, m);
    RunKeepsWellFormed(c, s, before, m);
    forall k | k in m.db.deliveries && m.db.deliveries[k].status.IsTerminal()
      ensures k in t.db.deliveries && t.db.deliveries[k] == m.db.deliveries[k]
    {
      PromptRunsKeepFinalRows(c, slack, m, after, t, k);
    }
  }

  /** The startup check alone admits configurations past the budget: any provider timeout in the upper half of the lease. */
  lemma ValidationAdmitsLateRuns(c: Config)
    requires IsWired(c) && c.leaseTTL >= 2 && c.policy.maxAttempts >= 1 && c.policy.backoff != []
    requires c.leaseTTL - c.leaseTTL / 2 <= c.providerTimeout < c.leaseTTL
    ensures Validates(c) && !WithinBudget(c, 0)
  {
  }
}
