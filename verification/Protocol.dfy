/** The protocol from its empty start: what every reachable state satisfies, and why timing matters. */
module Protocol {
  import opened Domain
  import opened Database
  import opened Lifecycle
  import opened Integrity
  import opened Leases
  import opened Requests
  import opened Relays
  import opened Budget
  import opened PromptRuns
  import opened Cancels
  import opened Locks
  import opened Start
  import T = Transactions
  import L = Liveness
  import C = Columns

  /** Attempts stay within the ceiling, and below it while the delivery, or a snapshot of it, can still be tried. */
  ghost predicate AttemptsBounded(c: Config, s: State)
  {
    && (forall k :: k in s.db.deliveries ==>
                      var d := s.db.deliveries[k];
                      0 <= d.attempts <= c.policy.maxAttempts && (!d.status.IsTerminal() ==> d.attempts < c.policy.maxAttempts))
    && (forall w :: IsFlying(s, w) ==> 0 <= s.workers[w].attempts < c.policy.maxAttempts)
  }

  lemma WellFormedBoundsAttempts(c: Config, s: State)
    requires WellFormed(c, s)
    ensures AttemptsBounded(c, s)
  {
    forall k | k in s.db.deliveries ensures RowOk(c, s.db.deliveries[k]) {
    }
    forall w | IsFlying(s, w) ensures WorkerOk(c, s.db.deliveries, s.workers[w]) {
    }
  }

  /** With no assumption about timing, in every reachable state: attempts are bounded, counters exact, publishes recorded. */
  lemma EveryStateIsSound(c: Config, now: Time, acts: seq<Action>, t: State)
    requires c.policy.maxAttempts >= 1 && Run(c, Initial(now), acts, t)
    ensures AttemptsBounded(c, t) && AllCounted(t.db) && MarkedAfterAppend(t)
  {
    hide WellFormed, CountersExact, AllCounted, AttemptsBounded, Traced, PassOk, MarkedAfterAppend;
    InitialHolds(c, 0, now);
    RunKeepsWellFormed(c, Initial(now), acts, t);
    WellFormedBoundsAttempts(c, t);
    BatchCountersAreExact(c, Initial(now), acts, t);
    RelayIsAtLeastOnce(c, Initial(now), acts, t);
    TracedIsMarked(t);
  }

  lemma TracedIsMarked(s: State)
    requires Traced(s)
    ensures MarkedAfterAppend(s)
  {
  }

  /** When workers act within their leases: one live worker a delivery, requests that agree, and every claim accounted for. */
  lemma TimelyStatesAreExclusive(c: Config, now: Time, acts: seq<Action>, t: State)
    requires c.policy.maxAttempts >= 1 && Run(c, Initial(now), acts, t) && TimelyRun(c, Initial(now), acts)
    ensures Exclusive(t, {}) && Agrees(t.db) && AllAccounted(c, t.db.deliveries)
  {
    hide WellFormed, Exclusive, Agrees, AllAccounted, Run, TimelyRun, DisciplinedRun;
    InitialHolds(c, 0, now);
    LeaseExclusivity(c, Initial(now), acts, t);
    RequestStatusAgrees(c, Initial(now), acts, t);
    ClaimAccounting(c, Initial(now), acts, t);
  }

  lemma InitialSystemOk(c: Config, now: Time)
    requires c.policy.maxAttempts >= 1
    ensures T.SystemOk(c, T.System(Initial(now), map[]))
  {
    InitialHolds(c, 0, now);
    assert T.Pinned(map[]) == {};
  }

  /** The same with the final transactions taken statement by statement. */
  lemma CommittedStatesAreSound(c: Config, now: Time, sts: seq<T.Statement>, end: T.System)
    requires c.policy.maxAttempts >= 1 && T.SystemRun(c, T.System(Initial(now), map[]), sts, end)
    requires T.TimelySystemRun(c, T.System(Initial(now), map[]), sts)
    ensures Exclusive(end.base, T.Pinned(end.txs)) && Agrees(end.base.db) && AllAccounted(c, end.base.db.deliveries)
    ensures AllCounted(end.base.db) && AttemptsBounded(c, end.base)
  {
    hide WellFormed, Agrees, CountersExact, AllCounted, AttemptsBounded, T.SystemRun, T.TimelySystemRun, T.SystemOk, Run, DisciplinedRun, AllAccounted, Exclusive;
    var sys := T.System(Initial(now), map[]);
    InitialHolds(c, 0, now);
    InitialSystemOk(c, now);
    T.CommittedStatesAgree(c, sys, sts, end);
    ExactCountsRequests(end.base.db);
    var acts := T.StatementsRefineAtomic(c, sys, sts, end);
    RunKeepsWellFormed(c, Initial(now), acts, end.base);
    WellFormedBoundsAttempts(c, end.base);
    ClaimAccounting(c, Initial(now), acts, end.base);
    SystemIsExclusive(c, end);
  }

  lemma SystemIsExclusive(c: Config, sys: T.System)
    requires T.SystemOk(c, sys)
    ensures Exclusive(sys.base, T.Pinned(sys.txs))
  {
  }

  /** And without the timing assumption the counters are still exact in every committed state. */
  lemma CommittedCountersAreExact(c: Config, now: Time, sts: seq<T.Statement>, end: T.System)
    requires T.SystemRun(c, T.System(Initial(now), map[]), sts, end)
    ensures AllCounted(end.base.db)
  {
    hide AllCounted;
    InitialHolds(c, 0, now);
    LocksKeepCounters(c, T.System(Initial(now), map[]), sts, end);
  }

  // ---- Cancel ----

  /** Every cancel of a reachable state closes the request for good: its one delivery ends CANCELLED and nothing stays open. */
  lemma ReachableCancelClosesAll(c: Config, now: Time, acts: seq<Action>, t: State, a: Action)
    requires c.policy.maxAttempts >= 1 && Run(c, Initial(now), acts, t) && Enabled(c, t, a) && a.CancelRequest?
    ensures var next := NextDB(c, t, a);
            && a.spared == {} && a.requestId in next.requests && next.requests[a.requestId].status.RequestCancelled?
            && |KeysOf(next.deliveries, a.requestId)| == 1
            && (forall k :: k in KeysOf(next.deliveries, a.requestId) ==> next.deliveries[k].status.Cancelled?)
            && (forall k :: k in t.db.deliveries && t.db.deliveries[k].requestId != a.requestId ==>
                              k in next.deliveries && next.deliveries[k] == t.db.deliveries[k])
  {
    hide WellFormed, Run, NextDB, OneDeliveryEach;
    InitialHolds(c, 0, now);
    RunKeepsWellFormed(c, Initial(now), acts, t);
    RunKeepsOneEach(c, Initial(now), acts, t);
    OneEach(t.db, a.requestId);
    CancelClosesTheOne(c, t, a);
  }

  lemma OneEach(db: DB, r: Id)
    requires OneDeliveryEach(db) && r in db.requests
    ensures |KeysOf(db.deliveries, r)| == 1
  {
  }

  /** The same when statements interleave: the commit of a cancel leaves nothing of its request open. */
  lemma CommittedCancelClosesAll(c: Config, now: Time, sts: seq<T.Statement>, end: T.System, x: Id)
    requires c.policy.maxAttempts >= 1 && T.SystemRun(c, T.System(Initial(now), map[]), sts, end)
    requires T.TimelySystemRun(c, T.System(Initial(now), map[]), sts)
    requires T.Enables(c, end, T.Commit(x)) && end.txs[x].kind.CancelTx?
    ensures var db, r := T.Do(c, end, T.Commit(x)).base.db, end.txs[x].requestId;
            && r in db.requests && db.requests[r].status.RequestCancelled? && |KeysOf(db.deliveries, r)| == 1
            && (forall k :: k in KeysOf(db.deliveries, r) ==> db.deliveries[k].status.Cancelled?)
            && (forall k :: k in end.base.db.deliveries && end.base.db.deliveries[k].requestId != r ==>
                              k in db.deliveries && db.deliveries[k] == end.base.db.deliveries[k])
  {
    hide WellFormed, Run, T.SystemRun, T.TimelySystemRun, T.SystemOk, T.Do, NextDB, OneDeliveryEach, DisciplinedRun, Apply;
    var sys, r := T.System(Initial(now), map[]), end.txs[x].requestId;
    InitialHolds(c, 0, now);
    InitialSystemOk(c, now);
    var acts := T.StatementsRefineAtomic(c, sys, sts, end);
    RunKeepsWellFormed(c, Initial(now), acts, end.base);
    RunKeepsOneEach(c, Initial(now), acts, end.base);
    T.CommitIsAtomic(c, end, x);
    var a := T.CommitAction(end.base, end.txs[x]);
    OneEach(end.base.db, r);
    CancelClosesTheOne(c, end.base, a);
    ApplyParts(c, end.base, a);
  }

  // ---- When and where ----

  /** With no timing assumption: before its send time a delivery is parked or cancelled, unclaimed, and known to nobody. */
  lemma SendsWait(c: Config, now: Time, acts: seq<Action>, t: State, k: Key)
    requires c.policy.maxAttempts >= 1 && Run(c, Initial(now), acts, t)
    requires k in t.db.deliveries && t.db.deliveries[k].sendAt.Some? && t.now < t.db.deliveries[k].sendAt.value
    ensures t.db.deliveries[k].status in {Scheduled, Cancelled} && t.db.deliveries[k].history.claims == 0
    ensures C.IsUntouched(t, k)
  {
    hide WellFormed, C.KeepsBack, C.IsUntouched, Run;
    InitialHolds(c, 0, now);
    NothingToKeepBack(now);
    C.RunKeepsBack(c, Initial(now), acts, t);
    KeptBack(t, k);
  }

  lemma NothingToKeepBack(now: Time)
    ensures C.KeepsBack(Initial(now))
  {
  }

  lemma KeptBack(t: State, k: Key)
    requires C.KeepsBack(t) && k in t.db.deliveries && t.db.deliveries[k].sendAt.Some? && t.now < t.db.deliveries[k].sendAt.value
    ensures C.IsParked(t, k)
  {
  }

  /** In every reachable state everything under way goes where its request asked, and names its delivery and request. */
  lemma MessagesGoWhereAsked(c: Config, now: Time, acts: seq<Action>, t: State)
    requires c.policy.maxAttempts >= 1 && Run(c, Initial(now), acts, t)
    ensures C.AllRouted(t) && C.FollowsRequests(t.db)
  {
    hide WellFormed, C.AllRouted, Run;
    InitialHolds(c, 0, now);
    RunKeepsWellFormed(c, Initial(now), acts, t);
    C.RunFollows(c, Initial(now), acts, t);
    C.WellFormedIsRouted(c, t);
  }

  // ---- In the long run ----

  lemma StartProceeds(c: Config, now: Time, acts: seq<Action>, lag: nat, b: L.Behaviour)
    requires L.CanWork(c) && L.IsFair(c, lag, b)
    requires Run(c, Initial(now), acts, b.states(0)) && TimelyRun(c, Initial(now), acts)
    ensures L.Proceeds(c, lag, b) && AllAccounted(c, b.states(0).db.deliveries)
  {
    hide WellFormed, Exclusive, AllAccounted, Traced, Run, TimelyRun, DisciplinedRun, L.IsFair;
    InitialHolds(c, 0, now);
    RunKeepsWellFormed(c, Initial(now), acts, b.states(0));
    LeaseExclusivity(c, Initial(now), acts, b.states(0));
    RelayIsAtLeastOnce(c, Initial(now), acts, b.states(0));
    ClaimAccounting(c, Initial(now), acts, b.states(0));
  }

  /**
   * Whatever has failed up to some point: if from there on no message is lost and nobody is starved, every delivery that
   * is open is claimed again or becomes final.
   */
  lemma OpenDeliveriesMoveOn(c: Config, now: Time, acts: seq<Action>, lag: nat, b: L.Behaviour, i: nat, k: Key) returns (j: nat)
    requires L.CanWork(c) && L.IsFair(c, lag, b)
    requires Run(c, Initial(now), acts, b.states(0)) && TimelyRun(c, Initial(now), acts)
    requires k in b.states(i).db.deliveries
    ensures i <= j && k in b.states(j).db.deliveries
    ensures var d, e := b.states(i).db.deliveries[k], b.states(j).db.deliveries[k];
            e.status.IsTerminal() || e.history.claims > d.history.claims
  {
    hide L.Proceeds, L.IsFair, L.CanWork, Run, TimelyRun;
    StartProceeds(c, now, acts, lag, b);
    j := L.OpenSettles(c, lag, b, i, k);
  }

  /** And it becomes final if and only if it is not held up for ever: requeued without an attempt, or reaped. */
  lemma DeliveriesEndIff(c: Config, now: Time, acts: seq<Action>, lag: nat, b: L.Behaviour, i: nat, k: Key)
    requires L.CanWork(c) && L.IsFair(c, lag, b)
    requires Run(c, Initial(now), acts, b.states(0)) && TimelyRun(c, Initial(now), acts)
    requires k in b.states(i).db.deliveries
    ensures L.Ends(b, k) <==> exists n: nat :: L.IsHeldUpSeldom(b, k, n)
  {
    hide L.Proceeds, L.IsFair, L.CanWork, L.Ends, L.IsHeldUpSeldom, Run, TimelyRun;
    StartProceeds(c, now, acts, lag, b);
    L.EndsIff(c, lag, b, i, k);
  }

  // ---- Why timing matters ----

  /** A stale worker requeues a delivery that was cancelled after its lease: the row reopens, the request stays CANCELLED. */
  lemma LateRequeueDisagrees(c: Config, m: State, t: State, w: Id)
    requires IsFlying(m, w) && m.workers[w].key in m.db.deliveries && m.db.deliveries[m.workers[w].key].requestId == 0
    requires 0 in m.db.requests && m.db.requests[0].status.RequestCancelled?
    requires t.db == Moved(m.db, m.workers[w].key, Requeue(m.workers[w].attempts, m.now + c.rateWaitStep, m.now))
    ensures !Agrees(t.db)
  {
    var k := m.workers[w].key;
    assert k in KeysOf(t.db.deliveries, 0) && t.db.deliveries[k].status in StatusesOf(t.db.deliveries, 0);
  }

  /** Past the budget a prompt run from the start ends with a request that disagrees with its delivery. */
  lemma PastBudgetDisagrees(c: Config, slack: nat) returns (t: State)
    requires !WithinBudget(c, slack) && c.rateWaitMax >= 0 && c.rateWaitStep >= 0 && c.providerTimeout >= 0
    requires c.policy.maxAttempts >= 1 && c.outboxBatch >= 1
    ensures Reaches(c, slack, Initial(0), t) && !Agrees(t.db)
  {
    hide Reaches, Agrees, WellFormed, OneDeliveryEach, IsOnTime, NextDB, Enabled;
    var s := TwoHolders(c);
    QuietlyIsPrompt(c, slack, Initial(0), s);
    var u := OverdueSend(c, slack, s, 1, FIRST.key);
    ReachesOn(c, slack, Initial(0), s, u);
    ReachedIsSound(c, slack, u);
    var a, m := CancelRun(c, slack, u, 0, FIRST.key);
    OneEach(u.db, 0);
    CancelClosesTheOne(c, u, a);
    StillOnTime(c, slack, u, m, 1);
    t := RequeueRun(c, slack, m, 1);
    ReachesOn(c, slack, Initial(0), u, m);
    ReachesOn(c, slack, Initial(0), m, t);
    LateRequeueDisagrees(c, m, t, 1);
  }

  lemma ReachedIsSound(c: Config, slack: nat, s: State)
    requires c.policy.maxAttempts >= 1 && Reaches(c, slack, Initial(0), s)
    ensures WellFormed(c, s) && OneDeliveryEach(s.db)
  {
    hide WellFormed, OneDeliveryEach, Run, PromptRun;
    var acts :| Run(c, Initial(0), acts, s) && PromptRun(c, slack, Initial(0), acts);
    InitialHolds(c, 0, 0);
    RunKeepsWellFormed(c, Initial(0), acts, s);
    RunKeepsOneEach(c, Initial(0), acts, s);
  }

  lemma SentIsNotOwned(s: State, w: Id)
    requires IsFlying(s, w) && s.now <= s.workers[w].lease
    requires s.workers[w].key in s.db.deliveries && s.db.deliveries[s.workers[w].key].status.Sent?
    ensures !Exclusive(s, {})
  {
    assert IsLive(s, {}, w) && !Owned(s, w);
  }

  /** Past the budget a prompt run from the start ends with a live worker whose row another worker has finished. */
  lemma PastBudgetOverlaps(c: Config, slack: nat) returns (t: State)
    requires !WithinBudget(c, slack) && c.rateWaitMax >= 0 && c.rateWaitStep >= 0 && c.providerTimeout >= 0 && c.leaseTTL >= 0
    requires c.outboxBatch >= 1
    ensures Reaches(c, slack, Initial(0), t) && !Exclusive(t, {})
  {
    hide Reaches, Exclusive, IsOnTime;
    var s := TwoHolders(c);
    QuietlyIsPrompt(c, slack, Initial(0), s);
    var u := OverdueSend(c, slack, s, 1, FIRST.key);
    var m := ClaimRun(c, slack, u, 2, u.now);
    StillOnTime(c, slack, u, m, 1);
    t := SentRun(c, slack, m, 1);
    ReachesOn(c, slack, Initial(0), s, u);
    ReachesOn(c, slack, Initial(0), u, m);
    ReachesOn(c, slack, Initial(0), m, t);
    SentIsNotOwned(t, 2);
  }

  /** Past the budget a prompt run from the start turns a CANCELLED delivery into a SENT one. */
  lemma PastBudgetReopens(c: Config, slack: nat) returns (m: State, t: State)
    requires !WithinBudget(c, slack) && c.rateWaitMax >= 0 && c.rateWaitStep >= 0 && c.providerTimeout >= 0
    requires c.outboxBatch >= 1
    ensures Reaches(c, slack, Initial(0), m) && Reaches(c, slack, m, t) && !FinalKept(m, t)
    ensures FIRST.key in m.db.deliveries && m.db.deliveries[FIRST.key].status.Cancelled?
    ensures FIRST.key in t.db.deliveries && t.db.deliveries[FIRST.key].status.Sent?
  {
    hide Run, PromptRun;
    var s := TwoHolders(c);
    QuietlyIsPrompt(c, slack, Initial(0), s);
    var before, after;
    before, m, after, t := PastBudgetFinalRowsChange(c, slack, s, 1, FIRST.key);
    assert Reaches(c, slack, s, m) && Reaches(c, slack, m, t);
    ReachesOn(c, slack, Initial(0), s, m);
  }

  lemma WithinBudgetIsSafe(c: Config, slack: nat, t: State)
    requires WithinBudget(c, slack) && c.providerTimeout >= 0 && c.policy.maxAttempts >= 1 && Reaches(c, slack, Initial(0), t)
    ensures Exclusive(t, {}) && Agrees(t.db)
  {
    hide WellFormed, Exclusive, Agrees, Run, PromptRun, TimelyRun, StartedOnTime;
    var acts :| Run(c, Initial(0), acts, t) && PromptRun(c, slack, Initial(0), acts);
    InitialHolds(c, slack, 0);
    PromptRunsAreTimely(c, slack, Initial(0), acts, t);
    TimelyStatesAreExclusive(c, 0, acts, t);
  }

  lemma WithinBudgetKeepsFinal(c: Config, slack: nat, m: State, t: State)
    requires WithinBudget(c, slack) && c.providerTimeout >= 0 && c.policy.maxAttempts >= 1
    requires Reaches(c, slack, Initial(0), m) && Reaches(c, slack, m, t)
    ensures FinalKept(m, t)
  {
    hide WellFormed, Exclusive, Run, PromptRun, StartedOnTime, FinalKept;
    var before :| Run(c, Initial(0), before, m) && PromptRun(c, slack, Initial(0), before);
    var after :| Run(c, m, after, t) && PromptRun(c, slack, m, after);
    InitialHolds(c, slack, 0);
    PromptPairKeepsFinal(c, slack, Initial(0), before, m, after, t);
  }

  /**
   * From the empty start, for every validated configuration: prompt runs keep claims exclusive if and only if the
   * configuration fits the budget; the same for agreement, and the same for final rows.
   */
  lemma BudgetDecides(c: Config, slack: nat)
    requires Validates(c) && IsWired(c) && c.providerTimeout >= 0 && c.outboxBatch >= 1
    ensures WithinBudget(c, slack) <==> forall t :: Reaches(c, slack, Initial(0), t) ==> Exclusive(t, {})
    ensures WithinBudget(c, slack) <==> forall t :: Reaches(c, slack, Initial(0), t) ==> Agrees(t.db)
    ensures WithinBudget(c, slack) <==>
            forall m, t :: Reaches(c, slack, Initial(0), m) && Reaches(c, slack, m, t) ==> FinalKept(m, t)
  {
    hide Reaches, Exclusive, Agrees, FinalKept, WithinBudget;
    if WithinBudget(c, slack) {
      forall t | Reaches(c, slack, Initial(0), t) ensures Exclusive(t, {}) && Agrees(t.db) {
        WithinBudgetIsSafe(c, slack, t);
      }
      forall m, t | Reaches(c, slack, Initial(0), m) && Reaches(c, slack, m, t) ensures FinalKept(m, t) {
        WithinBudgetKeepsFinal(c, slack, m, t);
      }
    } else {
      var x := PastBudgetOverlaps(c, slack);
      var y := PastBudgetDisagrees(c, slack);
      var m, z := PastBudgetReopens(c, slack);
    }
  }

  /** Some run leads from s to t. */
  ghost predicate CanReach(c: Config, s: State, t: State)
  {
    exists acts :: Run(c, s, acts, t)
  }

  lemma PromptlyReached(c: Config, slack: nat, s: State, t: State)
    requires Reaches(c, slack, s, t)
    ensures CanReach(c, s, t)
  {
    hide Run, PromptRun;
    var acts :| Run(c, s, acts, t) && PromptRun(c, slack, s, acts);
  }

  /**
   * Without the timing assumption no choice of waits helps: from the start there are runs that end with a request that
   * disagrees with its delivery, and runs that turn a CANCELLED delivery into a SENT one.
   */
  lemma TimingIsNeeded(c: Config) returns (y: State, m: State, z: State)
    requires c.policy.maxAttempts >= 1 && c.outboxBatch >= 1
    requires c.rateWaitMax >= 0 && c.rateWaitStep >= 0 && c.providerTimeout >= 0
    ensures CanReach(c, Initial(0), y) && !Agrees(y.db)
    ensures CanReach(c, Initial(0), m) && CanReach(c, m, z)
    ensures FIRST.key in m.db.deliveries && m.db.deliveries[FIRST.key].status.Cancelled?
    ensures FIRST.key in z.db.deliveries && z.db.deliveries[FIRST.key].status.Sent?
  {
    hide Reaches, CanReach, Agrees, FinalKept;
    var slack := if c.leaseTTL > 0 then c.leaseTTL + 1 else 1;
    y := PastBudgetDisagrees(c, slack);
    m, z := PastBudgetReopens(c, slack);
    PromptlyReached(c, slack, Initial(0), y);
    PromptlyReached(c, slack, Initial(0), m);
    PromptlyReached(c, slack, m, z);
  }

  /** And runs that end with a live worker whose row another worker has finished. */
  lemma OverlapIsPossible(c: Config) returns (x: State)
    requires c.outboxBatch >= 1
    requires c.rateWaitMax >= 0 && c.rateWaitStep >= 0 && c.providerTimeout >= 0 && c.leaseTTL >= 0
    ensures CanReach(c, Initial(0), x) && !Exclusive(x, {})
  {
    hide Reaches, CanReach, Exclusive;
    x := PastBudgetOverlaps(c, c.leaseTTL + 1);
    PromptlyReached(c, c.leaseTTL + 1, Initial(0), x);
  }
}
