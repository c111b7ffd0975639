/** When backoff is observed: a retry can come early if and only if a copy of its message is left. */
module Backoff {
  import opened Domain
  import opened Database
  import opened Lifecycle
  import opened Integrity
  import opened Leases
  import opened Recovery
  import opened Start
  import opened Relays
  import opened Waiting
  import R = Retry

  // ---- Copies of a message ----

  ghost predicate IsHeld(s: State, k: Key)
  {
    exists w :: w in s.workers && s.workers[w].Holding? && s.workers[w].msg.key == k
  }

  /** A relay has the message fetched and has not come to it yet. */
  ghost predicate IsFetched(s: State, k: Key)
  {
    exists r, i :: r in s.relays && s.relays[r].next <= i < |s.relays[r].entries| && s.relays[r].entries[i].message.key == k
  }

  /** A message for the delivery is on its way to a worker, or a worker has it in hand. */
  ghost predicate HasCopy(s: State, k: Key)
  {
    IsQueued(s, k) || IsHeld(s, k) || IsFetched(s, k) || OpenFor(s.db.outbox, k) != {}
  }

  /** The delivery waits for its next attempt, which is due at n. */
  predicate WaitsUntil(ds: Deliveries, k: Key, n: Time)
  {
    k in ds && ds[k].status.Retrying? && ds[k].nextRetryAt == Some(n)
  }

  // ---- A copy is enough ----

  /** A timely run claims the delivery before n. */
  ghost predicate ClaimedBefore(c: Config, s: State, k: Key, n: Time)
  {
    exists t :: TimelyReaches(c, s, t) && t.now < n && k in s.db.deliveries && k in t.db.deliveries
                && t.db.deliveries[k].history.claims > s.db.deliveries[k].history.claims
  }

  /** What the feeding steps change is not the delivery. */
  lemma FedIsClaimedBefore(c: Config, s: State, u: State, k: Key, n: Time)
    requires Feeds(c, s, u) && u.db.deliveries == s.db.deliveries && ClaimedBefore(c, u, k, n)
    ensures ClaimedBefore(c, s, k, n)
  {
    hide TimelyReaches;
    ViaMore(c, IsFeeding, IsQuiet, s, u);
    QuietlyIsPrompt(c, 0, s, u);
    var t :| TimelyReaches(c, u, t) && t.now < n && k in u.db.deliveries && k in t.db.deliveries
             && t.db.deliveries[k].history.claims > u.db.deliveries[k].history.claims;
    TimelyReachesOn(c, s, u, t);
  }

  lemma HeldIsClaimed(c: Config, s: State, k: Key, n: Time, w: Id)
    requires WaitsUntil(s.db.deliveries, k, n) && s.now < n
    requires w in s.workers && s.workers[w].Holding? && s.workers[w].msg.key == k
    ensures ClaimedBefore(c, s, k, n)
  {
    hide TimelyReaches;
    var a := ClaimMessage(w, s.now);
    TimelyStep(c, s, a);
    StepRow(c, s, a, k);
    assert TimelyReaches(c, s, Apply(c, s, a));
  }

  /** However deep in its stream the message is, fresh workers take what is queued before it. */
  lemma {:induction false} QueuedIsClaimed(c: Config, s: State, k: Key, n: Time, st: Stream, i: nat)
    requires c.policy.maxAttempts >= 1 && WellFormed(c, s)
    requires WaitsUntil(s.db.deliveries, k, n) && s.now < n
    requires i < |QueueOf(s, st)| && QueueOf(s, st)[i].key == k
    ensures ClaimedBefore(c, s, k, n)
    decreases i
  {
    hide ClaimedBefore, Feeds, WellFormed, Leads, QueueOf;
    var w, u := ReadStep(c, s, st);
    if i == 0 {
      HeldIsClaimed(c, u, k, n, w);
    } else {
      QueuedIsClaimed(c, u, k, n, st, i - 1);
    }
    FedIsClaimedBefore(c, s, u, k, n);
  }

  lemma FedToStreamIsClaimed(c: Config, s: State, u: State, k: Key, n: Time, st: Stream, m: Message)
    requires c.policy.maxAttempts >= 1 && WellFormed(c, s)
    requires WaitsUntil(s.db.deliveries, k, n) && s.now < n
    requires Feeds(c, s, u) && u.db.deliveries == s.db.deliveries && u.now == s.now && m in QueueOf(u, st) && m.key == k
    ensures ClaimedBefore(c, s, k, n)
  {
    hide ClaimedBefore, Feeds, WellFormed, Leads, QueueOf;
    FeedsLead(c, s, u);
    LeadsKeepsWellFormed(c, s, u);
    var i :| 0 <= i < |QueueOf(u, st)| && QueueOf(u, st)[i] == m;
    QueuedIsClaimed(c, u, k, n, st, i);
    FedIsClaimedBefore(c, s, u, k, n);
  }

  lemma FetchedIsClaimed(c: Config, s: State, k: Key, n: Time)
    requires c.policy.maxAttempts >= 1 && WellFormed(c, s)
    requires WaitsUntil(s.db.deliveries, k, n) && s.now < n && IsFetched(s, k)
    ensures ClaimedBefore(c, s, k, n)
  {
    hide ClaimedBefore, Feeds, WellFormed, QueueOf;
    var r, i :| r in s.relays && s.relays[r].next <= i < |s.relays[r].entries| && s.relays[r].entries[i].message.key == k;
    var u := PublishAll(c, s, r);
    var e := s.relays[r].entries[i];
    FedToStreamIsClaimed(c, s, u, k, n, e.stream, e.message);
  }

  lemma OutboxedIsClaimed(c: Config, s: State, k: Key, n: Time)
    requires c.policy.maxAttempts >= 1 && c.outboxBatch >= 1 && WellFormed(c, s)
    requires WaitsUntil(s.db.deliveries, k, n) && s.now < n && OpenFor(s.db.outbox, k) != {}
    ensures ClaimedBefore(c, s, k, n)
  {
    hide ClaimedBefore, Feeds, QueueOf;
    var o :| o in OpenFor(s.db.outbox, k);
    var u := OutboxReachesStream(c, s, o);
    FedToStreamIsClaimed(c, s, u, k, n, s.db.outbox[o].stream, s.db.outbox[o].message);
  }

  /** Any copy that is left gets the delivery claimed at once. */
  lemma CopyIsClaimed(c: Config, s: State, k: Key, n: Time)
    requires c.policy.maxAttempts >= 1 && c.outboxBatch >= 1 && WellFormed(c, s)
    requires WaitsUntil(s.db.deliveries, k, n) && s.now < n && HasCopy(s, k)
    ensures ClaimedBefore(c, s, k, n)
  {
    hide ClaimedBefore, WellFormed, IsFetched;
    if IsQueued(s, k) {
      var st, i :| st in s.streams && 0 <= i < |s.streams[st]| && s.streams[st][i].key == k;
      QueuedIsClaimed(c, s, k, n, st, i);
    } else if IsHeld(s, k) {
      var w :| w in s.workers && s.workers[w].Holding? && s.workers[w].msg.key == k;
      HeldIsClaimed(c, s, k, n, w);
    } else if IsFetched(s, k) {
      FetchedIsClaimed(c, s, k, n);
    } else {
      OutboxedIsClaimed(c, s, k, n);
    }
  }

  // ---- Without a copy nothing comes early ----

  /** The delivery has no copy left, has not been claimed again, and waits or is final. */
  ghost predicate StaysPut(s: State, k: Key, n: Time, claims: nat)
  {
    && !HasCopy(s, k) && k in s.db.deliveries && s.db.deliveries[k].history.claims == claims
    && (WaitsUntil(s.db.deliveries, k, n) || s.db.deliveries[k].status.IsTerminal())
  }

  lemma StepKeepsUnqueued(c: Config, s: State, a: Action, k: Key)
    requires Enabled(c, s, a) && !IsQueued(s, k) && !IsFetched(s, k)
    ensures !IsQueued(Apply(c, s, a), k)
  {
    hide NextDB, NextWorkers, NextRelays, Picked, SeenIds, FreshItem;
    var t := Apply(c, s, a);
    forall st, i | st in t.streams && 0 <= i < |t.streams[st]| ensures t.streams[st][i].key != k {
      assert st in s.streams && i < |s.streams[st]| ==> s.streams[st][i].key != k;
    }
  }

  lemma StepKeepsUnheld(c: Config, s: State, a: Action, k: Key)
    requires Enabled(c, s, a) && !IsQueued(s, k) && !IsHeld(s, k)
    ensures !IsHeld(Apply(c, s, a), k)
  {
    hide NextDB, NextStreams, NextRelays, Picked, SeenIds, FreshItem;
  }

  lemma FetchKeepsUnfetched(c: Config, s: State, fetched: seq<Id>, k: Key)
    requires WellFormed(c, s) && OpenFor(s.db.outbox, k) == {}
    requires forall i :: 0 <= i < |fetched| ==> fetched[i] in OpenRows(s.db.outbox)
    ensures var es := EntriesFor(s.db.outbox, fetched); forall i :: 0 <= i < |es| ==> es[i].message.key != k
  {
    forall i | 0 <= i < |fetched| ensures s.db.outbox[fetched[i]].message.key != k {
      assert fetched[i] !in OpenFor(s.db.outbox, k);
    }
  }

  lemma StepKeepsUnfetched(c: Config, s: State, a: Action, k: Key)
    requires WellFormed(c, s) && Enabled(c, s, a) && !IsFetched(s, k) && OpenFor(s.db.outbox, k) == {}
    ensures !IsFetched(Apply(c, s, a), k)
  {
    hide NextDB, NextStreams, NextWorkers, SeenIds, FreshItem, WellFormed;
    if a.Fetch? {
      FetchKeepsUnfetched(c, s, a.fetched, k);
      var t := Apply(c, s, a);
      forall r, i | r in t.relays && t.relays[r].next <= i < |t.relays[r].entries|
        ensures t.relays[r].entries[i].message.key != k {
        if r == a.r {
          assert t.relays[r].entries == EntriesFor(s.db.outbox, a.fetched);
        } else {
          assert t.relays[r] == s.relays[r] && s.relays[r].entries[i].message.key != k;
        }
      }
    }
  }

  lemma StepKeepsUncopied(c: Config, s: State, a: Action, k: Key)
    requires WellFormed(c, s) && Enabled(c, s, a) && k in s.db.deliveries && !HasCopy(s, k) && (a.RunDue? ==> k !in a.chosen)
    ensures !HasCopy(Apply(c, s, a), k)
  {
    hide WellFormed, Enabled, Apply, IsQueued, IsHeld, IsFetched;
    StepKeepsUnqueued(c, s, a, k);
    StepKeepsUnheld(c, s, a, k);
    StepKeepsUnfetched(c, s, a, k);
    OpenForShrinks(c, s, a, k);
    ApplyParts(c, s, a);
  }

  lemma NotChosen(c: Config, s: State, a: Action, k: Key, n: Time, claims: nat)
    requires Enabled(c, s, a) && a.RunDue? && StaysPut(s, k, n, claims) && s.now < n
    ensures k !in a.chosen
  {
    hide Enabled, HasCopy;
    RunDueIsDue(c, s, a);
  }

  lemma OnlyCancelled(c: Config, s: State, a: Action, k: Key, n: Time, claims: nat)
    requires WellFormed(c, s) && Enabled(c, s, a) && Disciplined(s, a) && StaysPut(s, k, n, claims) && s.now < n
    requires k in Moves(c, s, a)
    ensures Moves(c, s, a)[k].Cancel?
  {
    hide WellFormed, Enabled, Disciplined, Moves, IsHeld;
    DisciplinedMovesFit(c, s, a);
    var m := Moves(c, s, a)[k];
    if m.Sweep? {
      JobMoveIsChosen(c, s, a, k);
      NotChosen(c, s, a, k, n, claims);
    } else if m.Claim? {
      ClaimIsHeld(c, s, a, k);
    }
  }

  lemma ClaimIsHeld(c: Config, s: State, a: Action, k: Key)
    requires Enabled(c, s, a) && k in Moves(c, s, a) && Moves(c, s, a)[k].Claim?
    ensures IsHeld(s, k)
  {
    hide SeenIds, Picked, FreshItem, FailureOf;
  }

  lemma StepStaysPut(c: Config, s: State, a: Action, k: Key, n: Time, claims: nat)
    requires WellFormed(c, s) && Enabled(c, s, a) && Disciplined(s, a) && StaysPut(s, k, n, claims) && s.now < n
    ensures StaysPut(Apply(c, s, a), k, n, claims)
  {
    hide WellFormed, Enabled, Disciplined, Apply, Moves, HasCopy;
    if a.RunDue? {
      NotChosen(c, s, a, k, n, claims);
    }
    StepKeepsUncopied(c, s, a, k);
    StepRow(c, s, a, k);
    if k in Moves(c, s, a) {
      OnlyCancelled(c, s, a, k, n, claims);
    }
  }

  /** With no copy left a waiting delivery stays where it is until it is due, or is cancelled. */
  lemma {:induction false} NoCopyNoClaim(c: Config, s: State, acts: seq<Action>, t: State, k: Key, n: Time, claims: nat)
    requires c.policy.maxAttempts >= 1 && WellFormed(c, s) && Run(c, s, acts, t) && DisciplinedRun(c, s, acts)
    requires StaysPut(s, k, n, claims) && t.now < n
    ensures StaysPut(t, k, n, claims)
    decreases |acts|
  {
    hide WellFormed, Enabled, Disciplined, Apply, StaysPut;
    if acts != [] {
      RunTakesTime(c, Apply(c, s, acts[0]), acts[1..], t);
      ApplyParts(c, s, acts[0]);
      StepStaysPut(c, s, acts[0], k, n, claims);
      StepKeepsWellFormed(c, s, acts[0]);
      NoCopyNoClaim(c, Apply(c, s, acts[0]), acts[1..], t, k, n, claims);
    }
  }

  lemma {:induction false} RunTakesTime(c: Config, s: State, acts: seq<Action>, t: State)
    requires Run(c, s, acts, t)
    ensures s.now <= t.now
    decreases |acts|
  {
    hide Enabled, Apply;
    if acts != [] {
      ApplyParts(c, s, acts[0]);
      RunTakesTime(c, Apply(c, s, acts[0]), acts[1..], t);
    }
  }

  // ---- Backoff is observed exactly when no copy is left ----

  /** In timely runs a waiting delivery can be claimed before it is due if and only if a copy of its message is left. */
  lemma EarlyClaimIff(c: Config, s: State, k: Key, n: Time)
    requires c.policy.maxAttempts >= 1 && c.outboxBatch >= 1 && WellFormed(c, s) && Exclusive(s, {})
    requires WaitsUntil(s.db.deliveries, k, n) && s.now < n
    ensures ClaimedBefore(c, s, k, n) <==> HasCopy(s, k)
  {
    hide WellFormed, Exclusive, HasCopy, Run, TimelyRun, DisciplinedRun;
    if HasCopy(s, k) {
      CopyIsClaimed(c, s, k, n);
    } else if ClaimedBefore(c, s, k, n) {
      var t :| TimelyReaches(c, s, t) && t.now < n && k in s.db.deliveries && k in t.db.deliveries
               && t.db.deliveries[k].history.claims > s.db.deliveries[k].history.claims;
      var acts :| Run(c, s, acts, t) && TimelyRun(c, s, acts);
      LeaseExclusivity(c, s, acts, t);
      NoCopyNoClaim(c, s, acts, t, k, n, s.db.deliveries[k].history.claims);
      assert false;
    }
  }

  // ---- It does happen ----

  /** The provider asks for a second of patience. */
  const ASKS_TO_WAIT := Some(R.ProviderError(false, Some(1_000_000_000)))

  /** A worker with the message of a pending delivery is told to retry later. */
  lemma RetryLater(c: Config, s: State, w: Id, k: Key) returns (t: State)
    requires c.policy.maxAttempts >= 2 && c.leaseTTL >= 0
    requires w in s.workers && s.workers[w].Holding? && s.workers[w].msg.key == k
    requires CanClaim(s.db, k) && s.db.deliveries[k].attempts == 0
    ensures TimelyReaches(c, s, t) && t.now == s.now && t.workers == s.workers - {w}
    ensures WaitsUntil(t.db.deliveries, k, s.now + 1_000_000_000)
  {
    hide TimelyReaches;
    var a, b := ClaimMessage(w, s.now), StartSend(w);
    var u := Apply(c, s, a);
    TimelyStep(c, s, a);
    StepRow(c, s, a, k);
    var v := Apply(c, u, b);
    TimelyStep(c, u, b);
    StepRow(c, u, b, k);
    TimelyReachesOn(c, s, u, v);
    t := MarkLater(c, v, w, k);
    TimelyReachesOn(c, s, v, t);
  }

  lemma MarkLater(c: Config, s: State, w: Id, k: Key) returns (t: State)
    requires c.policy.maxAttempts >= 2 && k in s.db.deliveries
    requires IsSending(s, w) && s.workers[w].key == k && s.workers[w].attempts == 0 && s.now <= s.workers[w].lease
    ensures TimelyReaches(c, s, t) && t.now == s.now && t.workers == s.workers - {w}
    ensures WaitsUntil(t.db.deliveries, k, s.now + 1_000_000_000)
  {
    hide TimelyReaches;
    var a := MarkRetrying(w, ASKS_TO_WAIT, 0.0);
    assert FailureOf(c, s, w, ASKS_TO_WAIT, 0.0) == R.RetryAt(1, s.now + 1_000_000_000);
    t := Apply(c, s, a);
    TimelyStep(c, s, a);
    StepRow(c, s, a, k);
  }

  /** From the empty start: a delivery that is to wait a second is claimed again within it. */
  lemma BackoffCanBeMissed(c: Config) returns (m: State)
    requires c.policy.maxAttempts >= 2 && c.outboxBatch >= 1 && c.leaseTTL >= 0
    ensures TimelyReaches(c, Initial(0), m) && m.now == 0
    ensures WaitsUntil(m.db.deliveries, FIRST.key, 1_000_000_000) && ClaimedBefore(c, m, FIRST.key, 1_000_000_000)
  {
    hide Quietly, TimelyReaches, ClaimedBefore;
    var s := TwoHolders(c);
    QuietlyIsPrompt(c, 0, Initial(0), s);
    m := RetryLater(c, s, 1, FIRST.key);
    TimelyReachesOn(c, Initial(0), s, m);
    HeldIsClaimed(c, m, FIRST.key, 1_000_000_000, 2);
  }
}
