/** What one step does to a delivery that waits: for its job, for its relay, or for its lease to end. */
module Waiting {
  import opened Domain
  import opened Database
  import opened Lifecycle
  import opened Integrity
  import opened Leases
  import opened Relays
  import Retry

  // ---- Where a delivery stands ----

  /** Claimed again since its claims were counted, or final. */
  predicate Settled(ds: Deliveries, k: Key, claims: nat)
  {
    k in ds && (ds[k].history.claims > claims || ds[k].status.IsTerminal())
  }

  /** The next message to reach a worker settles it. */
  predicate Ready(ds: Deliveries, k: Key, claims: nat)
  {
    Settled(ds, k, claims) || (k in ds && ds[k].status.IsClaimable() && ds[k].history.claims == claims)
  }

  /** An open row that no relay at work has published yet. */
  ghost predicate IsUnsent(s: State, o: Id, k: Key)
  {
    o in OpenFor(s.db.outbox, k) && forall r :: r in s.relays ==> o !in s.relays[r].published
  }

  /** The delivery has had its turn: it is claimable, and has an open row that will bring a message. */
  ghost predicate HadTurn(s: State, k: Key, claims: nat)
  {
    Settled(s.db.deliveries, k, claims) || (Ready(s.db.deliveries, k, claims) && exists o :: IsUnsent(s, o, k))
  }

  /** The status a job selects. */
  predicate IsFor(d: Delivery, job: Job)
  {
    match job
    case PromoteJob => d.status.Scheduled? && d.sendAt.Some?
    case SweepJob => d.status.Retrying? && d.nextRetryAt.Some?
    case ReconcileJob => d.status.Pending?
  }

  predicate Awaits(ds: Deliveries, job: Job, k: Key, n: Time, claims: nat)
  {
    k in ds && IsFor(ds[k], job) && RankOf(ds[k], job) == n && ds[k].history.claims == claims
  }

  /** The rows a job takes first: those with its status, ranked n or lower. */
  function Ahead(ds: Deliveries, job: Job, n: Time): set<Key>
  {
    set k | k in ds && IsFor(ds[k], job) && RankOf(ds[k], job) <= n
  }

  /** Nothing is scheduled into the past: waits are not negative. */
  predicate WaitsForward(c: Config)
  {
    c.rateWaitStep >= 0 && (c.policy.jitterRatio > 0.0 || forall i :: 0 <= i < |c.policy.backoff| ==> c.policy.backoff[i] >= 0)
  }

  /** A notification is stored at most `lag` after it was built. */
  predicate StoredInTime(a: Action, now: Time, lag: nat)
  {
    match a
    case Create(item) => now - lag <= item.key.createdAt
    case CreateMany(_, _, _, items) => forall i :: 0 <= i < |items| ==> now - lag <= items[i].key.createdAt
    case _ => true
  }

  // ---- Rows ----

  lemma SettledStep(c: Config, s: State, a: Action, k: Key, claims: nat)
    requires WellFormed(c, s) && Enabled(c, s, a) && Disciplined(s, a) && Settled(s.db.deliveries, k, claims)
    ensures Settled(Apply(c, s, a).db.deliveries, k, claims)
  {
    hide WellFormed, Enabled, Disciplined, Apply, Moves;
    StepRow(c, s, a, k);
    if s.db.deliveries[k].status.IsTerminal() {
      StepKeepsTerminalRow(c, s, a, k);
    }
  }

  /** A claimable row stays so until it is claimed or cancelled. */
  lemma ReadyStep(c: Config, s: State, a: Action, k: Key, claims: nat)
    requires WellFormed(c, s) && Enabled(c, s, a) && Disciplined(s, a) && Ready(s.db.deliveries, k, claims)
    ensures Ready(Apply(c, s, a).db.deliveries, k, claims)
  {
    hide WellFormed, Enabled, Disciplined, Apply, Moves, Settled;
    if Settled(s.db.deliveries, k, claims) {
      SettledStep(c, s, a, k, claims);
    } else {
      DisciplinedMovesFit(c, s, a);
      StepRow(c, s, a, k);
      var m := if k in Moves(c, s, a) then Some(Moves(c, s, a)[k]) else None;
      ReadyMove(c, s.db.deliveries, Apply(c, s, a).db.deliveries, k, claims, m);
    }
  }

  lemma ReadyMove(c: Config, ds: Deliveries, es: Deliveries, k: Key, claims: nat, m: Option<Move>)
    requires Ready(ds, k, claims) && !Settled(ds, k, claims) && k in es
    requires es[k] == match m case None => ds[k] case Some(v) => MoveRow(ds[k], v)
    requires m.Some? ==> Fits(c, ds[k], m.value)
    ensures Ready(es, k, claims)
  {
  }

  // ---- A job's turn ----

  lemma JobStepMoves(c: Config, s: State, a: Action)
    requires Enabled(c, s, a) && a.RunDue?
    ensures Moves(c, s, a) == JobMoves(a.job, a.chosen, s.now) && Apply(c, s, a).relays == s.relays
  {
    hide NextDB, SeenIds, Picked, JobMoves;
  }

  lemma ChosenRow(c: Config, s: State, a: Action, k: Key)
    requires Enabled(c, s, a) && a.RunDue? && k in a.chosen && k in s.db.deliveries
    ensures k in Apply(c, s, a).db.deliveries && Apply(c, s, a).db.deliveries[k].status.Pending?
    ensures Apply(c, s, a).db.deliveries[k].history == s.db.deliveries[k].history
  {
    hide Enabled, Moves, Apply;
    RunDueIsDue(c, s, a);
    JobStepMoves(c, s, a);
    StepRow(c, s, a, k);
  }

  /** The row a job adds is open, for its own delivery, and unknown to every relay. */
  lemma ChosenIsUnsent(c: Config, s: State, a: Action, i: nat)
    requires Traced(s) && Enabled(c, s, a) && a.RunDue? && i < |a.chosen| && i < |a.ids|
    ensures IsUnsent(Apply(c, s, a), a.ids[i], a.chosen[i])
  {
    hide Enabled, Moves, Apply, NextDB, Enqueue, MarkedAfterAppend;
    RunDueFacts(c, s, a);
    EnqueueRows(s.db.outbox, s.db.deliveries, a.chosen, a.ids, s.now);
    JobStepMoves(c, s, a);
    ApplyParts(c, s, a);
    forall r | r in s.relays ensures a.ids[i] !in s.relays[r].published {
      assert PassOk(s, s.relays[r]);
    }
  }

  lemma ChosenHadTurn(c: Config, s: State, a: Action, k: Key, claims: nat)
    requires WellFormed(c, s) && Traced(s) && Enabled(c, s, a) && a.RunDue? && k in a.chosen
    requires k in s.db.deliveries && s.db.deliveries[k].history.claims == claims
    ensures HadTurn(Apply(c, s, a), k, claims)
  {
    hide WellFormed, Traced, Enabled, Apply, IsUnsent;
    ChosenRow(c, s, a, k);
    RunDueFacts(c, s, a);
    var i :| 0 <= i < |a.chosen| && a.chosen[i] == k;
    ChosenIsUnsent(c, s, a, i);
  }

  /** A job's move is made by that job, on a row it chose. */
  lemma JobMoveIsChosen(c: Config, s: State, a: Action, k: Key)
    requires Enabled(c, s, a) && k in Moves(c, s, a) && (Moves(c, s, a)[k].Promote? || Moves(c, s, a)[k].Sweep?)
    ensures a.RunDue? && k in a.chosen
  {
    hide SeenIds, Picked, FreshItem, FailureOf;
  }

  /** A delivery waits for its job until it has its turn or is settled; meanwhile it gets no new outbox rows. */
  lemma AwaitsStep(c: Config, s: State, a: Action, job: Job, k: Key, n: Time, claims: nat)
    requires WellFormed(c, s) && Traced(s) && Enabled(c, s, a) && Disciplined(s, a)
    requires Awaits(s.db.deliveries, job, k, n, claims)
    ensures var t := Apply(c, s, a);
            || HadTurn(t, k, claims)
            || (Awaits(t.db.deliveries, job, k, n, claims) && OpenFor(t.db.outbox, k) <= OpenFor(s.db.outbox, k))
  {
    hide WellFormed, Traced, Enabled, Disciplined, Moves, Apply, IsUnsent, NextDB, OpenFor;
    if a.RunDue? && k in a.chosen {
      ChosenHadTurn(c, s, a, k, claims);
    } else {
      OpenForShrinks(c, s, a, k);
      ApplyParts(c, s, a);
      StepRow(c, s, a, k);
      if k in Moves(c, s, a) {
        DisciplinedMovesFit(c, s, a);
        if Moves(c, s, a)[k].Promote? || Moves(c, s, a)[k].Sweep? {
          JobMoveIsChosen(c, s, a, k);
        }
      }
    }
  }

  // ---- The queue before a job ----

  /** Where an update puts a row: never into the past. */
  predicate IsForward(m: Move, now: Time)
  {
    match m
    case Promote(at) => at == now
    case Sweep(at) => at == now
    case Reap(at) => at == now
    case Requeue(_, next, _) => next >= now
    case Retry(_, next, _) => next >= now
    case _ => true
  }

  lemma BackoffIsForward(c: Config, now: Time, attempts: nat, perr: Option<Retry.ProviderError>, u: Retry.Draw)
    requires WaitsForward(c)
    ensures var o := Retry.Evaluate(c.policy, now, attempts, perr, u); o.RetryAt? ==> o.next >= now
  {
    hide Retry.Swing, Retry.Delta, Retry.Trunc;
  }

  lemma MovesAreForward(c: Config, s: State, a: Action)
    requires WaitsForward(c) && Enabled(c, s, a)
    ensures forall k :: k in Moves(c, s, a) ==> IsForward(Moves(c, s, a)[k], s.now)
  {
    hide SeenIds, Picked, FreshItem, Retry.Evaluate;
    if a.MarkRetrying? {
      BackoffIsForward(c, s.now, s.workers[a.w].attempts, a.perr, a.u);
    }
  }

  /** Once the clock is past n, nobody joins the rows ranked n or lower. */
  lemma AheadShrinks(c: Config, s: State, a: Action, lag: nat, job: Job, n: Time)
    requires WaitsForward(c) && WellFormed(c, s) && Enabled(c, s, a) && Disciplined(s, a) && StoredInTime(a, s.now, lag)
    requires s.now > n + lag
    ensures Ahead(Apply(c, s, a).db.deliveries, job, n) <= Ahead(s.db.deliveries, job, n)
  {
    hide WellFormed, Enabled, Disciplined, Moves, Apply, NextDB, StoredInTime;
    ApplyParts(c, s, a);
    StepNewRows(c, s, a);
    DisciplinedMovesFit(c, s, a);
    MovesAreForward(c, s, a);
    var es := Apply(c, s, a).db.deliveries;
    forall k | k in Ahead(es, job, n) ensures k in Ahead(s.db.deliveries, job, n) {
      if k !in s.db.deliveries {
        NewRowIsBehind(s, a, lag, job, n, es[k]);
      } else {
        StepRow(c, s, a, k);
      }
    }
  }

  /** A pending row that keeps its place has not been claimed. */
  lemma AheadKeepsClaims(c: Config, s: State, a: Action, lag: nat, k: Key, n: Time)
    requires WaitsForward(c) && WellFormed(c, s) && Enabled(c, s, a) && Disciplined(s, a) && StoredInTime(a, s.now, lag)
    requires s.now > n + lag && k in Ahead(Apply(c, s, a).db.deliveries, ReconcileJob, n)
    ensures k in Ahead(s.db.deliveries, ReconcileJob, n)
    ensures Apply(c, s, a).db.deliveries[k].history.claims == s.db.deliveries[k].history.claims
  {
    hide WellFormed, Enabled, Disciplined, Moves, Apply, StoredInTime, WaitsForward;
    AheadShrinks(c, s, a, lag, ReconcileJob, n);
    StepRow(c, s, a, k);
  }

  lemma NewRowIsBehind(s: State, a: Action, lag: nat, job: Job, n: Time, d: Delivery)
    requires exists item :: d == BuildDelivery(item) && item.requestId !in s.db.requests && Stores(a, item)
    requires StoredInTime(a, s.now, lag) && s.now > n + lag && IsFor(d, job)
    ensures RankOf(d, job) > n
  {
  }

  /** A batch that leaves a due row out takes others that are ahead of it. */
  lemma BatchTakesAhead(c: Config, s: State, a: Action, k: Key)
    requires Enabled(c, s, a) && a.RunDue? && a.skipped == {} && c.promoteBatch >= 1
    requires k in Due(s.db, a.job, s.now, c.reconcileAfter) && k !in a.chosen
    ensures a.chosen != [] && a.chosen[0] in s.db.deliveries
    ensures IsFor(s.db.deliveries[a.chosen[0]], a.job)
    ensures RankOf(s.db.deliveries[a.chosen[0]], a.job) <= RankOf(s.db.deliveries[k], a.job)
  {
    hide SeenIds;
    assert Due(s.db, a.job, s.now, c.reconcileAfter) - {} == Due(s.db, a.job, s.now, c.reconcileAfter);
  }

  // ---- Claimed rows ----

  /** The row shows its last claim. */
  predicate IsLocked(ds: Deliveries, k: Key, until: Time, claims: nat)
  {
    k in ds && ds[k].status.Processing? && ds[k].lockedUntil == Some(until) && ds[k].history.claims == claims
  }

  /** A claimed row is finished, released, or still claimed; and the reaper releases it once its lease is over. */
  lemma LockedStep(c: Config, s: State, a: Action, k: Key, until: Time, claims: nat)
    requires WellFormed(c, s) && Enabled(c, s, a) && Disciplined(s, a) && IsLocked(s.db.deliveries, k, until, claims)
    ensures var es := Apply(c, s, a).db.deliveries;
            Ready(es, k, claims) || (IsLocked(es, k, until, claims) && !(a.ReapStuck? && s.now > until))
  {
    hide WellFormed, Disciplined, Apply, Enabled, Moves;
    StepRow(c, s, a, k);
    DisciplinedMovesFit(c, s, a);
    if a.ReapStuck? {
      ReapMovesIt(c, s);
    }
  }

  lemma ReapMovesIt(c: Config, s: State)
    ensures Enabled(c, s, ReapStuck) && Moves(c, s, ReapStuck) == ReapMoves(s.db.deliveries, s.now)
  {
  }

  // ---- Steps in which no message is lost ----

  predicate LosesNothing(s: State, a: Action)
  {
    match a
    case Crash(w) => !(w in s.workers && s.workers[w].Holding?)
    case PublishFail(_) => false
    case RelayCrash(_) => false
    case LoseStreams => false
    case _ => true
  }

  /** A message for the delivery is on a stream. */
  ghost predicate IsQueued(s: State, k: Key)
  {
    exists st, i :: st in s.streams && 0 <= i < |s.streams[st]| && s.streams[st][i].key == k
  }

  lemma QueueStep(c: Config, s: State, a: Action, st: Stream)
    requires Enabled(c, s, a) && LosesNothing(s, a)
    ensures var t := Apply(c, s, a);
            if a.Read? && a.stream == st then
              && QueueOf(s, st) != [] && QueueOf(t, st) == QueueOf(s, st)[1..]
              && a.w in t.workers && t.workers[a.w] == Holding(QueueOf(s, st)[0])
            else QueueOf(s, st) <= QueueOf(t, st)
  {
    hide NextDB, NextRelays, SeenIds, Picked, FreshItem;
  }

  /** A worker keeps its message until it claims. */
  lemma HolderStep(c: Config, s: State, a: Action, w: Id)
    requires Enabled(c, s, a) && LosesNothing(s, a) && w in s.workers && s.workers[w].Holding?
    requires !((a.ClaimMessage? || a.ClaimLost?) && a.w == w)
    ensures w in Apply(c, s, a).workers && Apply(c, s, a).workers[w] == s.workers[w]
  {
    hide NextDB, NextRelays, NextStreams, SeenIds, Picked, FreshItem;
  }

  /** The claim settles a delivery that is ready for it. */
  lemma ClaimSettles(c: Config, s: State, a: Action, k: Key, claims: nat)
    requires WellFormed(c, s) && Enabled(c, s, a) && Disciplined(s, a) && Ready(s.db.deliveries, k, claims)
    requires (a.ClaimMessage? || a.ClaimLost?) && s.workers[a.w].msg.key == k
    ensures Settled(Apply(c, s, a).db.deliveries, k, claims)
  {
    hide WellFormed, Disciplined, Apply;
    if Settled(s.db.deliveries, k, claims) {
      SettledStep(c, s, a, k, claims);
    } else {
      StepRow(c, s, a, k);
    }
  }

  // ---- Relay passes ----

  predicate IsRelayStep(a: Action, r: Id)
  {
    (a.Publish? || a.MarkBatch?) && a.r == r
  }

  lemma RelayRests(c: Config, s: State, a: Action, r: Id)
    requires Enabled(c, s, a) && LosesNothing(s, a) && r in s.relays && !IsRelayStep(a, r)
    ensures r in Apply(c, s, a).relays && Apply(c, s, a).relays[r] == s.relays[r]
  {
    hide NextDB, NextWorkers, NextStreams, SeenIds, Picked, FreshItem;
  }

  lemma PublishStep(c: Config, s: State, a: Action)
    requires Enabled(c, s, a) && a.Publish?
    ensures var t, x := Apply(c, s, a), s.relays[a.r];
            && a.r in t.relays && t.relays[a.r] == x.(next := x.next + 1, published := x.published + {x.entries[x.next].id})
            && |QueueOf(t, x.entries[x.next].stream)| == |QueueOf(s, x.entries[x.next].stream)| + 1
            && QueueOf(t, x.entries[x.next].stream)[|QueueOf(s, x.entries[x.next].stream)|] == x.entries[x.next].message
  {
    hide NextDB, NextWorkers;
  }

  lemma MarkStep(c: Config, s: State, a: Action)
    requires Enabled(c, s, a) && a.MarkBatch?
    ensures forall o :: o in s.relays[a.r].published ==> o !in OpenRows(Apply(c, s, a).db.outbox)
    ensures s.relays[a.r].next >= |s.relays[a.r].entries|
  {
    hide NextWorkers, NextRelays, NextStreams;
  }

  /** An open row stays unsent until its message is on a stream. */
  lemma UnsentStep(c: Config, s: State, a: Action, o: Id, k: Key)
    requires WellFormed(c, s) && Traced(s) && Enabled(c, s, a) && LosesNothing(s, a) && IsUnsent(s, o, k)
    ensures var t := Apply(c, s, a);
            IsQueued(t, k) || (IsUnsent(t, o, k) && t.db.outbox[o].createdAt == s.db.outbox[o].createdAt)
  {
    hide WellFormed, Traced, Enabled, Apply, NextDB, IsQueued, SeenIds;
    ApplyParts(c, s, a);
    StepOutbox(c, s, a);
    if a.Publish? && PublishedId(c, s, a) == o {
      PublishedIsQueued(c, s, a, k);
    } else {
      forall r | r in Apply(c, s, a).relays ensures o !in Apply(c, s, a).relays[r].published {
        RelaysPublish(c, s, a, r);
      }
    }
  }

  function PublishedId(c: Config, s: State, a: Action): Id
    requires Enabled(c, s, a) && a.Publish?
  {
    s.relays[a.r].entries[s.relays[a.r].next].id
  }

  lemma RelaysPublish(c: Config, s: State, a: Action, r: Id)
    requires Enabled(c, s, a) && r in Apply(c, s, a).relays
    ensures forall o :: o in Apply(c, s, a).relays[r].published ==>
                          (r in s.relays && o in s.relays[r].published) || (a.Publish? && o == PublishedId(c, s, a))
  {
    hide NextDB, NextWorkers, NextStreams, SeenIds, Picked, FreshItem;
  }

  lemma PublishedIsQueued(c: Config, s: State, a: Action, k: Key)
    requires WellFormed(c, s) && Traced(s) && Enabled(c, s, a) && a.Publish?
    requires PublishedId(c, s, a) in OpenFor(s.db.outbox, k)
    ensures IsQueued(Apply(c, s, a), k)
  {
    hide Apply, WellFormed, MarkedAfterAppend, QueueOf;
    PublishStep(c, s, a);
    var x := s.relays[a.r];
    assert PassOk(s, x) && Faithful(s.db.outbox, x.entries[x.next]);
    OutboxKey(c, s, PublishedId(c, s, a));
    QueueIsStream(Apply(c, s, a), x.entries[x.next].stream, |QueueOf(s, x.entries[x.next].stream)|);
  }

  lemma OutboxKey(c: Config, s: State, o: Id)
    requires WellFormed(c, s) && o in s.db.outbox
    ensures s.db.outbox[o].key == s.db.outbox[o].message.key
  {
  }

  lemma QueueIsStream(s: State, st: Stream, i: nat)
    requires i < |QueueOf(s, st)|
    ensures IsQueued(s, QueueOf(s, st)[i].key)
  {
    assert st in s.streams && s.streams[st][i].key == QueueOf(s, st)[i].key;
  }

  // ---- The queue before the relay ----

  function Older(outbox: map<Id, OutboxRow>, n: Time): set<Id>
  {
    set o | o in OpenRows(outbox) && outbox[o].createdAt <= n
  }

  lemma OlderShrinks(c: Config, s: State, a: Action, n: Time)
    requires Enabled(c, s, a) && s.now > n
    ensures Older(Apply(c, s, a).db.outbox, n) <= Older(s.db.outbox, n)
  {
    hide Enabled, Apply, NextDB, SeenIds;
    ApplyParts(c, s, a);
    StepOutbox(c, s, a);
  }

  lemma FetchIsStored(c: Config, s: State, a: Action)
    requires Enabled(c, s, a) && a.Fetch?
    ensures forall p :: 0 <= p < |a.fetched| ==> a.fetched[p] in s.db.outbox
  {
    hide SeenIds;
  }

  /** A pass has the row, or starts with one at least as old. */
  lemma FetchStep(c: Config, s: State, a: Action, o: Id)
    requires Enabled(c, s, a) && a.Fetch? && a.locked == {} && c.outboxBatch >= 1 && o in OpenRows(s.db.outbox)
    ensures var t := Apply(c, s, a);
            && a.r in t.relays && t.relays[a.r] == Relay(EntriesFor(s.db.outbox, a.fetched), 0, {})
            && t.db == s.db
            && (o !in a.fetched ==> a.fetched != [] && a.fetched[0] in Older(s.db.outbox, s.db.outbox[o].createdAt))
  {
    hide SeenIds;
    assert OpenRows(s.db.outbox) - {} == OpenRows(s.db.outbox);
    assert ApplyMoves(s.db.deliveries, map[]) == s.db.deliveries;
    if o !in a.fetched {
      assert |a.fetched| == c.outboxBatch && a.fetched[0] in a.fetched;
    }
  }
}
