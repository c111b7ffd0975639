/** What holds in every reachable state, whatever the timing: stale workers, crashes and lost streams included. */
module Integrity {
  import opened Domain
  import opened Database
  import opened Lifecycle

  // ---- The invariant ----

  /** Attempts stay below the ceiling until the row is final, and each waiting status carries its instant or its claim. */
  predicate RowOk(c: Config, d: Delivery)
  {
    && 0 <= d.attempts <= c.policy.maxAttempts
    && (!d.status.IsTerminal() ==> d.attempts < c.policy.maxAttempts)
    && (d.status.Scheduled? ==> d.sendAt.Some?)
    && (d.status.Retrying? ==> d.nextRetryAt.Some?)
    && (d.status.Processing? ==> d.lockedUntil.Some? && d.history.claims > 0)
  }

  /** The message names an existing delivery by its exact key and repeats its routing. */
  predicate Genuine(ds: Deliveries, st: Stream, m: Message)
  {
    m.key in ds && m == MessageFor(m.key, ds[m.key]) && st == Stream(m.priority, m.channel)
  }

  ghost predicate RowsOk(c: Config, ds: Deliveries)
  {
    forall k :: k in ds ==> RowOk(c, ds[k])
  }

  ghost predicate UniqueIds(ds: Deliveries)
  {
    forall k, l :: k in ds && l in ds && k.id == l.id ==> k == l
  }

  ghost predicate HaveRequests(db: DB)
  {
    forall k :: k in db.deliveries ==> db.deliveries[k].requestId in db.requests
  }

  /** The unique index on (user_id, idempotency_key). */
  ghost predicate UniqueKeys(requests: map<Id, Request>)
  {
    forall r, q :: r in requests && q in requests && SameKey(requests[r], requests[q]) ==> r == q
  }

  predicate SameKey(a: Request, b: Request)
  {
    a.idemKey.Some? && a.userId == b.userId && a.idemKey == b.idemKey
  }

  ghost predicate OutboxOk(ds: Deliveries, outbox: map<Id, OutboxRow>)
  {
    forall o :: o in outbox ==> Genuine(ds, outbox[o].stream, outbox[o].message) && outbox[o].key == outbox[o].message.key
  }

  ghost predicate DbOk(c: Config, db: DB)
  {
    && RowsOk(c, db.deliveries) && UniqueIds(db.deliveries) && HaveRequests(db)
    && UniqueKeys(db.requests) && OutboxOk(db.deliveries, db.outbox)
  }

  ghost predicate StreamsOk(ds: Deliveries, streams: map<Stream, seq<Message>>)
  {
    forall st, i :: st in streams && 0 <= i < |streams[st]| ==> Genuine(ds, st, streams[st][i])
  }

  predicate WorkerOk(c: Config, ds: Deliveries, x: Worker)
  {
    match x
    case Holding(m) => Genuine(ds, Stream(m.priority, m.channel), m)
    case InFlight(k, requestId, attempts, lease, startedAt, _) =>
      && k in ds && ds[k].requestId == requestId && 0 <= attempts < c.policy.maxAttempts && lease == startedAt + c.leaseTTL
  }

  ghost predicate WorkersOk(c: Config, ds: Deliveries, workers: map<Id, Worker>)
  {
    forall w :: w in workers ==> WorkerOk(c, ds, workers[w])
  }

  predicate RelayOk(ds: Deliveries, x: Relay)
  {
    && x.next <= |x.entries|
    && (forall i :: 0 <= i < |x.entries| ==> Genuine(ds, x.entries[i].stream, x.entries[i].message))
  }

  ghost predicate RelaysOk(ds: Deliveries, relays: map<Id, Relay>)
  {
    forall r :: r in relays ==> RelayOk(ds, relays[r])
  }

  ghost predicate WellFormed(c: Config, s: State)
  {
    && DbOk(c, s.db) && StreamsOk(s.db.deliveries, s.streams)
    && WorkersOk(c, s.db.deliveries, s.workers) && RelaysOk(s.db.deliveries, s.relays)
  }

  // ---- One row ----

  /** What a status-guarded update finds, and the bounds a worker's mark respects. */
  predicate Guarded(c: Config, d: Delivery, m: Move)
  {
    match m
    case Promote(_) => d.status.Scheduled?
    case Sweep(_) => d.status.Retrying?
    case Reap(_) => d.status.Processing?
    case Claim(_, _) => d.status.IsClaimable()
    case Cancel(_) => d.status.IsCancellable()
    case Requeue(attempts, _, _) => 0 <= attempts < c.policy.maxAttempts
    case Retry(attempts, _, _) => 0 <= attempts < c.policy.maxAttempts
    case Fail(attempts, _) => 0 <= attempts <= c.policy.maxAttempts
    case Send(_) => true
  }

  lemma MoveKeepsRow(c: Config, d: Delivery, m: Move)
    requires RowOk(c, d) && Guarded(c, d, m)
    ensures RowOk(c, MoveRow(d, m))
    ensures var e := MoveRow(d, m); e.requestId == d.requestId && e.channel == d.channel && e.priority == d.priority
  {
  }

  lemma JobMovesAreGuarded(c: Config, db: DB, job: Job, now: Time, after: Duration, chosen: seq<Key>)
    requires forall i :: 0 <= i < |chosen| ==> chosen[i] in Due(db, job, now, after)
    ensures forall k :: k in JobMoves(job, chosen, now) ==> k in db.deliveries && Guarded(c, db.deliveries[k], JobMoves(job, chosen, now)[k])
  {
  }

  lemma MarkIsGuarded(c: Config, s: State, a: Action)
    requires WellFormed(c, s) && Enabled(c, s, a)
    requires a.RequeueDelivery? || a.MarkRetrying? || a.MarkFailed? || a.MarkSent?
    ensures var k := s.workers[a.w].key;
            && k in s.db.deliveries && Moves(c, s, a).Keys == {k} && Guarded(c, s.db.deliveries[k], Moves(c, s, a)[k])
  {
    hide DbOk, StreamsOk, RelaysOk, SeenIds, Picked, FreshItem, Retry.BackoffFor;
    assert WorkerOk(c, s.db.deliveries, s.workers[a.w]);
  }

  lemma RunDueIsDue(c: Config, s: State, a: Action)
    requires Enabled(c, s, a) && a.RunDue?
    ensures forall i :: 0 <= i < |a.chosen| ==> a.chosen[i] in Due(s.db, a.job, s.now, c.reconcileAfter)
  {
    hide Due, Ranks, SeenIds;
  }

  /** Every update of a step hits an existing row within its guard. */
  lemma MovesAreGuarded(c: Config, s: State, a: Action)
    requires WellFormed(c, s) && Enabled(c, s, a)
    ensures forall k :: k in Moves(c, s, a) ==> k in s.db.deliveries && Guarded(c, s.db.deliveries[k], Moves(c, s, a)[k])
  {
    hide WellFormed, SeenIds, Picked, FreshItem, Retry.Evaluate, JobMoves, IsDue;
    if a.RequeueDelivery? || a.MarkRetrying? || a.MarkFailed? || a.MarkSent? {
      MarkIsGuarded(c, s, a);
    } else if a.RunDue? {
      RunDueIsDue(c, s, a);
      JobMovesAreGuarded(c, s.db, a.job, s.now, c.reconcileAfter, a.chosen);
    }
  }

  // ---- Rows keep their identity ----

  /** Rows never disappear, and their request and routing never change. */
  ghost predicate Extends(ds: Deliveries, es: Deliveries)
  {
    forall k :: k in ds ==> k in es && es[k].requestId == ds[k].requestId
                            && es[k].channel == ds[k].channel && es[k].priority == ds[k].priority
  }

  lemma MovesExtend(ds: Deliveries, moves: map<Key, Move>)
    ensures Extends(ds, ApplyMoves(ds, moves))
  {
  }

  lemma ExtendKeepsWire(c: Config, ds: Deliveries, es: Deliveries, s: State)
    requires Extends(ds, es)
    ensures StreamsOk(ds, s.streams) ==> StreamsOk(es, s.streams)
    ensures WorkersOk(c, ds, s.workers) ==> WorkersOk(c, es, s.workers)
    ensures RelaysOk(ds, s.relays) ==> RelaysOk(es, s.relays)
  {
  }

  // ---- The database ----

  lemma RecomputeFrame(db: DB, requestId: Id)
    requires requestId in db.requests
    ensures var r := Recompute(db, requestId);
            && r.deliveries == db.deliveries && r.outbox == db.outbox && r.requests.Keys == db.requests.Keys
            && r.batches.Keys == db.batches.Keys
            && forall q :: q in db.requests ==>
                             r.requests[q] == db.requests[q].(status := r.requests[q].status)
  {
  }

  lemma MovesKeepDb(c: Config, db: DB, moves: map<Key, Move>)
    requires DbOk(c, db)
    requires forall k :: k in moves ==> k in db.deliveries && Guarded(c, db.deliveries[k], moves[k])
    ensures DbOk(c, db.(deliveries := ApplyMoves(db.deliveries, moves)))
  {
    var es := ApplyMoves(db.deliveries, moves);
    forall k | k in es ensures RowOk(c, es[k]) {
      if k in moves {
        MoveKeepsRow(c, db.deliveries[k], moves[k]);
      }
    }
    MovesExtend(db.deliveries, moves);
  }

  lemma InsertKeepsDb(c: Config, db: DB, item: NewItem, batchId: Option<Id>, at: Time)
    requires c.policy.maxAttempts >= 1
    requires DbOk(c, db) && FreshItem(db, item, at) && !Conflicts(db.requests, item.userId, item.idemKey)
    ensures DbOk(c, Insert(db, item, batchId, at))
    ensures Extends(db.deliveries, Insert(db, item, batchId, at).deliveries)
  {
    hide OutboxOk, UniqueKeys, Conflicts;
    assert item.key !in db.deliveries;
    InsertKeepsOutbox(db, item, batchId, at);
    InsertKeepsKeysUnique(db.requests, item, batchId);
  }

  lemma InsertKeepsKeysUnique(requests: map<Id, Request>, item: NewItem, batchId: Option<Id>)
    requires UniqueKeys(requests) && !Conflicts(requests, item.userId, item.idemKey)
    ensures UniqueKeys(requests[item.requestId := BuildRequest(item, batchId)])
  {
  }

  lemma InsertKeepsOutbox(db: DB, item: NewItem, batchId: Option<Id>, at: Time)
    requires OutboxOk(db.deliveries, db.outbox) && item.key !in db.deliveries
    ensures var next := Insert(db, item, batchId, at); OutboxOk(next.deliveries, next.outbox)
  {
  }

  /** Inserting one item leaves the remaining items of a batch fresh. */
  lemma InsertKeepsFresh(db: DB, items: seq<NewItem>, batchId: Option<Id>, at: Time)
    requires items != [] && FreshItems(db, items, at)
    ensures FreshItems(Insert(db, items[0], batchId, at), items[1..], at)
    ensures FreshItems(db, items[1..], at)
  {
  }

  lemma {:induction false} InsertAllKeepsDb(c: Config, db: DB, items: seq<NewItem>, batchId: Id, at: Time)
    requires c.policy.maxAttempts >= 1
    requires DbOk(c, db) && FreshItems(db, items, at)
    ensures DbOk(c, InsertAll(db, items, batchId, at))
    ensures Extends(db.deliveries, InsertAll(db, items, batchId, at).deliveries)
    decreases |items|
  {
    if items != [] {
      InsertKeepsFresh(db, items, Some(batchId), at);
      if Conflicts(db.requests, items[0].userId, items[0].idemKey) {
        InsertAllKeepsDb(c, db, items[1..], batchId, at);
      } else {
        var next := Insert(db, items[0], Some(batchId), at);
        InsertKeepsDb(c, db, items[0], Some(batchId), at);
        InsertAllKeepsDb(c, next, items[1..], batchId, at);
      }
    }
  }

  lemma JobKeepsDb(c: Config, db: DB, job: Job, chosen: seq<Key>, ids: seq<Id>, at: Time)
    requires DbOk(c, db) && |ids| == |chosen| && FreshIds(db, ids)
    requires forall i :: 0 <= i < |chosen| ==> chosen[i] in db.deliveries
    requires forall k :: k in JobMoves(job, chosen, at) ==> Guarded(c, db.deliveries[k], JobMoves(job, chosen, at)[k])
    ensures DbOk(c, RunJob(db, job, chosen, ids, at))
  {
    MovesKeepDb(c, db, JobMoves(job, chosen, at));
    EnqueueRows(db.outbox, db.deliveries, chosen, ids, at);
    var outbox := Enqueue(db.outbox, db.deliveries, chosen, ids, at);
    forall o | o in outbox
      ensures Genuine(db.deliveries, outbox[o].stream, outbox[o].message) && outbox[o].key == outbox[o].message.key
    {
      if o !in db.outbox {
        var i :| 0 <= i < |ids| && ids[i] == o;
      }
    }
    MovesExtend(db.deliveries, JobMoves(job, chosen, at));
  }

  lemma StepKeepsDb(c: Config, s: State, a: Action)
    requires c.policy.maxAttempts >= 1
    requires WellFormed(c, s) && Enabled(c, s, a)
    ensures DbOk(c, NextDB(c, s, a)) && Extends(s.db.deliveries, NextDB(c, s, a).deliveries)
  {
    hide RowsOk, UniqueIds, HaveRequests, UniqueKeys, OutboxOk, Extends, Guarded, StreamsOk, WorkersOk, RelaysOk, ApplyMoves;
    MovesAreGuarded(c, s, a);
    MovesKeepDb(c, s.db, Moves(c, s, a));
    MovesExtend(s.db.deliveries, Moves(c, s, a));
    var moved := s.db.(deliveries := ApplyMoves(s.db.deliveries, Moves(c, s, a)));
    match a
    case Create(item) => InsertKeepsDb(c, s.db, item, None, s.now);
    case CreateMany(_, _, _, _) => CreateManyKeepsDb(c, s, a);
    case CancelRequest(requestId, _, _) => RecomputeKeepsDb(c, moved, requestId);
    case MarkFailed(w, _, _, _) => RecomputeKeepsDb(c, moved, s.workers[w].requestId);
    case MarkSent(w, _) => RecomputeKeepsDb(c, moved, s.workers[w].requestId);
    case RunDue(job, chosen, ids, _) => RunDueKeepsDb(c, s, a);
    case MarkBatch(r) => OutboxUpdatesKeepDb(c, s.db, s.relays[r].published, s.now, s.now);
    case Purge(before) => OutboxUpdatesKeepDb(c, s.db, {}, s.now, before);
    case _ =>
  }

  lemma CreateManyKeepsDb(c: Config, s: State, a: Action)
    requires c.policy.maxAttempts >= 1
    requires WellFormed(c, s) && Enabled(c, s, a) && a.CreateMany?
    ensures DbOk(c, NextDB(c, s, a)) && Extends(s.db.deliveries, NextDB(c, s, a).deliveries)
  {
    hide RowsOk, UniqueIds, UniqueKeys, OutboxOk, Extends, StreamsOk, WorkersOk, RelaysOk, SeenIds;
    var empty := s.db.(batches := s.db.batches[a.batchId := Batch(a.userId, a.idemKey, 0, 0, 0, 0, 0)]);
    InsertAllKeepsDb(c, empty, a.items, a.batchId, s.now);
  }

  lemma RunDueKeepsDb(c: Config, s: State, a: Action)
    requires WellFormed(c, s) && Enabled(c, s, a) && a.RunDue?
    ensures DbOk(c, NextDB(c, s, a)) && Extends(s.db.deliveries, NextDB(c, s, a).deliveries)
  {
    hide RowsOk, UniqueIds, HaveRequests, UniqueKeys, OutboxOk, Extends, Guarded, StreamsOk, WorkersOk, RelaysOk, ApplyMoves;
    JobMovesAreGuarded(c, s.db, a.job, s.now, c.reconcileAfter, a.chosen);
    JobKeepsDb(c, s.db, a.job, a.chosen, a.ids, s.now);
    MovesExtend(s.db.deliveries, JobMoves(a.job, a.chosen, s.now));
  }

  lemma OutboxUpdatesKeepDb(c: Config, db: DB, published: set<Id>, at: Time, before: Time)
    requires DbOk(c, db)
    ensures DbOk(c, db.(outbox := MarkPublished(db.outbox, published, at))) && DbOk(c, db.(outbox := PurgePublished(db.outbox, before)))
    ensures Extends(db.deliveries, db.deliveries)
  {
  }

  lemma RecomputeKeepsDb(c: Config, db: DB, requestId: Id)
    requires DbOk(c, db) && requestId in db.requests
    ensures DbOk(c, Recompute(db, requestId)) && Recompute(db, requestId).deliveries == db.deliveries
  {
    RecomputeFrame(db, requestId);
  }

  // ---- What a step does to rows ----

  lemma {:induction false} InsertAllRows(db: DB, items: seq<NewItem>, batchId: Id, at: Time)
    requires FreshItems(db, items, at)
    ensures var es := InsertAll(db, items, batchId, at).deliveries;
            && (forall k :: k in db.deliveries ==> k in es && es[k] == db.deliveries[k])
            && (forall k :: k in es && k !in db.deliveries ==> exists i :: 0 <= i < |items| && es[k] == BuildDelivery(items[i]))
    decreases |items|
  {
    if items != [] {
      InsertKeepsFresh(db, items, Some(batchId), at);
      assert items == [items[0]] + items[1..];
      if Conflicts(db.requests, items[0].userId, items[0].idemKey) {
        InsertAllRows(db, items[1..], batchId, at);
        assert forall i :: 0 <= i < |items[1..]| ==> items[1..][i] == items[i + 1];
      } else {
        var next := Insert(db, items[0], Some(batchId), at);
        InsertAllRows(next, items[1..], batchId, at);
        assert forall i :: 0 <= i < |items[1..]| ==> items[1..][i] == items[i + 1];
        assert items[0].key !in db.deliveries;
      }
    }
  }

  /** Only a create adds rows. */
  lemma OtherStepsMoveRows(c: Config, s: State, a: Action)
    requires Enabled(c, s, a) && !a.Create? && !a.CreateMany?
    ensures NextDB(c, s, a).deliveries == ApplyMoves(s.db.deliveries, Moves(c, s, a))
  {
    hide Enabled, ApplyMoves, Recompute, Enqueue, JobMoves, MarkPublished, PurgePublished;
    var moved := s.db.(deliveries := ApplyMoves(s.db.deliveries, Moves(c, s, a)));
    StepHasRequest(c, s, a);
    match a
    case CancelRequest(requestId, _, _) => RecomputeFrame(moved, requestId);
    case MarkFailed(w, _, _, _) => RecomputeFrame(moved, s.workers[w].requestId);
    case MarkSent(w, _) => RecomputeFrame(moved, s.workers[w].requestId);
    case Tick(_) => NothingMoves(s.db.deliveries);
    case MarkBatch(_) => NothingMoves(s.db.deliveries);
    case Purge(_) => NothingMoves(s.db.deliveries);
    case _ =>
  }

  lemma NothingMoves(ds: Deliveries)
    ensures ApplyMoves(ds, map[]) == ds
  {
  }

  lemma NoMoves(db: DB)
    ensures db.(deliveries := ApplyMoves(db.deliveries, map[])) == db
  {
    assert ApplyMoves(db.deliveries, map[]) == db.deliveries;
  }

  lemma StepHasRequest(c: Config, s: State, a: Action)
    requires Enabled(c, s, a)
    ensures a.CancelRequest? ==> a.requestId in s.db.requests
    ensures a.MarkFailed? || a.MarkSent? ==> IsFlying(s, a.w) && s.workers[a.w].requestId in s.db.requests
  {
  }

  predicate Stores(a: Action, item: NewItem)
  {
    match a
    case Create(i) => item == i
    case CreateMany(_, _, _, items) => item in items
    case _ => false
  }

  lemma CreateAddsRows(c: Config, s: State, a: Action)
    requires Enabled(c, s, a) && (a.Create? || a.CreateMany?)
    ensures Moves(c, s, a) == map[]
    ensures var es := NextDB(c, s, a).deliveries;
            && (forall k :: k in s.db.deliveries ==> k in es && es[k] == s.db.deliveries[k])
            && (forall k :: k in es && k !in s.db.deliveries ==>
                              exists item :: es[k] == BuildDelivery(item) && item.requestId !in s.db.requests && Stores(a, item))
  {
    hide SeenIds, Conflicts;
    if a.CreateMany? {
      var empty := s.db.(batches := s.db.batches[a.batchId := Batch(a.userId, a.idemKey, 0, 0, 0, 0, 0)]);
      InsertAllRows(empty, a.items, a.batchId, s.now);
    } else {
      assert a.item.key !in s.db.deliveries;
    }
  }

  /** Old rows change by the step's moves only. */
  lemma StepRows(c: Config, s: State, a: Action)
    requires Enabled(c, s, a)
    ensures var es := NextDB(c, s, a).deliveries;
            forall k :: k in s.db.deliveries ==>
                          k in es && es[k] == if k in Moves(c, s, a) then MoveRow(s.db.deliveries[k], Moves(c, s, a)[k]) else s.db.deliveries[k]
  {
    hide Enabled, NextDB, Moves, MoveRow;
    if a.Create? || a.CreateMany? {
      CreateAddsRows(c, s, a);
    } else {
      OtherStepsMoveRows(c, s, a);
    }
  }

  /** New rows are as their builder made them, for requests that are new too. */
  lemma StepNewRows(c: Config, s: State, a: Action)
    requires Enabled(c, s, a)
    ensures var es := NextDB(c, s, a).deliveries;
            forall k :: k in es && k !in s.db.deliveries ==>
                          exists item :: es[k] == BuildDelivery(item) && item.requestId !in s.db.requests && Stores(a, item)
  {
    hide Enabled, NextDB, Moves, MoveRow, BuildDelivery;
    if a.Create? || a.CreateMany? {
      CreateAddsRows(c, s, a);
    } else {
      OtherStepsMoveRows(c, s, a);
    }
  }

  // ---- The step and the run ----

  lemma StepKeepsWire(c: Config, s: State, a: Action)
    requires WellFormed(c, s) && Enabled(c, s, a)
    ensures StreamsOk(s.db.deliveries, NextStreams(c, s, a))
    ensures WorkersOk(c, s.db.deliveries, NextWorkers(c, s, a))
    ensures RelaysOk(s.db.deliveries, NextRelays(c, s, a))
  {
    hide StreamsOk, WorkersOk, RelaysOk, Enabled, NextStreams, NextWorkers, NextRelays;
    StepKeepsStreams(c, s, a);
    StepKeepsWorkers(c, s, a);
    StepKeepsRelays(c, s, a);
  }

  lemma StepKeepsStreams(c: Config, s: State, a: Action)
    requires WellFormed(c, s) && Enabled(c, s, a)
    ensures StreamsOk(s.db.deliveries, NextStreams(c, s, a))
  {
    hide Genuine, DbOk, WorkersOk, Picked, SeenIds, FreshItem;
    if a.Publish? {
      assert RelayOk(s.db.deliveries, s.relays[a.r]);
    }
  }

  lemma StepKeepsWorkers(c: Config, s: State, a: Action)
    requires WellFormed(c, s) && Enabled(c, s, a)
    ensures WorkersOk(c, s.db.deliveries, NextWorkers(c, s, a))
  {
    hide RelaysOk, Picked, SeenIds, FreshItem, OutboxOk;
    if a.ClaimMessage? || a.StartSend? {
      assert WorkerOk(c, s.db.deliveries, s.workers[a.w]);
    }
  }

  lemma StepKeepsRelays(c: Config, s: State, a: Action)
    requires WellFormed(c, s) && Enabled(c, s, a)
    ensures RelaysOk(s.db.deliveries, NextRelays(c, s, a))
  {
    hide Genuine, WorkersOk, StreamsOk, SeenIds, FreshItem;
    if a.Publish? || a.PublishFail? {
      assert RelayOk(s.db.deliveries, s.relays[a.r]);
    }
  }

  lemma StepKeepsWellFormed(c: Config, s: State, a: Action)
    requires c.policy.maxAttempts >= 1
    requires WellFormed(c, s) && Enabled(c, s, a)
    ensures WellFormed(c, Apply(c, s, a))
    ensures Extends(s.db.deliveries, Apply(c, s, a).db.deliveries)
  {
    StepKeepsDb(c, s, a);
    StepKeepsWire(c, s, a);
    ExtendKeepsWire(c, s.db.deliveries, NextDB(c, s, a).deliveries, Apply(c, s, a));
  }

  /** Every reachable state is well formed. In particular attempts never pass the ceiling. */
  lemma {:induction false} RunKeepsWellFormed(c: Config, s: State, acts: seq<Action>, t: State)
    requires c.policy.maxAttempts >= 1
    requires WellFormed(c, s) && Run(c, s, acts, t)
    ensures WellFormed(c, t) && Extends(s.db.deliveries, t.db.deliveries)
    decreases |acts|
  {
    if acts != [] {
      StepKeepsWellFormed(c, s, acts[0]);
      RunKeepsWellFormed(c, Apply(c, s, acts[0]), acts[1..], t);
    }
  }
}
