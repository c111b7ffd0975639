/** The PostgreSQL rows and the statements that change them (internal/adapters/postgres). */
module Database {
  import opened Domain

  /** The primary key of notification_deliveries. */
  datatype Key = Key(id: Id, createdAt: Time)

  /** What has happened to a delivery so far. No statement reads it; it says which rows a cancel can miss. */
  datatype History = History(claims: nat, sents: nat, fails: nat, retries: nat, requeues: nat, reaps: nat)

  const NO_HISTORY := History(0, 0, 0, 0, 0, 0)

  datatype Delivery = Delivery(
    requestId: Id, channel: Channel, priority: Priority, status: DeliveryStatus, attempts: int,
    nextRetryAt: Option<Time>, lockedUntil: Option<Time>, sendAt: Option<Time>, updatedAt: Time,
    history: History)

  datatype Request = Request(
    userId: string, batchId: Option<Id>, idemKey: Option<string>,
    channel: Channel, priority: Priority, status: RequestStatus, createdAt: Time)

  datatype Batch = Batch(
    userId: string, idemKey: Option<string>, total: int, pending: int, sent: int, failed: int, cancelled: int)

  datatype Message = Message(key: Key, requestId: Id, channel: Channel, priority: Priority)

  datatype OutboxRow = OutboxRow(key: Key, stream: Stream, message: Message, createdAt: Time, publishedAt: Option<Time>)

  type Deliveries = map<Key, Delivery>

  datatype DB = DB(
    deliveries: Deliveries, requests: map<Id, Request>, batches: map<Id, Batch>, outbox: map<Id, OutboxRow>)

  // ---- Updates of single delivery rows ----

  /** One UPDATE of one delivery row. */
  datatype Move =
    | Promote(at: Time)
    | Sweep(at: Time)
    | Reap(at: Time)
    | Claim(lease: Time, at: Time)
    | Requeue(attempts: int, next: Time, at: Time)
    | Retry(attempts: int, next: Time, at: Time)
    | Send(at: Time)
    | Fail(attempts: int, at: Time)
    | Cancel(at: Time)
  {
    /** The worker's final writes, whose WHERE clause has no status guard. */
    predicate IsMark() { Requeue? || Retry? || Send? || Fail? }
  }

  function MoveRow(d: Delivery, m: Move): Delivery
  {
    match m
    case Promote(at) => d.(status := Pending, updatedAt := at)
    case Sweep(at) => d.(status := Pending, updatedAt := at)
    case Reap(at) =>
      d.(status := Retrying, nextRetryAt := Some(at), lockedUntil := None, updatedAt := at,
         history := d.history.(reaps := d.history.reaps + 1))
    case Claim(lease, at) =>
      d.(status := Processing, lockedUntil := Some(lease), updatedAt := at,
         history := d.history.(claims := d.history.claims + 1))
    case Requeue(attempts, next, at) =>
      d.(status := Retrying, attempts := attempts, nextRetryAt := Some(next), lockedUntil := None, updatedAt := at,
         history := d.history.(requeues := d.history.requeues + 1))
    case Retry(attempts, next, at) =>
      d.(status := Retrying, attempts := attempts, nextRetryAt := Some(next), lockedUntil := None, updatedAt := at,
         history := d.history.(retries := d.history.retries + 1))
    case Send(at) =>
      d.(status := Sent, lockedUntil := None, updatedAt := at,
         history := d.history.(sents := d.history.sents + 1))
    case Fail(attempts, at) =>
      d.(status := Failed, attempts := attempts, lockedUntil := None, updatedAt := at,
         history := d.history.(fails := d.history.fails + 1))
    case Cancel(at) => d.(status := Cancelled, updatedAt := at)
  }

  function ApplyMoves(ds: Deliveries, moves: map<Key, Move>): (r: Deliveries)
    ensures r.Keys == ds.Keys
  {
    map k | k in ds :: if k in moves then MoveRow(ds[k], moves[k]) else ds[k]
  }

  /** One row moved. */
  function Moved(db: DB, k: Key, m: Move): DB
  {
    db.(deliveries := ApplyMoves(db.deliveries, map[k := m]))
  }

  /** The status guard of a claim. */
  predicate CanClaim(db: DB, k: Key)
  {
    k in db.deliveries && db.deliveries[k].status.IsClaimable()
  }

  // ---- Requests and batch counters ----

  function KeysOf(ds: Deliveries, requestId: Id): set<Key>
  {
    set k | k in ds && ds[k].requestId == requestId
  }

  function StatusesOf(ds: Deliveries, requestId: Id): set<DeliveryStatus>
  {
    set k | k in KeysOf(ds, requestId) :: ds[k].status
  }

  function Cancellable(ds: Deliveries, requestId: Id): set<Key>
  {
    set k | k in ds && ds[k].requestId == requestId && ds[k].status.IsCancellable()
  }

  datatype Bucket = PendingCount | SentCount | FailedCount | CancelledCount

  function BucketOf(s: RequestStatus): Bucket
  {
    match s
    case RequestSent => SentCount
    case RequestPartial => SentCount
    case RequestFailed => FailedCount
    case RequestCancelled => CancelledCount
    case RequestPending => PendingCount
  }

  function Counter(b: Batch, x: Bucket): int
  {
    match x
    case PendingCount => b.pending
    case SentCount => b.sent
    case FailedCount => b.failed
    case CancelledCount => b.cancelled
  }

  function SetCounter(b: Batch, x: Bucket, n: int): Batch
  {
    match x
    case PendingCount => b.(pending := n)
    case SentCount => b.(sent := n)
    case FailedCount => b.(failed := n)
    case CancelledCount => b.(cancelled := n)
  }

  /** Moves one unit between buckets, clamped at zero as GREATEST(.. - 1, 0) does. */
  function AdjustCounters(b: Batch, from: RequestStatus, to: RequestStatus): Batch
  {
    var x, y := BucketOf(from), BucketOf(to);
    if x == y then b
    else
      var less := if Counter(b, x) - 1 >= 0 then Counter(b, x) - 1 else 0;
      SetCounter(SetCounter(b, x, less), y, Counter(b, y) + 1)
  }

  function AdjustBatch(batches: map<Id, Batch>, batchId: Option<Id>, from: RequestStatus, to: RequestStatus): map<Id, Batch>
  {
    if batchId.Some? && batchId.value in batches
    then batches[batchId.value := AdjustCounters(batches[batchId.value], from, to)]
    else batches
  }

  /** Derives the request status from its deliveries and carries a change over to the batch. */
  function Recompute(db: DB, requestId: Id): DB
    requires requestId in db.requests
  {
    var r := db.requests[requestId];
    var status := Aggregate(StatusesOf(db.deliveries, requestId));
    if status == r.status then db
    else db.(requests := db.requests[requestId := r.(status := status)],
             batches := AdjustBatch(db.batches, r.batchId, r.status, status))
  }

  // ---- Creation ----

  /** One notification to create, with the identifiers and the instant its builder drew. */
  datatype NewItem = NewItem(
    requestId: Id, key: Key, outboxId: Id, userId: string, idemKey: Option<string>,
    channel: Channel, priority: Priority, sendAt: Option<Time>)
  {
    /** A send time that is not in the future means an immediate send. */
    predicate IsScheduled() { sendAt.Some? && sendAt.value > key.createdAt }
  }

  function BuildRequest(item: NewItem, batchId: Option<Id>): Request
  {
    Request(item.userId, batchId, item.idemKey, item.channel, item.priority, RequestPending, item.key.createdAt)
  }

  function BuildDelivery(item: NewItem): Delivery
  {
    Delivery(item.requestId, item.channel, item.priority, if item.IsScheduled() then Scheduled else Pending, 0,
             None, None, if item.IsScheduled() then item.sendAt else None, item.key.createdAt, NO_HISTORY)
  }

  function MessageFor(key: Key, d: Delivery): Message
  {
    Message(key, d.requestId, d.channel, d.priority)
  }

  function OutboxFor(key: Key, d: Delivery, at: Time): OutboxRow
  {
    OutboxRow(key, Stream(d.priority, d.channel), MessageFor(key, d), at, None)
  }

  /** The unique index on (user_id, idempotency_key) rejects the item. */
  ghost predicate Conflicts(requests: map<Id, Request>, userId: string, idemKey: Option<string>)
  {
    idemKey.Some? && exists r :: r in requests && requests[r].userId == userId && requests[r].idemKey == idemKey
  }

  function Insert(db: DB, item: NewItem, batchId: Option<Id>, at: Time): DB
  {
    var d := BuildDelivery(item);
    db.(requests := db.requests[item.requestId := BuildRequest(item, batchId)],
        deliveries := db.deliveries[item.key := d],
        outbox := if item.IsScheduled() then db.outbox else db.outbox[item.outboxId := OutboxFor(item.key, d, at)])
  }

  /** What a create stores, column by column: a request, a delivery, and an outbox row unless the send time is to come. */
  predicate HasRows(db: DB, item: NewItem, batchId: Option<Id>, at: Time)
  {
    var later := item.sendAt.Some? && item.sendAt.value > item.key.createdAt;
    && item.requestId in db.requests
    && db.requests[item.requestId] ==
       Request(userId := item.userId, batchId := batchId, idemKey := item.idemKey, channel := item.channel,
               priority := item.priority, status := RequestPending, createdAt := item.key.createdAt)
    && item.key in db.deliveries
    && db.deliveries[item.key] ==
       Delivery(requestId := item.requestId, channel := item.channel, priority := item.priority,
                status := if later then Scheduled else Pending, attempts := 0, nextRetryAt := None, lockedUntil := None,
                sendAt := if later then item.sendAt else None, updatedAt := item.key.createdAt,
                history := History(0, 0, 0, 0, 0, 0))
    && (!later ==>
          && item.outboxId in db.outbox
          && db.outbox[item.outboxId] ==
             OutboxRow(key := item.key, stream := Stream(item.priority, item.channel),
                       message := Message(key := item.key, requestId := item.requestId, channel := item.channel, priority := item.priority),
                       createdAt := at, publishedAt := None))
  }

  /** The insert loop of a batch: conflicting items are skipped. */
  ghost function InsertAll(db: DB, items: seq<NewItem>, batchId: Id, at: Time): DB
    decreases |items|
  {
    if items == [] then db
    else if Conflicts(db.requests, items[0].userId, items[0].idemKey) then InsertAll(db, items[1..], batchId, at)
    else InsertAll(Insert(db, items[0], Some(batchId), at), items[1..], batchId, at)
  }

  ghost function CountCreated(db: DB, items: seq<NewItem>, batchId: Id, at: Time): nat
    decreases |items|
  {
    if items == [] then 0
    else if Conflicts(db.requests, items[0].userId, items[0].idemKey) then CountCreated(db, items[1..], batchId, at)
    else 1 + CountCreated(Insert(db, items[0], Some(batchId), at), items[1..], batchId, at)
  }

  ghost function CreateBatch(db: DB, batchId: Id, userId: string, idemKey: Option<string>, items: seq<NewItem>, at: Time): DB
  {
    var empty := db.(batches := db.batches[batchId := Batch(userId, idemKey, 0, 0, 0, 0, 0)]);
    var filled := InsertAll(empty, items, batchId, at);
    var n := CountCreated(empty, items, batchId, at);
    filled.(batches := filled.batches[batchId := Batch(userId, idemKey, n, n, 0, 0, 0)])
  }

  // ---- Scheduler statements ----

  /** The three jobs that put deliveries back on the outbox. */
  datatype Job = PromoteJob | SweepJob | ReconcileJob

  predicate HasOpenOutboxRow(outbox: map<Id, OutboxRow>, id: Id)
  {
    exists o :: o in outbox && outbox[o].key.id == id && outbox[o].publishedAt.None?
  }

  predicate IsDue(db: DB, job: Job, k: Key, now: Time, reconcileAfter: Duration)
    requires k in db.deliveries
  {
    var d := db.deliveries[k];
    match job
    case PromoteJob => d.status.Scheduled? && d.sendAt.Some? && d.sendAt.value <= now
    case SweepJob => d.status.Retrying? && d.nextRetryAt.Some? && d.nextRetryAt.value <= now
    case ReconcileJob => d.status.Pending? && d.updatedAt < now - reconcileAfter && !HasOpenOutboxRow(db.outbox, k.id)
  }

  function Due(db: DB, job: Job, now: Time, reconcileAfter: Duration): set<Key>
  {
    set k | k in db.deliveries && IsDue(db, job, k, now, reconcileAfter)
  }

  /** The ORDER BY column of each job. */
  function RankOf(d: Delivery, job: Job): Time
  {
    match job
    case PromoteJob => if d.sendAt.Some? then d.sendAt.value else 0
    case SweepJob => if d.nextRetryAt.Some? then d.nextRetryAt.value else 0
    case ReconcileJob => d.updatedAt
  }

  function Ranks(ds: Deliveries, job: Job): map<Key, Time>
  {
    map k | k in ds :: RankOf(ds[k], job)
  }

  /** ORDER BY rank LIMIT limit: the chosen rows are the lowest ranked candidates, as many as the limit allows. */
  ghost predicate Picked<K(!new)>(candidates: set<K>, rank: map<K, Time>, limit: int, chosen: seq<K>)
    requires candidates <= rank.Keys
  {
    && |chosen| <= limit
    && (forall i :: 0 <= i < |chosen| ==> chosen[i] in candidates)
    && (forall i, j :: 0 <= i < j < |chosen| ==> chosen[i] != chosen[j])
    && (forall k :: k in candidates && k !in chosen ==> |chosen| == limit && forall c :: c in chosen ==> rank[c] <= rank[k])
  }

  /** The UPDATE of a job; reconcile writes no delivery row. */
  function JobMoves(job: Job, chosen: seq<Key>, at: Time): map<Key, Move>
  {
    match job
    case PromoteJob => map k | k in chosen :: Promote(at)
    case SweepJob => map k | k in chosen :: Sweep(at)
    case ReconcileJob => map[]
  }

  /** One new outbox row per chosen delivery. */
  function Enqueue(outbox: map<Id, OutboxRow>, ds: Deliveries, chosen: seq<Key>, ids: seq<Id>, at: Time): map<Id, OutboxRow>
    requires |ids| == |chosen| && forall i :: 0 <= i < |chosen| ==> chosen[i] in ds
    decreases |chosen|
  {
    if chosen == [] then outbox
    else Enqueue(outbox[ids[0] := OutboxFor(chosen[0], ds[chosen[0]], at)], ds, chosen[1..], ids[1..], at)
  }

  /** A job's whole transaction. */
  function RunJob(db: DB, job: Job, chosen: seq<Key>, ids: seq<Id>, at: Time): DB
    requires |ids| == |chosen| && forall i :: 0 <= i < |chosen| ==> chosen[i] in db.deliveries
  {
    db.(deliveries := ApplyMoves(db.deliveries, JobMoves(job, chosen, at)),
        outbox := Enqueue(db.outbox, db.deliveries, chosen, ids, at))
  }

  predicate IsExpired(d: Delivery, now: Time)
  {
    d.status.Processing? && d.lockedUntil.Some? && d.lockedUntil.value < now
  }

  /** Every expired lease, reaped by one statement. */
  function ReapMoves(ds: Deliveries, now: Time): map<Key, Move>
  {
    map k | k in ds && IsExpired(ds[k], now) :: Reap(now)
  }

  function MarkPublished(outbox: map<Id, OutboxRow>, ids: set<Id>, at: Time): map<Id, OutboxRow>
  {
    map o | o in outbox :: if o in ids then outbox[o].(publishedAt := Some(at)) else outbox[o]
  }

  function PurgePublished(outbox: map<Id, OutboxRow>, before: Time): map<Id, OutboxRow>
  {
    map o | o in outbox && !(outbox[o].publishedAt.Some? && outbox[o].publishedAt.value < before) :: outbox[o]
  }

  // ---- Facts about the statements ----

  ghost predicate Distinct<T(!new)>(s: seq<T>)
  {
    forall i, j :: 0 <= i < j < |s| ==> s[i] != s[j]
  }

  /** The WHERE clause of each job, column by column. */
  lemma DueInColumns(db: DB, now: Time, after: Duration)
    ensures forall k :: k in Due(db, PromoteJob, now, after) <==>
                        && k in db.deliveries && db.deliveries[k].status == Scheduled
                        && db.deliveries[k].sendAt.Some? && db.deliveries[k].sendAt.value <= now
    ensures forall k :: k in Due(db, SweepJob, now, after) <==>
                        && k in db.deliveries && db.deliveries[k].status == Retrying
                        && db.deliveries[k].nextRetryAt.Some? && db.deliveries[k].nextRetryAt.value <= now
    ensures forall k :: k in Due(db, ReconcileJob, now, after) <==>
                        && k in db.deliveries && db.deliveries[k].status == Pending && db.deliveries[k].updatedAt < now - after
                        && forall o :: o in db.outbox && db.outbox[o].key.id == k.id ==> db.outbox[o].publishedAt.Some?
  {
  }

  /** The guarded UPDATE of a cancel, and when it finds nothing. */
  lemma CancelInColumns(ds: Deliveries, id: Id, at: Time)
    ensures Cancellable(ds, id) == {} <==>
            forall k :: k in ds && ds[k].requestId == id ==> ds[k].status in {Processing, Sent, Failed, Cancelled}
    ensures var es := map k | k in ds :: if k in Cancellable(ds, id) then ds[k].(status := Cancelled, updatedAt := at) else ds[k];
            && es == ApplyMoves(ds, map k | k in Cancellable(ds, id) :: Cancel(at))
            && forall k :: k in ds ==>
                             es[k] == if ds[k].requestId == id && ds[k].status in {Scheduled, Pending, Retrying}
                                      then ds[k].(status := Cancelled, updatedAt := at) else ds[k]
  {
    forall k | k in ds && ds[k].requestId == id ensures k in Cancellable(ds, id) <==> ds[k].status in {Scheduled, Pending, Retrying} {
    }
    if Cancellable(ds, id) != {} {
      var k :| k in Cancellable(ds, id);
    }
  }

  /** A purge removes the rows published before the given instant, and nothing else. */
  lemma PurgeInColumns(outbox: map<Id, OutboxRow>, before: Time)
    ensures var left := PurgePublished(outbox, before);
            && left.Keys <= outbox.Keys
            && forall o :: o in outbox ==>
                             if outbox[o].publishedAt.Some? && outbox[o].publishedAt.value < before then o !in left
                             else o in left && left[o] == outbox[o]
  {
  }

  /** The rows a job takes are the lowest in its ORDER BY column. */
  lemma RankInColumns(ds: Deliveries)
    ensures forall k :: k in ds && ds[k].sendAt.Some? ==> Ranks(ds, PromoteJob)[k] == ds[k].sendAt.value
    ensures forall k :: k in ds && ds[k].nextRetryAt.Some? ==> Ranks(ds, SweepJob)[k] == ds[k].nextRetryAt.value
    ensures forall k :: k in ds ==> Ranks(ds, ReconcileJob)[k] == ds[k].updatedAt
  {
  }

  lemma DueIsStored(db: DB, job: Job, now: Time, after: Duration)
    ensures Due(db, job, now, after) <= Ranks(db.deliveries, job).Keys && Due(db, job, now, after) <= db.deliveries.Keys
  {
  }

  lemma {:induction false} InsertAllKeepsBatches(db: DB, items: seq<NewItem>, batchId: Id, at: Time)
    ensures InsertAll(db, items, batchId, at).batches == db.batches
    decreases |items|
  {
    if items != [] {
      if Conflicts(db.requests, items[0].userId, items[0].idemKey) {
        InsertAllKeepsBatches(db, items[1..], batchId, at);
      } else {
        InsertAllKeepsBatches(Insert(db, items[0], Some(batchId), at), items[1..], batchId, at);
      }
    }
  }

  /** Enqueue keeps every old row and adds exactly the given ones. */
  lemma {:induction false} EnqueueRows(outbox: map<Id, OutboxRow>, ds: Deliveries, chosen: seq<Key>, ids: seq<Id>, at: Time)
    requires |ids| == |chosen| && forall i :: 0 <= i < |chosen| ==> chosen[i] in ds
    requires Distinct(ids) && forall i :: 0 <= i < |ids| ==> ids[i] !in outbox
    decreases |chosen|
    ensures var r := Enqueue(outbox, ds, chosen, ids, at);
            && (forall o :: o in outbox ==> o in r && r[o] == outbox[o])
            && (forall i :: 0 <= i < |ids| ==> ids[i] in r && r[ids[i]] == OutboxFor(chosen[i], ds[chosen[i]], at))
            && (forall o :: o in r ==> o in outbox || o in ids)
  {
    if chosen != [] {
      var first := outbox[ids[0] := OutboxFor(chosen[0], ds[chosen[0]], at)];
      EnqueueRows(first, ds, chosen[1..], ids[1..], at);
      assert ids == [ids[0]] + ids[1..];
      forall i | 0 < i < |ids|
        ensures ids[i] in Enqueue(outbox, ds, chosen, ids, at)
        ensures Enqueue(outbox, ds, chosen, ids, at)[ids[i]] == OutboxFor(chosen[i], ds[chosen[i]], at)
      {
        assert ids[i] == ids[1..][i - 1] && chosen[i] == chosen[1..][i - 1];
      }
    }
  }

  /** What a job writes: its rows become pending, but for reconcile, and each gets an outbox row that repeats its routing. */
  ghost predicate JobWrites(db: DB, next: DB, job: Job, chosen: seq<Key>, ids: seq<Id>, now: Time)
  {
    && |ids| == |chosen| && next.requests == db.requests && next.batches == db.batches
    && next.deliveries.Keys == db.deliveries.Keys
    && (forall k :: k in db.deliveries ==>
                      next.deliveries[k] ==
                      if k in chosen && job != ReconcileJob then db.deliveries[k].(status := Pending, updatedAt := now) else db.deliveries[k])
    && next.outbox.Keys == db.outbox.Keys + (set id | id in ids)
    && (forall o :: o in db.outbox ==> next.outbox[o] == db.outbox[o])
    && (forall i :: 0 <= i < |ids| ==>
                      && chosen[i] in db.deliveries
                      && var d := db.deliveries[chosen[i]];
                         next.outbox[ids[i]] ==
                         OutboxRow(key := chosen[i], stream := Stream(d.priority, d.channel),
                                   message := Message(key := chosen[i], requestId := d.requestId, channel := d.channel, priority := d.priority),
                                   createdAt := now, publishedAt := None))
  }

  lemma JobInColumns(db: DB, job: Job, chosen: seq<Key>, ids: seq<Id>, now: Time)
    requires |ids| == |chosen| && Distinct(ids) && forall i :: 0 <= i < |ids| ==> ids[i] !in db.outbox
    requires forall i :: 0 <= i < |chosen| ==> chosen[i] in db.deliveries
    ensures JobWrites(db, RunJob(db, job, chosen, ids, now), job, chosen, ids, now)
  {
    EnqueueRows(db.outbox, db.deliveries, chosen, ids, now);
  }

  lemma {:induction false} Lowest<K>(candidates: set<K>, rank: map<K, Time>) returns (m: K)
    requires candidates != {} && candidates <= rank.Keys
    ensures m in candidates && forall k :: k in candidates ==> rank[m] <= rank[k]
    decreases |candidates|
  {
    var x :| x in candidates;
    if candidates == {x} {
      return x;
    }
    assert candidates - {x} != {};
    var y := Lowest(candidates - {x}, rank);
    m := if rank[x] <= rank[y] then x else y;
  }

  /** ORDER BY .. LIMIT always has an answer. */
  lemma {:induction false} Pick<K(!new)>(candidates: set<K>, rank: map<K, Time>, limit: int) returns (chosen: seq<K>)
    requires candidates <= rank.Keys && limit >= 0
    ensures Picked(candidates, rank, limit, chosen)
    decreases |candidates|
  {
    if candidates == {} || limit == 0 {
      return [];
    }
    var m := Lowest(candidates, rank);
    var rest := Pick(candidates - {m}, rank, limit - 1);
    chosen := [m] + rest;
  }
}
