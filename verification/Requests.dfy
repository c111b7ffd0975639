/** Request statuses agree with their deliveries; batch counters are exact. */
module Requests {
  import opened Domain
  import opened Database
  import opened Lifecycle
  import opened Integrity
  import opened Leases

  // ---- Agreement ----

  /** Every request shows the aggregate of its deliveries. */
  ghost predicate Agrees(db: DB)
  {
    forall r :: r in db.requests ==> db.requests[r].status == Aggregate(StatusesOf(db.deliveries, r))
  }

  /** Rows that keep their status, or stay non-terminal, keep the aggregate. */
  lemma AggregateUnmoved(ds: Deliveries, es: Deliveries, r: Id)
    requires KeysOf(ds, r) == KeysOf(es, r)
    requires forall k :: k in KeysOf(ds, r) ==>
                           ds[k].status == es[k].status || (!ds[k].status.IsTerminal() && !es[k].status.IsTerminal())
    ensures Aggregate(StatusesOf(ds, r)) == Aggregate(StatusesOf(es, r))
  {
    if k :| k in KeysOf(ds, r) && !ds[k].status.IsTerminal() {
      assert ds[k].status in StatusesOf(ds, r) && es[k].status in StatusesOf(es, r);
    } else {
      assert StatusesOf(ds, r) == StatusesOf(es, r);
    }
  }

  lemma MovesKeepKeys(ds: Deliveries, moves: map<Key, Move>, r: Id)
    ensures KeysOf(ApplyMoves(ds, moves), r) == KeysOf(ds, r)
  {
  }

  /** The steps that write a final status and recompute in the same transaction. */
  predicate IsFinal(a: Action)
  {
    a.MarkSent? || a.MarkFailed? || a.CancelRequest?
  }

  function FinalRequest(s: State, a: Action): Id
    requires IsFinal(a) && (!a.CancelRequest? ==> IsFlying(s, a.w))
  {
    if a.CancelRequest? then a.requestId else s.workers[a.w].requestId
  }

  /** Final writes touch rows of the recomputed request only. */
  lemma FinalMovesAreLocal(c: Config, s: State, a: Action)
    requires WellFormed(c, s) && Enabled(c, s, a) && IsFinal(a)
    ensures forall k :: k in Moves(c, s, a) ==> k in KeysOf(s.db.deliveries, FinalRequest(s, a))
  {
    if !a.CancelRequest? {
      assert WorkerOk(c, s.db.deliveries, s.workers[a.w]);
    }
  }

  /** Under the discipline, every other update leads from a non-terminal status to a non-terminal one. */
  lemma OtherMovesStayOpen(c: Config, s: State, a: Action)
    requires WellFormed(c, s) && Enabled(c, s, a) && Disciplined(s, a) && !IsFinal(a)
    ensures forall k :: k in Moves(c, s, a) ==>
                          k in s.db.deliveries && !s.db.deliveries[k].status.IsTerminal()
                          && !MoveRow(s.db.deliveries[k], Moves(c, s, a)[k]).status.IsTerminal()
  {
    hide Enabled, WellFormed, Moves, Disciplined, IsFinal;
    DisciplinedMovesFit(c, s, a);
    OtherMovesAreNotFinal(c, s, a);
  }

  lemma OtherMovesAreNotFinal(c: Config, s: State, a: Action)
    requires Enabled(c, s, a) && !IsFinal(a)
    ensures forall k :: k in Moves(c, s, a) ==> var m := Moves(c, s, a)[k]; !m.Send? && !m.Fail? && !m.Cancel?
  {
  }

  lemma RecomputeAgrees(db: DB, moves: map<Key, Move>, r: Id)
    requires Agrees(db) && r in db.requests
    requires forall k :: k in moves ==> k in KeysOf(db.deliveries, r)
    ensures Agrees(Recompute(db.(deliveries := ApplyMoves(db.deliveries, moves)), r))
  {
    var es := ApplyMoves(db.deliveries, moves);
    forall q | q in db.requests && q != r ensures Aggregate(StatusesOf(es, q)) == db.requests[q].status {
      MovesKeepKeys(db.deliveries, moves, q);
      AggregateUnmoved(db.deliveries, es, q);
    }
  }

  lemma OpenMovesAgree(db: DB, moves: map<Key, Move>)
    requires Agrees(db)
    requires forall k :: k in moves ==>
                           k in db.deliveries && !db.deliveries[k].status.IsTerminal()
                           && !MoveRow(db.deliveries[k], moves[k]).status.IsTerminal()
    ensures Agrees(db.(deliveries := ApplyMoves(db.deliveries, moves)))
  {
    var es := ApplyMoves(db.deliveries, moves);
    forall q | q in db.requests ensures Aggregate(StatusesOf(es, q)) == db.requests[q].status {
      MovesKeepKeys(db.deliveries, moves, q);
      AggregateUnmoved(db.deliveries, es, q);
    }
  }

  lemma InsertAgrees(db: DB, item: NewItem, batchId: Option<Id>, at: Time)
    requires Agrees(db) && HaveRequests(db) && FreshItem(db, item, at)
    ensures Agrees(Insert(db, item, batchId, at)) && HaveRequests(Insert(db, item, batchId, at))
  {
    var next := Insert(db, item, batchId, at);
    assert item.key !in db.deliveries;
    forall q | q in next.requests ensures next.requests[q].status == Aggregate(StatusesOf(next.deliveries, q)) {
      if q == item.requestId {
        assert item.key in KeysOf(next.deliveries, q);
        assert BuildDelivery(item).status in StatusesOf(next.deliveries, q);
      } else {
        assert KeysOf(next.deliveries, q) == KeysOf(db.deliveries, q);
        AggregateUnmoved(db.deliveries, next.deliveries, q);
      }
    }
  }

  lemma {:induction false} InsertAllAgrees(db: DB, items: seq<NewItem>, batchId: Id, at: Time)
    requires Agrees(db) && HaveRequests(db) && FreshItems(db, items, at)
    ensures Agrees(InsertAll(db, items, batchId, at))
    decreases |items|
  {
    if items != [] {
      InsertKeepsFresh(db, items, Some(batchId), at);
      if Conflicts(db.requests, items[0].userId, items[0].idemKey) {
        InsertAllAgrees(db, items[1..], batchId, at);
      } else {
        InsertAgrees(db, items[0], Some(batchId), at);
        InsertAllAgrees(Insert(db, items[0], Some(batchId), at), items[1..], batchId, at);
      }
    }
  }

  lemma StepKeepsAgreement(c: Config, s: State, a: Action)
    requires WellFormed(c, s) && Enabled(c, s, a) && Disciplined(s, a) && Agrees(s.db)
    ensures Agrees(NextDB(c, s, a))
  {
    if IsFinal(a) {
      FinalMovesAreLocal(c, s, a);
      RecomputeAgrees(s.db, Moves(c, s, a), FinalRequest(s, a));
    } else if a.Create? {
      InsertAgrees(s.db, a.item, None, s.now);
    } else if a.CreateMany? {
      var empty := s.db.(batches := s.db.batches[a.batchId := Batch(a.userId, a.idemKey, 0, 0, 0, 0, 0)]);
      InsertAllAgrees(empty, a.items, a.batchId, s.now);
    } else {
      OtherMovesStayOpen(c, s, a);
      OpenMovesAgree(s.db, Moves(c, s, a));
    }
  }

  /** In every state a disciplined run reaches, each request shows the aggregate of its deliveries, however many it has. */
  lemma {:induction false} RequestStatusAgrees(c: Config, s: State, acts: seq<Action>, t: State)
    requires c.policy.maxAttempts >= 1
    requires WellFormed(c, s) && Agrees(s.db) && Run(c, s, acts, t) && DisciplinedRun(c, s, acts)
    ensures Agrees(t.db)
    decreases |acts|
  {
    if acts != [] {
      StepKeepsAgreement(c, s, acts[0]);
      StepKeepsWellFormed(c, s, acts[0]);
      RequestStatusAgrees(c, Apply(c, s, acts[0]), acts[1..], t);
    }
  }

  /** Reopening one row of a request, without a recompute. */
  lemma ReopenAgreesIff(db: DB, k: Key, m: Move)
    requires Agrees(db) && k in db.deliveries && db.deliveries[k].requestId in db.requests
    requires !MoveRow(db.deliveries[k], m).status.IsTerminal()
    requires MoveRow(db.deliveries[k], m).requestId == db.deliveries[k].requestId
    ensures Agrees(db.(deliveries := ApplyMoves(db.deliveries, map[k := m]))) <==>
            exists j :: j in KeysOf(db.deliveries, db.deliveries[k].requestId) && !db.deliveries[j].status.IsTerminal()
  {
    hide MoveRow, StatusesOf, ApplyMoves, Aggregate;
    var ds, es, r := db.deliveries, ApplyMoves(db.deliveries, map[k := m]), db.deliveries[k].requestId;
    MovedRow(ds, k, m);
    OpenIsPending(es, r, k);
    if exists j :: j in KeysOf(ds, r) && !ds[j].status.IsTerminal() {
      var j :| j in KeysOf(ds, r) && !ds[j].status.IsTerminal();
      OpenIsPending(ds, r, j);
    } else {
      SettledIsNotPending(ds, r, k);
    }
    forall q | q in db.requests && q != r ensures Aggregate(StatusesOf(es, q)) == db.requests[q].status {
      MovesKeepKeys(ds, map[k := m], q);
      AggregateUnmoved(ds, es, q);
    }
  }

  lemma MovedRow(ds: Deliveries, k: Key, m: Move)
    requires k in ds
    ensures var es := ApplyMoves(ds, map[k := m]);
            es.Keys == ds.Keys && es[k] == MoveRow(ds[k], m) && forall j :: j in ds && j != k ==> es[j] == ds[j]
  {
  }

  /** An open delivery makes its request pending. */
  lemma OpenIsPending(ds: Deliveries, r: Id, k: Key)
    requires k in KeysOf(ds, r) && !ds[k].status.IsTerminal()
    ensures Aggregate(StatusesOf(ds, r)) == RequestPending
  {
    assert ds[k].status in StatusesOf(ds, r);
  }

  /** A request whose deliveries are all final is not pending. */
  lemma SettledIsNotPending(ds: Deliveries, r: Id, k: Key)
    requires k in KeysOf(ds, r) && forall j :: j in KeysOf(ds, r) ==> ds[j].status.IsTerminal()
    ensures Aggregate(StatusesOf(ds, r)) != RequestPending
  {
    assert forall st :: st in StatusesOf(ds, r) ==> st.IsTerminal();
    assert ds[k].status in StatusesOf(ds, r);
  }

  /** A retry mark, which never recomputes, keeps agreement exactly when the row it hits is not final or a sibling is open. */
  lemma RetryMarkAgreesIff(c: Config, s: State, a: Action)
    requires WellFormed(c, s) && Agrees(s.db) && Enabled(c, s, a) && (a.MarkRetrying? || a.RequeueDelivery?)
    ensures var ds, k := s.db.deliveries, s.workers[a.w].key;
            k in ds && (Agrees(NextDB(c, s, a)) <==>
                        !ds[k].status.IsTerminal() || exists j :: j in KeysOf(ds, ds[k].requestId) && !ds[j].status.IsTerminal())
  {
    hide Agrees, ApplyMoves, NextDB, Moves, FreshItem, Picked, SeenIds;
    var ds, k := s.db.deliveries, s.workers[a.w].key;
    MarkIsGuarded(c, s, a);
    RetryMarkReopens(c, s, a);
    assert k in KeysOf(ds, ds[k].requestId);
    ReopenAgreesIff(s.db, k, Moves(c, s, a)[k]);
  }

  lemma RetryMarkReopens(c: Config, s: State, a: Action)
    requires Enabled(c, s, a) && (a.MarkRetrying? || a.RequeueDelivery?) && s.workers[a.w].key in s.db.deliveries
    ensures var k := s.workers[a.w].key;
            && k in Moves(c, s, a) && Moves(c, s, a) == map[k := Moves(c, s, a)[k]]
            && MoveRow(s.db.deliveries[k], Moves(c, s, a)[k]).status.Retrying?
            && MoveRow(s.db.deliveries[k], Moves(c, s, a)[k]).requestId == s.db.deliveries[k].requestId
            && NextDB(c, s, a) == s.db.(deliveries := ApplyMoves(s.db.deliveries, Moves(c, s, a)))
  {
    hide ApplyMoves, SeenIds;
  }

  // ---- Counters ----

  function Members(requests: map<Id, Request>, b: Id, x: Bucket): set<Id>
  {
    set r | r in requests && requests[r].batchId == Some(b) && BucketOf(requests[r].status) == x
  }

  /** Every counter is the number of the batch's requests in that bucket, and total is their number. */
  ghost predicate CountersOf(requests: map<Id, Request>, b: Id, batch: Batch)
  {
    && (forall x :: Counter(batch, x) == |Members(requests, b, x)|)
    && batch.total == batch.pending + batch.sent + batch.failed + batch.cancelled
  }

  ghost predicate CountersExact(db: DB)
  {
    && (forall b :: b in db.batches ==> CountersOf(db.requests, b, db.batches[b]))
    && (forall r :: r in db.requests && db.requests[r].batchId.Some? ==> db.requests[r].batchId.value in db.batches)
  }

  /** The requests of a batch with one of the given statuses. */
  function InBatch(requests: map<Id, Request>, b: Id, statuses: set<RequestStatus>): set<Id>
  {
    set r | r in requests && requests[r].batchId == Some(b) && requests[r].status in statuses
  }

  /** The counter columns of a batch, each with the statuses it stands for. */
  predicate CountsRequests(requests: map<Id, Request>, b: Id, batch: Batch)
  {
    && batch.pending == |InBatch(requests, b, {RequestPending})|
    && batch.sent == |InBatch(requests, b, {RequestSent, RequestPartial})|
    && batch.failed == |InBatch(requests, b, {RequestFailed})|
    && batch.cancelled == |InBatch(requests, b, {RequestCancelled})|
    && batch.total == |set r | r in requests && requests[r].batchId == Some(b)|
  }

  ghost predicate AllCounted(db: DB)
  {
    forall b :: b in db.batches ==> CountsRequests(db.requests, b, db.batches[b])
  }

  lemma BucketsAreColumns(requests: map<Id, Request>, b: Id)
    ensures Members(requests, b, PendingCount) == InBatch(requests, b, {RequestPending})
    ensures Members(requests, b, SentCount) == InBatch(requests, b, {RequestSent, RequestPartial})
    ensures Members(requests, b, FailedCount) == InBatch(requests, b, {RequestFailed})
    ensures Members(requests, b, CancelledCount) == InBatch(requests, b, {RequestCancelled})
  {
  }

  /** Every request of a batch is in exactly one of the four counters. */
  lemma FourParts(requests: map<Id, Request>, b: Id)
    ensures |set r | r in requests && requests[r].batchId == Some(b)| ==
            |InBatch(requests, b, {RequestPending})| + |InBatch(requests, b, {RequestSent, RequestPartial})|
            + |InBatch(requests, b, {RequestFailed})| + |InBatch(requests, b, {RequestCancelled})|
  {
    var all := set r | r in requests && requests[r].batchId == Some(b);
    var p, s := InBatch(requests, b, {RequestPending}), InBatch(requests, b, {RequestSent, RequestPartial});
    var f, x := InBatch(requests, b, {RequestFailed}), InBatch(requests, b, {RequestCancelled});
    InOnePart(requests, b);
    Disjoint(p + s + f, x);
    Disjoint(p + s, f);
    Disjoint(p, s);
  }

  lemma InOnePart(requests: map<Id, Request>, b: Id)
    ensures (set r | r in requests && requests[r].batchId == Some(b)) ==
            InBatch(requests, b, {RequestPending}) + InBatch(requests, b, {RequestSent, RequestPartial})
            + InBatch(requests, b, {RequestFailed}) + InBatch(requests, b, {RequestCancelled})
  {
    forall r | r in requests && requests[r].batchId == Some(b)
      ensures requests[r].status in {RequestPending, RequestSent, RequestPartial, RequestFailed, RequestCancelled}
    {
      match requests[r].status
      case RequestPending =>
      case RequestSent =>
      case RequestPartial =>
      case RequestFailed =>
      case RequestCancelled =>
    }
  }

  lemma Disjoint(a: set<Id>, b: set<Id>)
    requires a !! b
    ensures |a + b| == |a| + |b|
  {
  }

  lemma ExactCountsRequests(db: DB)
    requires CountersExact(db)
    ensures AllCounted(db)
  {
    hide Members, InBatch;
    forall b | b in db.batches ensures CountsRequests(db.requests, b, db.batches[b]) {
      var x := db.batches[b];
      assert CountersOf(db.requests, b, x);
      BucketsAreColumns(db.requests, b);
      FourParts(db.requests, b);
      assert Counter(x, PendingCount) == x.pending && Counter(x, SentCount) == x.sent;
      assert Counter(x, FailedCount) == x.failed && Counter(x, CancelledCount) == x.cancelled;
    }
  }

  lemma MembersAfter(requests: map<Id, Request>, r: Id, status: RequestStatus, b: Id, z: Bucket)
    requires r in requests && requests[r].batchId == Some(b)
    ensures r in Members(requests, b, z) <==> z == BucketOf(requests[r].status)
    ensures Members(requests[r := requests[r].(status := status)], b, z) ==
            Members(requests, b, z) - {r} + (if z == BucketOf(status) then {r} else {})
  {
    hide BucketOf;
  }

  lemma ReplaceOne(members: set<Id>, r: Id, after: set<Id>, stays: bool)
    requires after == members - {r} + if stays then {r} else {}
    ensures |after| == |members| - (if r in members then 1 else 0) + (if stays then 1 else 0)
  {
  }

  lemma MemberMoves(requests: map<Id, Request>, r: Id, status: RequestStatus, b: Id, z: Bucket)
    requires r in requests && requests[r].batchId == Some(b)
    ensures r in Members(requests, b, BucketOf(requests[r].status))
    ensures |Members(requests[r := requests[r].(status := status)], b, z)| ==
            |Members(requests, b, z)| - (if z == BucketOf(requests[r].status) then 1 else 0) + (if z == BucketOf(status) then 1 else 0)
  {
    hide BucketOf, Members;
    MembersAfter(requests, r, status, b, z);
    MembersAfter(requests, r, status, b, BucketOf(requests[r].status));
    ReplaceOne(Members(requests, b, z), r, Members(requests[r := requests[r].(status := status)], b, z), z == BucketOf(status));
  }

  /** Moving one request between buckets moves one unit, and the clamp never fires. */
  lemma AdjustIsExact(requests: map<Id, Request>, r: Id, status: RequestStatus, b: Id, batch: Batch)
    requires r in requests && requests[r].batchId == Some(b) && CountersOf(requests, b, batch)
    ensures CountersOf(requests[r := requests[r].(status := status)], b, AdjustCounters(batch, requests[r].status, status))
    ensures Counter(batch, BucketOf(requests[r].status)) >= 1
  {
    var x := BucketOf(requests[r].status);
    forall z ensures Counter(AdjustCounters(batch, requests[r].status, status), z) ==
                     |Members(requests[r := requests[r].(status := status)], b, z)|
    {
      MemberMoves(requests, r, status, b, z);
      MemberMoves(requests, r, status, b, x);
      assert Members(requests, b, x) != {};
      assert Counter(batch, x) == |Members(requests, b, x)| && Counter(batch, z) == |Members(requests, b, z)|;
    }
    MemberMoves(requests, r, status, b, x);
    assert Members(requests, b, x) != {};
  }

  lemma OthersKeepCounters(requests: map<Id, Request>, r: Id, status: RequestStatus, b: Id, batch: Batch)
    requires r in requests && requests[r].batchId != Some(b) && CountersOf(requests, b, batch)
    ensures CountersOf(requests[r := requests[r].(status := status)], b, batch)
  {
    var next := requests[r := requests[r].(status := status)];
    forall z ensures Members(next, b, z) == Members(requests, b, z) {
    }
  }

  lemma RecomputeKeepsCounters(db: DB, r: Id)
    requires r in db.requests && CountersExact(db)
    ensures CountersExact(Recompute(db, r))
  {
    var status := Aggregate(StatusesOf(db.deliveries, r));
    var next := Recompute(db, r);
    if status != db.requests[r].status {
      forall b | b in next.batches ensures CountersOf(next.requests, b, next.batches[b]) {
        if db.requests[r].batchId == Some(b) {
          AdjustIsExact(db.requests, r, status, b, db.batches[b]);
        } else {
          OthersKeepCounters(db.requests, r, status, b, db.batches[b]);
        }
      }
    }
  }

  lemma InsertMembers(db: DB, item: NewItem, batchId: Option<Id>, at: Time, b: Id, x: Bucket)
    requires FreshItem(db, item, at)
    ensures Members(Insert(db, item, batchId, at).requests, b, x) ==
            Members(db.requests, b, x) + (if batchId == Some(b) && x == PendingCount then {item.requestId} else {})
    ensures item.requestId !in Members(db.requests, b, x)
  {
  }

  /** An insert loop adds its created items to the pending bucket of its own batch, and nothing else. */
  lemma {:induction false} InsertAllMembers(db: DB, items: seq<NewItem>, batchId: Id, at: Time, b: Id, x: Bucket)
    requires FreshItems(db, items, at)
    ensures |Members(InsertAll(db, items, batchId, at).requests, b, x)| ==
            |Members(db.requests, b, x)| + (if b == batchId && x == PendingCount then CountCreated(db, items, batchId, at) else 0)
    ensures InsertAll(db, items, batchId, at).batches == db.batches
    decreases |items|
  {
    if items != [] {
      InsertKeepsFresh(db, items, Some(batchId), at);
      if Conflicts(db.requests, items[0].userId, items[0].idemKey) {
        InsertAllMembers(db, items[1..], batchId, at, b, x);
      } else {
        InsertMembers(db, items[0], Some(batchId), at, b, x);
        InsertAllMembers(Insert(db, items[0], Some(batchId), at), items[1..], batchId, at, b, x);
      }
    }
  }

  lemma {:induction false} InsertAllBatchIds(db: DB, items: seq<NewItem>, batchId: Id, at: Time)
    requires FreshItems(db, items, at)
    ensures var q := InsertAll(db, items, batchId, at).requests;
            forall r :: r in q ==> if r in db.requests then q[r] == db.requests[r] else q[r].batchId == Some(batchId)
    decreases |items|
  {
    if items != [] {
      InsertKeepsFresh(db, items, Some(batchId), at);
      if Conflicts(db.requests, items[0].userId, items[0].idemKey) {
        InsertAllBatchIds(db, items[1..], batchId, at);
      } else {
        InsertAllBatchIds(Insert(db, items[0], Some(batchId), at), items[1..], batchId, at);
      }
    }
  }

  lemma CreateBatchKeepsCounters(db: DB, batchId: Id, userId: string, idemKey: Option<string>, items: seq<NewItem>, at: Time)
    requires CountersExact(db) && batchId !in db.batches && FreshItems(db, items, at)
    ensures CountersExact(CreateBatch(db, batchId, userId, idemKey, items, at))
  {
    var empty := db.(batches := db.batches[batchId := Batch(userId, idemKey, 0, 0, 0, 0, 0)]);
    var next := CreateBatch(db, batchId, userId, idemKey, items, at);
    InsertAllBatchIds(empty, items, batchId, at);
    InsertAllMembers(empty, items, batchId, at, batchId, PendingCount);
    forall b | b in next.batches ensures CountersOf(next.requests, b, next.batches[b]) {
      forall x ensures Counter(next.batches[b], x) == |Members(next.requests, b, x)| {
        InsertAllMembers(empty, items, batchId, at, b, x);
        if b == batchId {
          assert Members(db.requests, b, x) == {};
        } else {
          assert CountersOf(db.requests, b, db.batches[b]);
        }
      }
      if b != batchId {
        assert CountersOf(db.requests, b, db.batches[b]);
      }
    }
  }

  lemma CreateKeepsCounters(db: DB, item: NewItem, at: Time)
    requires CountersExact(db) && FreshItem(db, item, at)
    ensures CountersExact(Insert(db, item, None, at))
  {
    var next := Insert(db, item, None, at);
    forall b | b in next.batches ensures CountersOf(next.requests, b, next.batches[b]) {
      assert CountersOf(db.requests, b, db.batches[b]);
      forall x ensures Members(next.requests, b, x) == Members(db.requests, b, x) {
        InsertMembers(db, item, None, at, b, x);
      }
    }
  }

  lemma StepKeepsCounters(c: Config, s: State, a: Action)
    requires CountersExact(s.db) && Enabled(c, s, a)
    ensures CountersExact(NextDB(c, s, a))
  {
    var moved := s.db.(deliveries := ApplyMoves(s.db.deliveries, Moves(c, s, a)));
    assert CountersExact(moved);
    match a
    case Create(item) => CreateKeepsCounters(s.db, item, s.now);
    case CreateMany(batchId, userId, idemKey, items) => CreateBatchKeepsCounters(s.db, batchId, userId, idemKey, items, s.now);
    case CancelRequest(requestId, _, _) => RecomputeKeepsCounters(moved, requestId);
    case MarkFailed(w, _, _, _) => RecomputeKeepsCounters(moved, s.workers[w].requestId);
    case MarkSent(w, _) => RecomputeKeepsCounters(moved, s.workers[w].requestId);
    case _ =>
  }

  /** The O(1) counters equal the counts they stand for in every reachable state, with no timing assumption. */
  lemma {:induction false} BatchCountersAreExact(c: Config, s: State, acts: seq<Action>, t: State)
    requires CountersExact(s.db) && Run(c, s, acts, t)
    ensures CountersExact(t.db) && AllCounted(t.db)
    decreases |acts|
  {
    hide CountersExact, AllCounted, Enabled;
    if acts == [] {
      ExactCountsRequests(s.db);
    } else {
      StepKeepsCounters(c, s, acts[0]);
      ApplyParts(c, s, acts[0]);
      BatchCountersAreExact(c, Apply(c, s, acts[0]), acts[1..], t);
    }
  }
}
