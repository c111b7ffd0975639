/** The repository: its methods change the tables in place, one transaction each (internal/adapters/postgres). */
module Store {
  import opened Domain
  import opened Database
  import opened Lifecycle

  datatype StoreError = NotFound | Conflict | CancelNotAllowed | Failure

  class Store {
    var deliveries: Deliveries
    var requests: map<Id, Request>
    var batches: map<Id, Batch>
    var outbox: map<Id, OutboxRow>

    function Rows(): DB
      reads this
    {
      DB(deliveries, requests, batches, outbox)
    }

    constructor (db: DB)
      ensures Rows() == db
    {
      deliveries, requests, batches, outbox := db.deliveries, db.requests, db.batches, db.outbox;
    }

    method Rollback(saved: DB)
      modifies this
      ensures Rows() == saved
    {
      deliveries, requests, batches, outbox := saved.deliveries, saved.requests, saved.batches, saved.outbox;
    }

    // ---- delivery.go ----

    /** The guarded claim: an absent or unclaimable row leaves everything as it was. */
    method ClaimDelivery(key: Key, leaseUntil: Time, now: Time) returns (claimed: Option<Delivery>)
      modifies this
      ensures claimed.Some? <==> key in old(deliveries) && old(deliveries)[key].status.IsClaimable()
      ensures claimed.None? ==> Rows() == old(Rows())
      ensures claimed.Some? ==>
                && claimed.value == MoveRow(old(deliveries)[key], Claim(leaseUntil, now))
                && Rows() == old(Rows()).(deliveries := ApplyMoves(old(deliveries), map[key := Claim(leaseUntil, now)]))
      ensures claimed.Some? <==> key in old(deliveries) && old(deliveries)[key].status in {Pending, Retrying}
      ensures claimed.Some? ==>
                && claimed.value == old(deliveries)[key].(status := Processing, lockedUntil := Some(leaseUntil), updatedAt := now,
                                                          history := claimed.value.history)
                && deliveries == old(deliveries)[key := claimed.value]
    {
      if key !in deliveries || !deliveries[key].status.IsClaimable() {
        return None;
      }
      var d := deliveries[key];
      d := d.(status := Processing, lockedUntil := Some(leaseUntil), updatedAt := now,
              history := d.history.(claims := d.history.claims + 1));
      deliveries := deliveries[key := d];
      assert deliveries == ApplyMoves(old(deliveries), map[key := Claim(leaseUntil, now)]);
      return Some(d);
    }

    /** One unguarded UPDATE; no row with that key means no change. */
    method UpdateDelivery(key: Key, m: Move)
      modifies this`deliveries
      ensures deliveries == ApplyMoves(old(deliveries), map[key := m])
    {
      if key in deliveries {
        deliveries := deliveries[key := MoveRow(deliveries[key], m)];
      }
      assert deliveries == ApplyMoves(old(deliveries), map[key := m]);
    }

    method MarkSent(key: Key, requestId: Id, at: Time) returns (r: Result<(), StoreError>)
      modifies this
      ensures r.Ok? <==> requestId in old(requests)
      ensures r.Err? ==> Rows() == old(Rows())
      ensures r.Ok? ==> Rows() == Recompute(old(Rows()).(deliveries := ApplyMoves(old(deliveries), map[key := Send(at)])), requestId)
      ensures r.Ok? && key in old(deliveries) ==>
                && key in deliveries
                && deliveries == old(deliveries)[key := old(deliveries)[key].(status := Sent, lockedUntil := None, updatedAt := at,
                                                                              history := deliveries[key].history)]
    {
      var saved := Rows();
      UpdateDelivery(key, Send(at));
      r := RecomputeRequestStatus(requestId);
      if r.Err? {
        Rollback(saved);
      }
    }

    method MarkFailed(key: Key, requestId: Id, attempts: int, at: Time) returns (r: Result<(), StoreError>)
      modifies this
      ensures r.Ok? <==> requestId in old(requests)
      ensures r.Err? ==> Rows() == old(Rows())
      ensures r.Ok? ==>
                Rows() == Recompute(old(Rows()).(deliveries := ApplyMoves(old(deliveries), map[key := Fail(attempts, at)])), requestId)
      ensures r.Ok? && key in old(deliveries) ==>
                && key in deliveries
                && deliveries == old(deliveries)[key := old(deliveries)[key].(status := Failed, attempts := attempts, lockedUntil := None,
                                                                              updatedAt := at, history := deliveries[key].history)]
    {
      var saved := Rows();
      UpdateDelivery(key, Fail(attempts, at));
      r := RecomputeRequestStatus(requestId);
      if r.Err? {
        Rollback(saved);
      }
    }

    /** No status guard and no recompute; a counted retry and an attempt-free requeue differ in the history only. */
    method MarkRetrying(key: Key, m: Move)
      requires m.Retry? || m.Requeue?
      modifies this`deliveries
      ensures deliveries == ApplyMoves(old(deliveries), map[key := m])
      ensures key !in old(deliveries) ==> deliveries == old(deliveries)
      ensures key in old(deliveries) ==>
                && key in deliveries
                && deliveries == old(deliveries)[key := old(deliveries)[key].(status := Retrying, attempts := m.attempts,
                                                                              nextRetryAt := Some(m.next), lockedUntil := None,
                                                                              updatedAt := m.at, history := deliveries[key].history)]
    {
      UpdateDelivery(key, m);
    }

    /** The statuses of a request's deliveries, row by row. */
    method SelectStatuses(requestId: Id) returns (statuses: seq<DeliveryStatus>)
      ensures Elements(statuses) == StatusesOf(deliveries, requestId)
    {
      var rest := set k | k in deliveries && deliveries[k].requestId == requestId;
      statuses := [];
      while rest != {}
        invariant rest <= KeysOf(deliveries, requestId)
        invariant Elements(statuses) == (set k | k in KeysOf(deliveries, requestId) - rest :: deliveries[k].status)
        decreases |rest|
      {
        var k :| k in rest;
        ghost var seen := KeysOf(deliveries, requestId) - rest;
        rest := rest - {k};
        assert KeysOf(deliveries, requestId) - rest == seen + {k};
        assert Elements(statuses + [deliveries[k].status]) == Elements(statuses) + {deliveries[k].status};
        statuses := statuses + [deliveries[k].status];
      }
      assert KeysOf(deliveries, requestId) - rest == KeysOf(deliveries, requestId);
    }

    /** Collects the statuses, aggregates them and, on a change, updates the request and its batch. */
    method RecomputeRequestStatus(requestId: Id) returns (r: Result<(), StoreError>)
      modifies this`requests, this`batches
      ensures r.Ok? <==> requestId in old(requests)
      ensures r.Err? ==> Rows() == old(Rows())
      ensures r.Ok? ==> Rows() == Recompute(old(Rows()), requestId)
    {
      hide OneMoved, Aggregate, AdjustCounters, StatusesOf;
      if requestId !in requests {
        return Err(NotFound);
      }
      var was, batchId := requests[requestId].status, requests[requestId].batchId;
      var statuses := SelectStatuses(requestId);
      var status := AggregateRequestStatus(statuses);
      if status != was {
        requests := requests[requestId := requests[requestId].(status := status)];
        if batchId.Some? {
          AdjustBatchCounters(batchId.value, was, status);
        }
      }
      return Ok(());
    }

    method AdjustBatchCounters(batchId: Id, from: RequestStatus, to: RequestStatus)
      modifies this`batches
      ensures batches == AdjustBatch(old(batches), Some(batchId), from, to)
      ensures batchId !in old(batches) ==> batches == old(batches)
      ensures batchId in old(batches) ==>
                && batches.Keys == old(batches).Keys && (forall b :: b in batches && b != batchId ==> batches[b] == old(batches)[b])
                && var o, n := old(batches)[batchId], batches[batchId];
                   && n == o.(pending := n.pending, sent := n.sent, failed := n.failed, cancelled := n.cancelled)
                   && n.pending == OneMoved(o.pending, from.RequestPending?, to.RequestPending?)
                   && n.sent == OneMoved(o.sent, from in {RequestSent, RequestPartial}, to in {RequestSent, RequestPartial})
                   && n.failed == OneMoved(o.failed, from.RequestFailed?, to.RequestFailed?)
                   && n.cancelled == OneMoved(o.cancelled, from.RequestCancelled?, to.RequestCancelled?)
    {
      var x, y := BucketOf(from), BucketOf(to);
      if x == y || batchId !in batches {
        return;
      }
      var b := batches[batchId];
      var less := if Counter(b, x) - 1 > 0 then Counter(b, x) - 1 else 0;
      var more := Counter(b, y) + 1;
      batches := batches[batchId := SetCounter(SetCounter(b, x, less), y, more)];
    }

    // ---- request.go ----

    /** Whether the unique index holds the key already. */
    method HasKey(userId: string, idemKey: Option<string>) returns (taken: bool)
      ensures taken == Conflicts(requests, userId, idemKey)
    {
      if idemKey.None? {
        return false;
      }
      return exists r :: r in requests && requests[r].userId == userId && requests[r].idemKey == idemKey;
    }

    method InsertItem(item: NewItem, batchId: Option<Id>, at: Time)
      modifies this
      ensures Rows() == Insert(old(Rows()), item, batchId, at)
    {
      requests := requests[item.requestId := BuildRequest(item, batchId)];
      deliveries := deliveries[item.key := BuildDelivery(item)];
      if !item.IsScheduled() {
        outbox := outbox[item.outboxId := OutboxFor(item.key, BuildDelivery(item), at)];
      }
    }

    /** Request, delivery and, for an immediate send, outbox row: all or nothing. */
    method CreateNotification(item: NewItem, at: Time) returns (r: Result<(), StoreError>)
      modifies this
      ensures r.Err? <==> Conflicts(old(requests), item.userId, item.idemKey)
      ensures r.Err? ==> r.error == Conflict && Rows() == old(Rows())
      ensures r.Ok? ==> Rows() == Insert(old(Rows()), item, None, at) && HasRows(Rows(), item, None, at)
      ensures r.Ok? ==>
                && (forall q :: q in old(requests) && q != item.requestId ==> q in requests && requests[q] == old(requests)[q])
                && (forall k :: k in old(deliveries) && k != item.key ==> k in deliveries && deliveries[k] == old(deliveries)[k])
                && (forall o :: o in old(outbox) && o != item.outboxId ==> o in outbox && outbox[o] == old(outbox)[o])
    {
      var taken := HasKey(item.userId, item.idemKey);
      if taken {
        return Err(Conflict);
      }
      InsertItem(item, None, at);
      return Ok(());
    }

    /** Cancels what is still cancellable, or nothing at all. */
    method CancelRequest(id: Id, at: Time) returns (r: Result<Request, StoreError>)
      modifies this
      ensures r == Err(NotFound) <==> id !in old(requests)
      ensures r == Err(CancelNotAllowed) <==> id in old(requests) && Cancellable(old(deliveries), id) == {}
      ensures r.Err? ==> (r.error == NotFound || r.error == CancelNotAllowed) && Rows() == old(Rows())
      ensures r.Ok? ==>
                && Rows() == Recompute(old(Rows()).(deliveries := ApplyMoves(old(deliveries),
                                         (map k | k in Cancellable(old(deliveries), id) :: Cancel(at)))), id)
                && id in requests && r.value == requests[id]
      ensures r == Err(CancelNotAllowed) <==>
              id in old(requests) && forall k :: k in old(deliveries) && old(deliveries)[k].requestId == id ==>
                                                   old(deliveries)[k].status in {Processing, Sent, Failed, Cancelled}
      ensures r.Ok? ==>
                && deliveries.Keys == old(deliveries).Keys
                && forall k :: k in deliveries ==>
                                 deliveries[k] ==
                                 if old(deliveries)[k].requestId == id && old(deliveries)[k].status in {Scheduled, Pending, Retrying}
                                 then old(deliveries)[k].(status := Cancelled, updatedAt := at) else old(deliveries)[k]
    {
      hide Aggregate, StatusesOf, AdjustBatch, Cancellable, ApplyMoves;
      CancelInColumns(deliveries, id, at);
      if id !in requests {
        return Err(NotFound);
      }
      var open := Cancellable(deliveries, id);
      if open == {} {
        return Err(CancelNotAllowed);
      }
      deliveries := map k | k in deliveries :: if k in open then deliveries[k].(status := Cancelled, updatedAt := at) else deliveries[k];
      var done := RecomputeRequestStatus(id);
      return Ok(requests[id]);
    }

    // ---- batch.go ----

    /**
     * Inserts the batch and every item whose key is not taken, then sets the counts. `failAt` is the item at which the
     * database fails, if any; a failure leaves nothing behind.
     */
    method CreateBatch(batchId: Id, userId: string, idemKey: Option<string>, items: seq<NewItem>, at: Time, failAt: Option<nat>)
      returns (r: Result<(nat, nat), StoreError>)
      requires batchId !in batches
      modifies this
      ensures r.Err? ==> Rows() == old(Rows())
      ensures r.Err? ==> r.error == if BatchConflicts(old(batches), userId, idemKey) then Conflict else Failure
      ensures r.Ok? <==> !BatchConflicts(old(batches), userId, idemKey) && (failAt.Some? ==> failAt.value >= |items|)
      ensures r.Ok? ==>
                && Rows() == Database.CreateBatch(old(Rows()), batchId, userId, idemKey, items, at)
                && r.value.0 == batches[batchId].total && r.value.0 + r.value.1 == |items|
      ensures r.Ok? ==>
                batches == old(batches)[batchId := Batch(userId := userId, idemKey := idemKey, total := r.value.0, pending := r.value.0,
                                                         sent := 0, failed := 0, cancelled := 0)]
    {
      hide BuildDelivery, BuildRequest, OutboxFor, Conflicts;
      if idemKey.Some? && exists b :: b in batches && batches[b].userId == userId && batches[b].idemKey == idemKey {
        return Err(Conflict);
      }
      var saved := Rows();
      batches := batches[batchId := Batch(userId, idemKey, 0, 0, 0, 0, 0)];
      ghost var empty := Rows();
      var created, i := 0, 0;
      while i < |items|
        invariant 0 <= created <= i <= |items| && batches == empty.batches
        invariant failAt.Some? ==> i <= failAt.value || failAt.value >= |items|
        invariant InsertAll(empty, items, batchId, at) == InsertAll(Rows(), items[i..], batchId, at)
        invariant CountCreated(empty, items, batchId, at) == created + CountCreated(Rows(), items[i..], batchId, at)
      {
        if failAt == Some(i) {
          Rollback(saved);
          return Err(Failure);
        }
        assert items[i..][1..] == items[i + 1..];
        var taken := HasKey(items[i].userId, items[i].idemKey);
        if !taken {
          created := created + 1;
          InsertItem(items[i], Some(batchId), at);
        }
        i := i + 1;
      }
      batches := batches[batchId := Batch(userId, idemKey, created, created, 0, 0, 0)];
      return Ok((created, |items| - created));
    }

    // ---- scheduler.go ----

    /** ORDER BY .. LIMIT, one lowest candidate at a time. */
    method TakeLowest<K(!new, ==)>(candidates: set<K>, rank: map<K, Time>, limit: int) returns (chosen: seq<K>)
      requires candidates <= rank.Keys && limit >= 0
      ensures Picked(candidates, rank, limit, chosen)
      ensures forall i, j :: 0 <= i < j < |chosen| ==> rank[chosen[i]] <= rank[chosen[j]]
    {
      chosen := [];
      var rest := candidates;
      while rest != {} && |chosen| < limit
        invariant rest <= candidates && |chosen| <= limit
        invariant forall c :: c in chosen <==> c in candidates - rest
        invariant Distinct(chosen) && forall i :: 0 <= i < |chosen| ==> chosen[i] in candidates
        invariant forall i, j :: 0 <= i < j < |chosen| ==> rank[chosen[i]] <= rank[chosen[j]]
        invariant forall c, k :: c in chosen && k in rest ==> rank[c] <= rank[k]
        decreases |rest|
      {
        ghost var _ := Lowest(rest, rank);
        var m :| m in rest && forall k :: k in rest ==> rank[m] <= rank[k];
        chosen := chosen + [m];
        rest := rest - {m};
      }
      assert forall i :: 0 <= i < |chosen| ==> chosen[i] in chosen;
    }

    /**
     * Picks the due rows of a job, updates them and writes their outbox rows, with the given fresh identifiers. The database
     * rejects a negative limit.
     */
    method TransitionAndEnqueue(job: Job, limit: int, now: Time, after: Duration, uuids: seq<Id>)
      returns (r: Result<nat, StoreError>, ghost chosen: seq<Key>)
      requires FreshIds(Rows(), uuids) && |Due(Rows(), job, now, after)| <= |uuids|
      modifies this`deliveries, this`outbox
      ensures r.Err? <==> limit < 0
      ensures r.Err? ==> chosen == [] && Rows() == old(Rows())
      ensures r.Ok? ==> Picked(Due(old(Rows()), job, now, after), Ranks(old(deliveries), job), limit, chosen)
      ensures r.Ok? ==> r.value == |chosen| <= |uuids|
      ensures r.Ok? ==> Rows() == RunJob(old(Rows()), job, chosen, uuids[..r.value], now)
      ensures r.Ok? ==> JobWrites(old(Rows()), Rows(), job, chosen, uuids[..r.value], now)
    {
      hide Due, IsDue, Ranks, ApplyMoves, JobMoves, OutboxFor, JobWrites;
      ghost var db := Rows();
      if limit < 0 {
        return Err(Failure), [];
      }
      DueIsStored(Rows(), job, now, after);
      var due := TakeLowest(Due(Rows(), job, now, after), Ranks(deliveries, job), limit);
      FitsIn(due, Due(Rows(), job, now, after));
      chosen := due;
      var ds := deliveries;
      deliveries := ApplyMoves(ds, JobMoves(job, due, now));
      var i := 0;
      while i < |due|
        invariant 0 <= i <= |due| && |due| <= |uuids|
        invariant Enqueue(old(outbox), ds, due, uuids[..|due|], now) == Enqueue(outbox, ds, due[i..], uuids[i..|due|], now)
        modifies this`outbox
      {
        assert due[i..][1..] == due[i + 1..] && uuids[i..|due|][1..] == uuids[i + 1..|due|];
        outbox := outbox[uuids[i] := OutboxFor(due[i], ds[due[i]], now)];
        i := i + 1;
      }
      BatchInColumns(db, job, due, uuids, limit, now, after);
      return Ok(|due|), due;
    }

    method ReapStuck(now: Time) returns (n: nat)
      modifies this`deliveries
      ensures deliveries == ApplyMoves(old(deliveries), ReapMoves(old(deliveries), now))
      ensures n == |ReapMoves(old(deliveries), now)|
      ensures deliveries.Keys == old(deliveries).Keys
      ensures forall k :: k in deliveries ==>
                            var d, e := old(deliveries)[k], deliveries[k];
                            if d.status == Processing && d.lockedUntil.Some? && d.lockedUntil.value < now then
                              e == d.(status := Retrying, nextRetryAt := Some(now), lockedUntil := None, updatedAt := now, history := e.history)
                            else e == d
      ensures n == |set k | k in old(deliveries) && old(deliveries)[k].status == Processing
                            && old(deliveries)[k].lockedUntil.Some? && old(deliveries)[k].lockedUntil.value < now|
    {
      n := |set k | k in deliveries && IsExpired(deliveries[k], now)|;
      assert ReapMoves(deliveries, now).Keys == set k | k in deliveries && IsExpired(deliveries[k], now);
      assert ReapMoves(deliveries, now).Keys ==
             set k | k in deliveries && deliveries[k].status == Processing
                     && deliveries[k].lockedUntil.Some? && deliveries[k].lockedUntil.value < now;
      deliveries := map k | k in deliveries ::
        if IsExpired(deliveries[k], now) then MoveRow(deliveries[k], Reap(now)) else deliveries[k];
    }

    // ---- outbox.go ----

    /** The oldest open rows, with their own stream and message; the database rejects a negative limit. */
    method FetchUnpublishedOutbox(limit: int) returns (r: Result<seq<Entry>, StoreError>)
      ensures r.Err? <==> limit < 0
      ensures r.Ok? ==> Picked(OpenRows(outbox), CreationTimes(outbox), limit, EntryIds(r.value))
      ensures r.Ok? ==> r.value == EntriesFor(outbox, EntryIds(r.value))
      ensures r.Ok? ==> forall i :: 0 <= i < |r.value| ==>
                                      var e := r.value[i];
                                      && e.id in outbox && outbox[e.id].publishedAt.None?
                                      && e.stream == outbox[e.id].stream && e.message == outbox[e.id].message
      ensures r.Ok? ==> forall i, j :: 0 <= i < j < |r.value| ==> outbox[r.value[i].id].createdAt <= outbox[r.value[j].id].createdAt
    {
      if limit < 0 {
        return Err(Failure);
      }
      var ids := TakeLowest(OpenRows(outbox), CreationTimes(outbox), limit);
      var entries := EntriesFor(outbox, ids);
      assert EntryIds(entries) == ids;
      return Ok(entries);
    }

    method MarkOutboxPublished(ids: seq<Id>, now: Time)
      modifies this`outbox
      ensures outbox == MarkPublished(old(outbox), Elements(ids), now)
      ensures outbox.Keys == old(outbox).Keys
      ensures forall o :: o in outbox ==>
                            outbox[o] == if o in ids then old(outbox)[o].(publishedAt := Some(now)) else old(outbox)[o]
    {
      if |ids| == 0 {
        assert outbox == MarkPublished(outbox, Elements(ids), now);
        return;
      }
      outbox := map o | o in outbox :: if o in ids then outbox[o].(publishedAt := Some(now)) else outbox[o];
    }
  }

  lemma BatchInColumns(db: DB, job: Job, chosen: seq<Key>, uuids: seq<Id>, limit: int, now: Time, after: Duration)
    requires FreshIds(db, uuids) && |chosen| <= |uuids|
    requires Due(db, job, now, after) <= Ranks(db.deliveries, job).Keys
    requires Picked(Due(db, job, now, after), Ranks(db.deliveries, job), limit, chosen)
    ensures forall i :: 0 <= i < |chosen| ==> chosen[i] in db.deliveries
    ensures JobWrites(db, RunJob(db, job, chosen, uuids[..|chosen|], now), job, chosen, uuids[..|chosen|], now)
  {
    hide JobWrites, RunJob, Ranks;
    JobInColumns(db, job, chosen, uuids[..|chosen|], now);
  }

  /** A counter after one unit left it, or joined it; it never goes below zero. */
  function OneMoved(count: int, leaves: bool, joins: bool): int
  {
    if leaves == joins then count else if joins then count + 1 else if count > 0 then count - 1 else 0
  }

  function EntryIds(entries: seq<Entry>): seq<Id>
  {
    seq(|entries|, i requires 0 <= i < |entries| => entries[i].id)
  }

  /** Distinct elements of a set are no more than its size. */
  lemma {:induction false} FitsIn<K>(chosen: seq<K>, candidates: set<K>)
    requires forall i :: 0 <= i < |chosen| ==> chosen[i] in candidates
    requires forall i, j :: 0 <= i < j < |chosen| ==> chosen[i] != chosen[j]
    ensures |chosen| <= |candidates|
  {
    if chosen != [] {
      FitsIn(chosen[1..], candidates - {chosen[0]});
    }
  }
}
