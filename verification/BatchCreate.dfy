/** Which items of a batch are created (internal/adapters/postgres/batch.go). */
module BatchCreate {
  import opened Domain
  import opened Database
  import opened Lifecycle
  import opened Integrity

  predicate SameItemKey(a: NewItem, b: NewItem)
  {
    a.idemKey.Some? && a.userId == b.userId && a.idemKey == b.idemKey
  }

  /** The items to create: those without a key, and the first one of each key that is not stored yet. */
  ghost predicate IsKept(requests: map<Id, Request>, items: seq<NewItem>, i: nat)
    requires i < |items|
  {
    items[i].idemKey.None?
    || (!Conflicts(requests, items[i].userId, items[i].idemKey) && forall j :: 0 <= j < i ==> !SameItemKey(items[i], items[j]))
  }

  ghost function Kept(requests: map<Id, Request>, items: seq<NewItem>): set<nat>
  {
    set i | 0 <= i < |items| && IsKept(requests, items, i)
  }

  lemma ConflictsAfterInsert(db: DB, item: NewItem, batchId: Id, at: Time, userId: string, idemKey: Option<string>)
    requires FreshItem(db, item, at)
    ensures Conflicts(Insert(db, item, Some(batchId), at).requests, userId, idemKey) <==>
            Conflicts(db.requests, userId, idemKey) || (idemKey.Some? && item.userId == userId && item.idemKey == idemKey)
  {
    var next := Insert(db, item, Some(batchId), at).requests;
    assert item.requestId in next && next[item.requestId] == BuildRequest(item, Some(batchId));
    assert forall r :: r in db.requests ==> r in next && next[r] == db.requests[r];
  }

  /** Peeling off the first item does not change what happens to the others. */
  lemma KeptAfterFirst(db: DB, items: seq<NewItem>, batchId: Id, at: Time, i: nat)
    requires 0 < i < |items| && FreshItems(db, items, at)
    ensures var next := if Conflicts(db.requests, items[0].userId, items[0].idemKey) then db else Insert(db, items[0], Some(batchId), at);
            IsKept(next.requests, items[1..], i - 1) <==> IsKept(db.requests, items, i)
  {
    ConflictsAfterInsert(db, items[0], batchId, at, items[i].userId, items[i].idemKey);
    assert forall j :: 0 <= j < i - 1 ==> items[1..][j] == items[j + 1];
    assert forall j :: 0 < j < i ==> items[j] == items[1..][j - 1];
  }

  /**
   * One create adds one request and one delivery, and changes no other row. A send time in the future parks the delivery
   * without an outbox row; otherwise it is pending with one open outbox row that names it exactly.
   */
  lemma CreateStoresOneOfEach(db: DB, item: NewItem, batchId: Option<Id>, at: Time)
    requires FreshItem(db, item, at) && HaveRequests(db)
    ensures var t := Insert(db, item, batchId, at);
            && t.requests.Keys == db.requests.Keys + {item.requestId} && t.deliveries.Keys == db.deliveries.Keys + {item.key}
            && t.batches == db.batches
            && (forall r :: r in db.requests ==> t.requests[r] == db.requests[r])
            && (forall k :: k in db.deliveries ==> t.deliveries[k] == db.deliveries[k])
            && (forall o :: o in db.outbox ==> o in t.outbox && t.outbox[o] == db.outbox[o])
            && HasRows(t, item, batchId, at)
            && t.requests[item.requestId].status == Aggregate(StatusesOf(t.deliveries, item.requestId))
            && (if item.sendAt.Some? && item.sendAt.value > item.key.createdAt then t.outbox == db.outbox
                else t.outbox.Keys == db.outbox.Keys + {item.outboxId})
  {
    var t := Insert(db, item, batchId, at);
    assert item.key !in db.deliveries;
    assert KeysOf(t.deliveries, item.requestId) == {item.key};
    assert StatusesOf(t.deliveries, item.requestId) == {t.deliveries[item.key].status};
  }

  /** Kept items get their rows, with an outbox row only for an immediate send. */
  ghost predicate IsStored(db: DB, item: NewItem, batchId: Id, at: Time)
  {
    && HasRows(db, item, Some(batchId), at)
    && (item.outboxId in db.outbox <==> !(item.sendAt.Some? && item.sendAt.value > item.key.createdAt))
  }

  /** An insert loop touches no identifier that is foreign to its items. */
  lemma {:induction false} InsertAllLeavesForeign(db: DB, items: seq<NewItem>, batchId: Id, at: Time, other: NewItem)
    requires FreshItems(db, items, at)
    requires forall i :: 0 <= i < |items| ==>
                           items[i].requestId != other.requestId && items[i].outboxId != other.outboxId && items[i].key != other.key
    ensures var es := InsertAll(db, items, batchId, at);
            && (other.requestId in es.requests <==> other.requestId in db.requests)
            && (other.requestId in db.requests ==> es.requests[other.requestId] == db.requests[other.requestId])
            && (other.key in es.deliveries <==> other.key in db.deliveries)
            && (other.key in db.deliveries ==> es.deliveries[other.key] == db.deliveries[other.key])
            && (other.outboxId in es.outbox <==> other.outboxId in db.outbox)
            && (other.outboxId in db.outbox ==> es.outbox[other.outboxId] == db.outbox[other.outboxId])
    decreases |items|
  {
    if items != [] {
      InsertKeepsFresh(db, items, Some(batchId), at);
      if Conflicts(db.requests, items[0].userId, items[0].idemKey) {
        InsertAllLeavesForeign(db, items[1..], batchId, at, other);
      } else {
        InsertAllLeavesForeign(Insert(db, items[0], Some(batchId), at), items[1..], batchId, at, other);
      }
    }
  }

  /** Exactly the kept items are stored, with request, delivery and outbox row; a skipped item leaves no row at all. */
  lemma {:induction false} BatchDeduplicatesExactly(db: DB, items: seq<NewItem>, batchId: Id, at: Time, i: nat)
    requires FreshItems(db, items, at) && i < |items|
    ensures var es := InsertAll(db, items, batchId, at);
            if IsKept(db.requests, items, i) then IsStored(es, items[i], batchId, at)
            else items[i].requestId !in es.requests && items[i].key !in es.deliveries && items[i].outboxId !in es.outbox
    decreases |items|
  {
    InsertKeepsFresh(db, items, Some(batchId), at);
    var next := if Conflicts(db.requests, items[0].userId, items[0].idemKey) then db else Insert(db, items[0], Some(batchId), at);
    if i == 0 {
      InsertAllLeavesForeign(next, items[1..], batchId, at, items[0]);
    } else {
      KeptAfterFirst(db, items, batchId, at, i);
      BatchDeduplicatesExactly(next, items[1..], batchId, at, i - 1);
    }
  }

  /** The created count is the number of kept items, so created and duplicate counts add up to the batch. */
  lemma {:induction false} CreatedIsKept(db: DB, items: seq<NewItem>, batchId: Id, at: Time)
    requires FreshItems(db, items, at)
    ensures CountCreated(db, items, batchId, at) == |Kept(db.requests, items)| <= |items|
    decreases |items|
  {
    if items != [] {
      InsertKeepsFresh(db, items, Some(batchId), at);
      var next := if Conflicts(db.requests, items[0].userId, items[0].idemKey) then db else Insert(db, items[0], Some(batchId), at);
      CreatedIsKept(next, items[1..], batchId, at);
      var rest, all := Kept(next.requests, items[1..]), Kept(db.requests, items);
      forall i | 0 < i < |items| ensures i - 1 in rest <==> i in all {
        KeptAfterFirst(db, items, batchId, at, i);
      }
      hide Kept;
      OneMore(rest, all);
    } else {
      assert Kept(db.requests, items) == {};
    }
  }

  function Shifted(rest: set<nat>): set<nat>
  {
    set i | i in rest :: i + 1
  }

  /** Shifting a set of indices by one keeps its size. */
  lemma {:induction false} ShiftKeepsSize(rest: set<nat>)
    ensures |Shifted(rest)| == |rest|
    decreases |rest|
  {
    if rest != {} {
      var x :| x in rest;
      ShiftKeepsSize(rest - {x});
      ShiftAdds(rest - {x}, x);
      assert rest == rest - {x} + {x};
    }
  }

  lemma OneMore(rest: set<nat>, all: set<nat>)
    requires forall i :: 0 < i ==> (i - 1 in rest <==> i in all)
    ensures |all| == |rest| + if 0 in all then 1 else 0
  {
    ShiftKeepsSize(rest);
    forall i ensures i in all - {0} <==> i in Shifted(rest) {
      assert i > 0 ==> (i - 1 in rest ==> i in Shifted(rest));
    }
    assert all - {0} == Shifted(rest);
    assert 0 in all ==> all == all - {0} + {0};
  }

  lemma ShiftAdds(rest: set<nat>, x: nat)
    ensures Shifted(rest + {x}) == Shifted(rest) + {x + 1}
    ensures x !in rest ==> x + 1 !in Shifted(rest)
  {
    forall i ensures i in Shifted(rest + {x}) <==> i in Shifted(rest) + {x + 1} {
      assert i - 1 >= 0 ==> (i in Shifted(rest) <==> i - 1 in rest);
    }
  }
}
