/** The protocol's steps column by column, and what they keep: sends wait for their time, and routing is as asked. */
module Columns {
  import opened Domain
  import opened Database
  import opened Lifecycle
  import opened Integrity
  import opened Leases
  import opened Relays
  import opened Waiting
  import opened Backoff
  import R = Retry

  // ---- What a step writes ----

  /** Every column a step writes to a stored row, as its statement has it; the history only counts. */
  ghost predicate Writes(c: Config, s: State, a: Action, k: Key, d: Delivery, e: Delivery)
    requires Enabled(c, s, a)
  {
    match a
    case CancelRequest(r, spared, at) =>
      e == if d.requestId == r && d.status in {Scheduled, Pending, Retrying} && k !in spared then d.(status := Cancelled, updatedAt := at) else d
    case ClaimMessage(w, start) => e == Claimed(c, s.now, d, s.workers[w].msg.key == k, start, e.history)
    case ClaimLost(w, start) => e == Claimed(c, s.now, d, s.workers[w].msg.key == k, start, e.history)
    case RequeueDelivery(w) =>
      e == if s.workers[w].key == k then
             d.(status := Retrying, attempts := s.workers[w].attempts, nextRetryAt := Some(s.now + c.rateWaitStep),
                lockedUntil := None, updatedAt := s.now, history := e.history)
           else d
    case MarkRetrying(w, perr, u) =>
      e == if s.workers[w].key == k then
             d.(status := Retrying, attempts := s.workers[w].attempts + 1,
                nextRetryAt := Some(s.now + WaitFor(c, s.workers[w].attempts + 1, perr, u)),
                lockedUntil := None, updatedAt := s.now, history := e.history)
           else d
    case MarkFailed(w, perr, u, at) =>
      e == if s.workers[w].key == k then
             d.(status := Failed, attempts := s.workers[w].attempts + 1, lockedUntil := None, updatedAt := at, history := e.history)
           else d
    case MarkSent(w, at) =>
      e == if s.workers[w].key == k then d.(status := Sent, lockedUntil := None, updatedAt := at, history := e.history) else d
    case RunDue(job, chosen, _, _) =>
      e == if k in chosen && job != ReconcileJob then d.(status := Pending, updatedAt := s.now) else d
    case ReapStuck =>
      e == if d.status == Processing && d.lockedUntil.Some? && d.lockedUntil.value < s.now then
             d.(status := Retrying, nextRetryAt := Some(s.now), lockedUntil := None, updatedAt := s.now, history := e.history)
           else d
    case _ => e == d
  }

  function Claimed(c: Config, now: Time, d: Delivery, isIts: bool, start: Time, h: History): Delivery
  {
    if isIts && d.status in {Pending, Retrying}
    then d.(status := Processing, lockedUntil := Some(start + c.leaseTTL), updatedAt := now, history := h) else d
  }

  /** A positive Retry-After as given, else the schedule. */
  function WaitFor(c: Config, attempt: int, perr: Option<R.ProviderError>, u: R.Draw): Duration
    requires attempt >= 1
  {
    if perr.Some? && perr.value.retryAfter.Some? && perr.value.retryAfter.value > 0 then perr.value.retryAfter.value
    else R.BackoffFor(c.policy, attempt, u)
  }

  function Target(c: Config, s: State, a: Action, k: Key, d: Delivery): Delivery
    requires Enabled(c, s, a)
  {
    if k in Moves(c, s, a) then MoveRow(d, Moves(c, s, a)[k]) else d
  }

  lemma MarkInColumns(c: Config, s: State, a: Action, k: Key)
    requires Enabled(c, s, a) && k in s.db.deliveries && (a.RequeueDelivery? || a.MarkRetrying? || a.MarkFailed? || a.MarkSent?)
    ensures Writes(c, s, a, k, s.db.deliveries[k], Target(c, s, a, k, s.db.deliveries[k]))
  {
    hide SeenIds, Picked, FreshItem, R.BackoffFor;
  }

  lemma ClaimInColumns(c: Config, s: State, a: Action, k: Key)
    requires Enabled(c, s, a) && k in s.db.deliveries && (a.ClaimMessage? || a.ClaimLost?)
    ensures Writes(c, s, a, k, s.db.deliveries[k], Target(c, s, a, k, s.db.deliveries[k]))
  {
    hide SeenIds, Picked, FreshItem, FailureOf;
  }

  lemma OtherInColumns(c: Config, s: State, a: Action, k: Key)
    requires Enabled(c, s, a) && k in s.db.deliveries && !a.ClaimMessage? && !a.ClaimLost?
    requires !(a.RequeueDelivery? || a.MarkRetrying? || a.MarkFailed? || a.MarkSent?)
    ensures Writes(c, s, a, k, s.db.deliveries[k], Target(c, s, a, k, s.db.deliveries[k]))
  {
    hide SeenIds, Picked, FreshItem, FailureOf;
  }

  lemma StepInColumns(c: Config, s: State, a: Action, k: Key)
    requires Enabled(c, s, a) && k in s.db.deliveries
    ensures k in Apply(c, s, a).db.deliveries
    ensures Writes(c, s, a, k, s.db.deliveries[k], Apply(c, s, a).db.deliveries[k])
  {
    hide Enabled, Apply, Writes, Moves, MoveRow;
    StepRow(c, s, a, k);
    if a.RequeueDelivery? || a.MarkRetrying? || a.MarkFailed? || a.MarkSent? {
      MarkInColumns(c, s, a, k);
    } else if a.ClaimMessage? || a.ClaimLost? {
      ClaimInColumns(c, s, a, k);
    } else {
      OtherInColumns(c, s, a, k);
    }
  }

  /** The rows a job step chooses, by the columns of their WHERE clause. */
  lemma ChoiceInColumns(c: Config, s: State, a: Action, k: Key)
    requires Enabled(c, s, a) && a.RunDue? && k in a.chosen
    ensures k in s.db.deliveries
    ensures var d := s.db.deliveries[k];
            match a.job
            case PromoteJob => d.status == Scheduled && d.sendAt.Some? && d.sendAt.value <= s.now
            case SweepJob => d.status == Retrying && d.nextRetryAt.Some? && d.nextRetryAt.value <= s.now
            case ReconcileJob =>
              && d.status == Pending && d.updatedAt < s.now - c.reconcileAfter
              && forall o :: o in s.db.outbox && s.db.outbox[o].key.id == k.id ==> s.db.outbox[o].publishedAt.Some?
  {
    hide Enabled, Due;
    RunDueIsDue(c, s, a);
    var i :| 0 <= i < |a.chosen| && a.chosen[i] == k;
    DueInColumns(s.db, s.now, c.reconcileAfter);
    match a.job
    case PromoteJob => assert k in Due(s.db, PromoteJob, s.now, c.reconcileAfter);
    case SweepJob => assert k in Due(s.db, SweepJob, s.now, c.reconcileAfter);
    case ReconcileJob => assert k in Due(s.db, ReconcileJob, s.now, c.reconcileAfter);
  }

  /** A released row is due for the sweep at the very instant of its release. */
  lemma ReapedIsDue(c: Config, s: State, k: Key)
    requires k in s.db.deliveries && s.db.deliveries[k].status == Processing
    requires s.db.deliveries[k].lockedUntil.Some? && s.db.deliveries[k].lockedUntil.value < s.now
    ensures Enabled(c, s, ReapStuck) && Apply(c, s, ReapStuck).now == s.now
    ensures k in Due(Apply(c, s, ReapStuck).db, SweepJob, s.now, c.reconcileAfter)
    ensures k in Apply(c, s, ReapStuck).db.deliveries
    ensures Apply(c, s, ReapStuck).db.deliveries[k].attempts == s.db.deliveries[k].attempts
  {
    hide Apply;
    StepInColumns(c, s, ReapStuck, k);
    ApplyNow(c, s, ReapStuck);
  }

  lemma ApplyNow(c: Config, s: State, a: Action)
    requires Enabled(c, s, a)
    ensures Apply(c, s, a).now == if a.Tick? then a.to else s.now
  {
    hide NextDB, NextWorkers, NextRelays, NextStreams;
  }

  /** What each step does to a stream: a read takes its head, a publish appends its entry, a loss empties it. */
  lemma QueueInColumns(c: Config, s: State, a: Action, st: Stream)
    requires Enabled(c, s, a)
    ensures var q, r := QueueOf(s, st), QueueOf(Apply(c, s, a), st);
            match a
            case Read(_, x) => if x == st then q != [] && r == q[1..] else r == q
            case Publish(p) =>
              var e := s.relays[p].entries[s.relays[p].next];
              r == if e.stream == st then q + [e.message] else q
            case LoseStreams => r == []
            case _ => r == q
  {
    hide NextDB, NextWorkers, NextRelays, SeenIds, Picked, FreshItem;
  }

  /** A create is open to every item with fresh identifiers and a free key, and stores it. */
  lemma CreateIsOpen(c: Config, s: State, item: NewItem)
    requires item.requestId !in s.db.requests && item.outboxId !in SeenIds(s) && item.key.createdAt <= s.now
    requires forall k :: k in s.db.deliveries ==> k.id != item.key.id
    requires item.idemKey.Some? ==> forall r :: r in s.db.requests && s.db.requests[r].userId == item.userId ==>
                                                  s.db.requests[r].idemKey != item.idemKey
    ensures Enabled(c, s, Create(item)) && HasRows(Apply(c, s, Create(item)).db, item, None, s.now)
  {
  }

  /** A cancel is open to every request with a SCHEDULED, PENDING or RETRYING delivery, and closes all of those. */
  lemma CancelIsOpen(c: Config, s: State, r: Id, k: Key)
    requires r in s.db.requests && k in s.db.deliveries && s.db.deliveries[k].requestId == r
    requires s.db.deliveries[k].status in {Scheduled, Pending, Retrying}
    ensures Enabled(c, s, CancelRequest(r, {}, s.now))
    ensures var t := Apply(c, s, CancelRequest(r, {}, s.now));
            forall l :: l in s.db.deliveries ==>
                          && l in t.db.deliveries
                          && t.db.deliveries[l] == if s.db.deliveries[l].requestId == r && s.db.deliveries[l].status in {Scheduled, Pending, Retrying}
                                                   then s.db.deliveries[l].(status := Cancelled, updatedAt := s.now) else s.db.deliveries[l]
  {
    var a := CancelRequest(r, {}, s.now);
    assert k in Cancellable(s.db.deliveries, r) - {};
    hide Apply;
    forall l | l in s.db.deliveries
      ensures l in Apply(c, s, a).db.deliveries && Writes(c, s, a, l, s.db.deliveries[l], Apply(c, s, a).db.deliveries[l])
    {
      StepInColumns(c, s, a, l);
    }
  }

  /** A purge is open at any time, for any instant, and leaves exactly the rows not published before it. */
  lemma PurgeIsOpen(c: Config, s: State, before: Time)
    ensures Enabled(c, s, Purge(before))
    ensures var left := Apply(c, s, Purge(before)).db.outbox;
            forall o :: o in s.db.outbox ==>
                          if s.db.outbox[o].publishedAt.Some? && s.db.outbox[o].publishedAt.value < before then o !in left
                          else o in left && left[o] == s.db.outbox[o]
  {
    hide ApplyMoves;
  }

  // ---- A send waits for its time ----

  /** Nothing of the delivery has left its row: no outbox row, no entry of a pass, no message, no worker. */
  ghost predicate IsUntouched(s: State, k: Key)
  {
    && !IsQueued(s, k) && !IsHeld(s, k)
    && (forall w :: w in s.workers && s.workers[w].InFlight? ==> s.workers[w].key != k)
    && (forall r, i :: r in s.relays && 0 <= i < |s.relays[r].entries| ==> s.relays[r].entries[i].message.key != k)
    && (forall o :: o in s.db.outbox ==> s.db.outbox[o].key != k)
  }

  /** The delivery is parked, or was cancelled while it was. */
  ghost predicate IsParked(s: State, k: Key)
  {
    && k in s.db.deliveries && s.db.deliveries[k].status in {Scheduled, Cancelled}
    && s.db.deliveries[k].history.claims == 0 && IsUntouched(s, k)
  }

  ghost predicate KeepsBack(s: State)
  {
    forall k :: k in s.db.deliveries && s.db.deliveries[k].sendAt.Some? && s.now < s.db.deliveries[k].sendAt.value ==> IsParked(s, k)
  }

  lemma ParkedStaysParked(c: Config, s: State, a: Action, k: Key)
    requires WellFormed(c, s) && Enabled(c, s, a) && IsParked(s, k) && (a.RunDue? ==> k !in a.chosen)
    ensures IsParked(Apply(c, s, a), k)
  {
    hide WellFormed, Enabled, Apply, IsUntouched;
    StepInColumns(c, s, a, k);
    ParkedRow(c, s, a, k, Apply(c, s, a).db.deliveries[k]);
    StepKeepsUntouched(c, s, a, k);
  }

  lemma ParkedRow(c: Config, s: State, a: Action, k: Key, e: Delivery)
    requires Enabled(c, s, a) && IsParked(s, k) && (a.RunDue? ==> k !in a.chosen) && Writes(c, s, a, k, s.db.deliveries[k], e)
    ensures e.status in {Scheduled, Cancelled} && e.history.claims == 0
  {
    hide SeenIds, Picked, FreshItem, FailureOf, IsQueued, IsHeld;
  }

  lemma StepKeepsUntouched(c: Config, s: State, a: Action, k: Key)
    requires WellFormed(c, s) && Enabled(c, s, a) && k in s.db.deliveries && IsUntouched(s, k) && (a.RunDue? ==> k !in a.chosen)
    ensures IsUntouched(Apply(c, s, a), k)
  {
    hide WellFormed, Enabled, Apply, IsQueued, IsHeld, NextDB, SeenIds;
    assert !IsFetched(s, k);
    StepKeepsUnqueued(c, s, a, k);
    StepKeepsUnheld(c, s, a, k);
    StepKeepsUnclaimed(c, s, a, k);
    StepKeepsUnlisted(c, s, a, k);
    StepOutbox(c, s, a);
    ApplyParts(c, s, a);
  }

  lemma StepKeepsUnclaimed(c: Config, s: State, a: Action, k: Key)
    requires Enabled(c, s, a) && !IsHeld(s, k)
    requires forall w :: w in s.workers && s.workers[w].InFlight? ==> s.workers[w].key != k
    ensures var t := Apply(c, s, a); forall w :: w in t.workers && t.workers[w].InFlight? ==> t.workers[w].key != k
  {
    hide NextDB, NextStreams, NextRelays, Picked, SeenIds, FreshItem;
  }

  lemma StepKeepsUnlisted(c: Config, s: State, a: Action, k: Key)
    requires WellFormed(c, s) && Enabled(c, s, a) && forall o :: o in s.db.outbox ==> s.db.outbox[o].key != k
    requires forall r, i :: r in s.relays && 0 <= i < |s.relays[r].entries| ==> s.relays[r].entries[i].message.key != k
    ensures var t := Apply(c, s, a);
            forall r, i :: r in t.relays && 0 <= i < |t.relays[r].entries| ==> t.relays[r].entries[i].message.key != k
  {
    hide WellFormed, Enabled, SeenIds, NextDB, NextStreams, NextWorkers, NextRelays;
    var t := Apply(c, s, a);
    forall r, i | r in t.relays && 0 <= i < |t.relays[r].entries| ensures t.relays[r].entries[i].message.key != k {
      RelayOrigin(c, s, a, r);
      if a.Fetch? && a.r == r {
        FetchIsStored(c, s, a);
        OutboxKey(c, s, a.fetched[i]);
      }
    }
  }

  /** The insert loop writes outbox rows for immediate sends only. */
  lemma {:induction false} InsertAllImmediate(db: DB, items: seq<NewItem>, batchId: Id, at: Time)
    requires FreshItems(db, items, at)
    ensures var es := InsertAll(db, items, batchId, at);
            forall o :: o in es.outbox && o !in db.outbox ==>
                          es.outbox[o].key in es.deliveries && es.deliveries[es.outbox[o].key].sendAt.None?
    decreases |items|
  {
    hide FreshItem, Conflicts;
    if items != [] {
      InsertKeepsFresh(db, items, Some(batchId), at);
      if Conflicts(db.requests, items[0].userId, items[0].idemKey) {
        InsertAllImmediate(db, items[1..], batchId, at);
      } else {
        var next := Insert(db, items[0], Some(batchId), at);
        InsertAllImmediate(next, items[1..], batchId, at);
        InsertAllOutbox(next, items[1..], batchId, at);
        InsertAllRows(next, items[1..], batchId, at);
      }
    }
  }

  lemma NewOutboxIsImmediate(c: Config, s: State, a: Action)
    requires Enabled(c, s, a) && (a.Create? || a.CreateMany?)
    ensures var t := NextDB(c, s, a);
            forall o :: o in t.outbox && o !in s.db.outbox ==>
                          t.outbox[o].key in t.deliveries && t.deliveries[t.outbox[o].key].sendAt.None?
  {
    hide SeenIds, InsertAll, CountCreated, Conflicts;
    if a.CreateMany? {
      var empty := s.db.(batches := s.db.batches[a.batchId := Batch(a.userId, a.idemKey, 0, 0, 0, 0, 0)]);
      InsertAllImmediate(empty, a.items, a.batchId, s.now);
    }
  }

  /** A stored row with a send time is parked, and nobody knows of it. */
  lemma NewRowIsParked(c: Config, s: State, a: Action, k: Key)
    requires WellFormed(c, s) && Enabled(c, s, a) && k !in s.db.deliveries
    requires k in Apply(c, s, a).db.deliveries && Apply(c, s, a).db.deliveries[k].sendAt.Some?
    ensures IsParked(Apply(c, s, a), k)
  {
    hide WellFormed, Enabled, Apply, NextDB, IsUntouched;
    ApplyParts(c, s, a);
    StepNewRows(c, s, a);
    OnlyCreates(c, s, a, k);
    NewOutboxIsImmediate(c, s, a);
    StepOutbox(c, s, a);
    var d := Apply(c, s, a).db.deliveries[k];
    NewRowWaits(d);
    UnknownIsUntouched(c, s, k);
    CreateTellsNobody(c, s, a);
    OldOutboxKeys(c, s);
    UntouchedAfter(s, Apply(c, s, a), k);
  }

  lemma NewRowWaits(d: Delivery)
    requires (exists item :: d == BuildDelivery(item)) && d.sendAt.Some?
    ensures d.status == Scheduled && d.history.claims == 0
  {
  }

  lemma OnlyCreates(c: Config, s: State, a: Action, k: Key)
    requires Enabled(c, s, a) && k !in s.db.deliveries && k in NextDB(c, s, a).deliveries
    ensures a.Create? || a.CreateMany?
  {
    hide Enabled, NextDB, Moves;
    if !a.Create? && !a.CreateMany? {
      OtherStepsMoveRows(c, s, a);
    }
  }

  lemma UnknownIsUntouched(c: Config, s: State, k: Key)
    requires WellFormed(c, s) && k !in s.db.deliveries
    ensures IsUntouched(s, k)
  {
    forall o | o in s.db.outbox ensures s.db.outbox[o].key != k {
      OutboxKey(c, s, o);
    }
    forall w | w in s.workers ensures WorkerOk(c, s.db.deliveries, s.workers[w]) {
    }
    forall r | r in s.relays ensures RelayOk(s.db.deliveries, s.relays[r]) {
    }
  }

  lemma OldOutboxKeys(c: Config, s: State)
    requires WellFormed(c, s)
    ensures forall o :: o in s.db.outbox ==> s.db.outbox[o].key in s.db.deliveries
  {
  }

  lemma CreateTellsNobody(c: Config, s: State, a: Action)
    requires Enabled(c, s, a) && (a.Create? || a.CreateMany?)
    ensures var t := Apply(c, s, a); t.streams == s.streams && t.workers == s.workers && t.relays == s.relays
  {
    hide NextDB, SeenIds;
  }

  lemma UntouchedAfter(s: State, t: State, k: Key)
    requires IsUntouched(s, k) && t.streams == s.streams && t.workers == s.workers && t.relays == s.relays
    requires forall o :: o in t.db.outbox ==> t.db.outbox[o].key != k
    ensures IsUntouched(t, k)
  {
  }

  lemma StepKeepsBack(c: Config, s: State, a: Action)
    requires WellFormed(c, s) && Enabled(c, s, a) && KeepsBack(s)
    ensures KeepsBack(Apply(c, s, a))
  {
    hide WellFormed, Enabled, Apply, IsParked;
    var t := Apply(c, s, a);
    ApplyParts(c, s, a);
    forall k | k in t.db.deliveries && t.db.deliveries[k].sendAt.Some? && t.now < t.db.deliveries[k].sendAt.value
      ensures IsParked(t, k)
    {
      if k !in s.db.deliveries {
        NewRowIsParked(c, s, a, k);
      } else {
        SendAtStays(c, s, a, k);
        IsParkedRow(s, k);
        if a.RunDue? && k in a.chosen {
          ChoiceInColumns(c, s, a, k);
        }
        ParkedStaysParked(c, s, a, k);
      }
    }
  }

  lemma IsParkedRow(s: State, k: Key)
    requires IsParked(s, k)
    ensures k in s.db.deliveries && s.db.deliveries[k].status in {Scheduled, Cancelled}
  {
  }

  lemma SendAtStays(c: Config, s: State, a: Action, k: Key)
    requires Enabled(c, s, a) && k in s.db.deliveries
    ensures k in Apply(c, s, a).db.deliveries && Apply(c, s, a).db.deliveries[k].sendAt == s.db.deliveries[k].sendAt
  {
    hide Enabled, Apply, Moves;
    StepRow(c, s, a, k);
  }

  /** With no timing assumption: until its send time a delivery stays in its row, SCHEDULED or CANCELLED, never claimed. */
  lemma {:induction false} RunKeepsBack(c: Config, s: State, acts: seq<Action>, t: State)
    requires c.policy.maxAttempts >= 1 && WellFormed(c, s) && KeepsBack(s) && Run(c, s, acts, t)
    ensures KeepsBack(t)
    decreases |acts|
  {
    hide WellFormed, Enabled, Apply, KeepsBack;
    if acts != [] {
      StepKeepsBack(c, s, acts[0]);
      StepKeepsWellFormed(c, s, acts[0]);
      RunKeepsBack(c, Apply(c, s, acts[0]), acts[1..], t);
    }
  }

  // ---- Routing ----

  /** Every delivery has the channel and the priority of its request. */
  ghost predicate FollowsRequests(db: DB)
  {
    forall k :: k in db.deliveries ==>
                  var d := db.deliveries[k];
                  && d.requestId in db.requests
                  && d.channel == db.requests[d.requestId].channel && d.priority == db.requests[d.requestId].priority
  }

  lemma InsertFollows(db: DB, item: NewItem, batchId: Option<Id>, at: Time)
    requires FollowsRequests(db) && FreshItem(db, item, at)
    ensures FollowsRequests(Insert(db, item, batchId, at))
  {
  }

  lemma {:induction false} InsertAllFollows(db: DB, items: seq<NewItem>, batchId: Id, at: Time)
    requires FollowsRequests(db) && FreshItems(db, items, at)
    ensures FollowsRequests(InsertAll(db, items, batchId, at))
    decreases |items|
  {
    hide FollowsRequests;
    if items != [] {
      InsertKeepsFresh(db, items, Some(batchId), at);
      if Conflicts(db.requests, items[0].userId, items[0].idemKey) {
        InsertAllFollows(db, items[1..], batchId, at);
      } else {
        InsertFollows(db, items[0], Some(batchId), at);
        InsertAllFollows(Insert(db, items[0], Some(batchId), at), items[1..], batchId, at);
      }
    }
  }

  lemma MovesFollow(db: DB, next: DB, moves: map<Key, Move>)
    requires FollowsRequests(db) && next.deliveries == ApplyMoves(db.deliveries, moves)
    requires forall r :: r in db.requests ==>
                           && r in next.requests && next.requests[r].channel == db.requests[r].channel
                           && next.requests[r].priority == db.requests[r].priority
    ensures FollowsRequests(next)
  {
    hide MoveRow;
    forall k | k in moves && k in db.deliveries
      ensures var d, e := db.deliveries[k], MoveRow(db.deliveries[k], moves[k]);
              e.requestId == d.requestId && e.channel == d.channel && e.priority == d.priority
    {
      MoveKeepsRouting(db.deliveries[k], moves[k]);
    }
  }

  lemma MoveKeepsRouting(d: Delivery, m: Move)
    ensures var e := MoveRow(d, m); e.requestId == d.requestId && e.channel == d.channel && e.priority == d.priority
  {
  }

  /** Other steps change at most the status of a request. */
  lemma RequestsKeepRouting(c: Config, s: State, a: Action)
    requires Enabled(c, s, a) && !a.Create? && !a.CreateMany?
    ensures var next := NextDB(c, s, a);
            forall r :: r in s.db.requests ==>
                          && r in next.requests && next.requests[r].channel == s.db.requests[r].channel
                          && next.requests[r].priority == s.db.requests[r].priority
  {
    hide ApplyMoves, Recompute, SeenIds, Picked, FreshItem, Enqueue, JobMoves, MarkPublished, PurgePublished, FailureOf;
    var moved := s.db.(deliveries := ApplyMoves(s.db.deliveries, Moves(c, s, a)));
    match a
    case CancelRequest(r, _, _) => RecomputeFrame(moved, r);
    case MarkFailed(w, _, _, _) => RecomputeFrame(moved, s.workers[w].requestId);
    case MarkSent(w, _) => RecomputeFrame(moved, s.workers[w].requestId);
    case _ =>
  }

  lemma StepFollows(c: Config, s: State, a: Action)
    requires Enabled(c, s, a) && FollowsRequests(s.db)
    ensures FollowsRequests(NextDB(c, s, a))
  {
    hide FollowsRequests, SeenIds, FreshItem;
    if a.Create? {
      InsertFollows(s.db, a.item, None, s.now);
    } else if a.CreateMany? {
      CreateManyFollows(c, s, a);
    } else {
      hide Enabled, NextDB, Moves;
      OtherStepsMoveRows(c, s, a);
      RequestsKeepRouting(c, s, a);
      MovesFollow(s.db, NextDB(c, s, a), Moves(c, s, a));
    }
  }

  lemma CreateManyFollows(c: Config, s: State, a: Action)
    requires Enabled(c, s, a) && a.CreateMany? && FollowsRequests(s.db)
    ensures FollowsRequests(NextDB(c, s, a))
  {
    hide SeenIds, InsertAll, CountCreated;
    var empty := s.db.(batches := s.db.batches[a.batchId := Batch(a.userId, a.idemKey, 0, 0, 0, 0, 0)]);
    InsertAllFollows(empty, a.items, a.batchId, s.now);
  }

  /** Over every run, with no timing assumption. */
  lemma {:induction false} RunFollows(c: Config, s: State, acts: seq<Action>, t: State)
    requires FollowsRequests(s.db) && Run(c, s, acts, t)
    ensures FollowsRequests(t.db)
    decreases |acts|
  {
    hide Enabled, Apply, FollowsRequests;
    if acts != [] {
      StepFollows(c, s, acts[0]);
      ApplyParts(c, s, acts[0]);
      RunFollows(c, Apply(c, s, acts[0]), acts[1..], t);
    }
  }

  /** The message is for a stored delivery and its request, with that request's routing, on the stream of that routing. */
  predicate IsRouted(db: DB, st: Stream, m: Message)
  {
    && m.key in db.deliveries && m.requestId == db.deliveries[m.key].requestId
    && m.requestId in db.requests
    && m.channel == db.deliveries[m.key].channel == db.requests[m.requestId].channel
    && m.priority == db.deliveries[m.key].priority == db.requests[m.requestId].priority
    && st == Stream(priority := m.priority, channel := m.channel)
  }

  /** Whatever is on the outbox, on a stream, with a relay or with a worker goes where its request was to go. */
  ghost predicate AllRouted(s: State)
  {
    && (forall o :: o in s.db.outbox ==>
                      IsRouted(s.db, s.db.outbox[o].stream, s.db.outbox[o].message) && s.db.outbox[o].key == s.db.outbox[o].message.key)
    && (forall st, i :: st in s.streams && 0 <= i < |s.streams[st]| ==> IsRouted(s.db, st, s.streams[st][i]))
    && (forall r, i :: r in s.relays && 0 <= i < |s.relays[r].entries| ==>
                         IsRouted(s.db, s.relays[r].entries[i].stream, s.relays[r].entries[i].message))
    && (forall w :: w in s.workers && s.workers[w].Holding? ==>
                      IsRouted(s.db, Stream(s.workers[w].msg.priority, s.workers[w].msg.channel), s.workers[w].msg))
  }

  lemma GenuineIsRouted(db: DB, st: Stream, m: Message)
    requires FollowsRequests(db) && Genuine(db.deliveries, st, m)
    ensures IsRouted(db, st, m)
  {
  }

  lemma WellFormedIsRouted(c: Config, s: State)
    requires WellFormed(c, s) && FollowsRequests(s.db)
    ensures AllRouted(s)
  {
    hide FollowsRequests, Genuine, IsRouted;
    forall o | o in s.db.outbox ensures IsRouted(s.db, s.db.outbox[o].stream, s.db.outbox[o].message) {
      GenuineIsRouted(s.db, s.db.outbox[o].stream, s.db.outbox[o].message);
    }
    forall st, i | st in s.streams && 0 <= i < |s.streams[st]| ensures IsRouted(s.db, st, s.streams[st][i]) {
      GenuineIsRouted(s.db, st, s.streams[st][i]);
    }
    forall r, i | r in s.relays && 0 <= i < |s.relays[r].entries|
      ensures IsRouted(s.db, s.relays[r].entries[i].stream, s.relays[r].entries[i].message)
    {
      assert RelayOk(s.db.deliveries, s.relays[r]);
      GenuineIsRouted(s.db, s.relays[r].entries[i].stream, s.relays[r].entries[i].message);
    }
    forall w | w in s.workers && s.workers[w].Holding?
      ensures IsRouted(s.db, Stream(s.workers[w].msg.priority, s.workers[w].msg.channel), s.workers[w].msg)
    {
      assert WorkerOk(c, s.db.deliveries, s.workers[w]);
      GenuineIsRouted(s.db, Stream(s.workers[w].msg.priority, s.workers[w].msg.channel), s.workers[w].msg);
    }
  }
}
