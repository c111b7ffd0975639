/**
 * The finalising transactions statement by statement, under READ COMMITTED with row locks.
 * Every committed state they produce is one the atomic protocol produces.
 */
module Transactions {
  import opened Domain
  import opened Database
  import opened Lifecycle
  import opened Integrity
  import opened Leases
  import opened Requests

  /** What a transaction was opened for: a worker's final mark, or a cancel. */
  datatype Kind = MarkTx(a: Action) | CancelTx

  /**
   * An open transaction: its uncommitted delivery rows, whether it holds the request row, the request status it
   * read then, the aggregate it computed from the statuses it read, and its uncommitted batch row.
   */
  datatype Tx = Tx(
    kind: Kind, requestId: Id, at: Time, writes: Deliveries, locked: bool, was: RequestStatus,
    seen: Option<RequestStatus>, batch: Option<Batch>)

  datatype System = System(base: State, txs: map<Id, Tx>)

  datatype Statement =
    | Atomic(a: Action)
    | BeginMark(t: Id, mark: Action)
    | BeginCancel(t: Id, requestId: Id)
    | CancelRows(t: Id)
    | LockRequest(t: Id)
    | ReadStatuses(t: Id)
    | UpdateBatch(t: Id)
    | Commit(t: Id)
    | Rollback(t: Id)

  /** No open transaction has written the row. */
  predicate RowFree(sys: System, k: Key)
  {
    forall t :: t in sys.txs ==> k !in sys.txs[t].writes
  }

  predicate RequestFree(sys: System, r: Id)
  {
    forall t :: t in sys.txs && sys.txs[t].locked ==> sys.txs[t].requestId != r
  }

  predicate IsMarkBy(x: Tx, w: Id)
  {
    x.kind.MarkTx? && IsWorkerWrite(x.kind.a) && x.kind.a.w == w
  }

  predicate WorkerFree(sys: System, w: Id)
  {
    forall t :: t in sys.txs ==> !IsMarkBy(sys.txs[t], w)
  }

  function BatchIdOf(db: DB, r: Id): Option<Id>
  {
    if r in db.requests && db.requests[r].batchId.Some? && db.requests[r].batchId.value in db.batches
    then db.requests[r].batchId else None
  }

  /** No other transaction holds an updated copy of the batch row. */
  predicate BatchFree(sys: System, b: Option<Id>)
  {
    forall t :: t in sys.txs && sys.txs[t].batch.Some? ==> BatchIdOf(sys.base.db, sys.txs[t].requestId) != b
  }

  predicate NeedsBatch(db: DB, x: Tx)
  {
    x.seen.Some? && x.seen.value != x.was && BatchIdOf(db, x.requestId).Some?
  }

  ghost predicate Enables(c: Config, sys: System, st: Statement)
  {
    match st
    case Atomic(a) =>
      // an UPDATE of a locked row waits for the lock
      && Enabled(c, sys.base, a) && !IsFinal(a)
      && (forall k :: k in Moves(c, sys.base, a) ==> RowFree(sys, k))
      && (IsWorkerWrite(a) ==> WorkerFree(sys, a.w)) && (a.Crash? ==> WorkerFree(sys, a.w))
    case BeginMark(t, mark) =>
      && t !in sys.txs && (mark.MarkSent? || mark.MarkFailed?) && Enabled(c, sys.base, mark)
      && RowFree(sys, sys.base.workers[mark.w].key) && WorkerFree(sys, mark.w)
    case BeginCancel(t, r) => t !in sys.txs && r in sys.base.db.requests && RequestFree(sys, r)
    case CancelRows(t) =>
      && t in sys.txs && sys.txs[t].kind.CancelTx? && sys.txs[t].writes == map[] && sys.txs[t].seen.None?
      && Cancellable(sys.base.db.deliveries, sys.txs[t].requestId) != {}
      && forall k :: k in Cancellable(sys.base.db.deliveries, sys.txs[t].requestId) ==> RowFree(sys, k)
    case LockRequest(t) =>
      t in sys.txs && !sys.txs[t].locked && sys.txs[t].requestId in sys.base.db.requests && RequestFree(sys, sys.txs[t].requestId)
    case ReadStatuses(t) => t in sys.txs && sys.txs[t].locked && sys.txs[t].writes != map[] && sys.txs[t].seen.None?
    case UpdateBatch(t) =>
      && t in sys.txs && sys.txs[t].batch.None? && NeedsBatch(sys.base.db, sys.txs[t])
      && BatchFree(sys, BatchIdOf(sys.base.db, sys.txs[t].requestId))
    case Commit(t) =>
      && t in sys.txs && sys.txs[t].requestId in sys.base.db.requests
      && sys.txs[t].seen.Some? && (NeedsBatch(sys.base.db, sys.txs[t]) ==> sys.txs[t].batch.Some?)
    case Rollback(t) => t in sys.txs
  }

  /** The timing assumption: a worker's statement is issued while its lease is unexpired. */
  predicate InTime(sys: System, st: Statement)
  {
    match st
    case Atomic(a) => Timely(sys.base, a)
    case BeginMark(t, mark) => Timely(sys.base, mark)
    case _ => true
  }

  function WriteAll(ds: Deliveries, moves: map<Key, Move>): Deliveries
  {
    map k | k in moves && k in ds :: MoveRow(ds[k], moves[k])
  }

  function CancelMoves(ds: Deliveries, r: Id, at: Time): map<Key, Move>
  {
    map k | k in Cancellable(ds, r) :: Cancel(at)
  }

  /** The rows as the transaction itself sees them. */
  function Overlay(ds: Deliveries, x: Tx): Deliveries
  {
    ds + x.writes
  }

  function CommitDB(db: DB, x: Tx): DB
    requires x.seen.Some? && x.requestId in db.requests
  {
    var status := x.seen.value;
    DB(Overlay(db.deliveries, x),
       if status == x.was then db.requests else db.requests[x.requestId := db.requests[x.requestId].(status := status)],
       if x.batch.Some? && BatchIdOf(db, x.requestId).Some? then db.batches[BatchIdOf(db, x.requestId).value := x.batch.value] else db.batches,
       db.outbox)
  }

  /** Once its transaction has ended, a marking worker is done. */
  function Released(workers: map<Id, Worker>, x: Tx): map<Id, Worker>
  {
    if x.kind.MarkTx? && IsWorkerWrite(x.kind.a) then workers - {x.kind.a.w} else workers
  }

  ghost function Do(c: Config, sys: System, st: Statement): System
    requires Enables(c, sys, st)
  {
    var ds := sys.base.db.deliveries;
    match st
    case Atomic(a) => sys.(base := Apply(c, sys.base, a))
    case BeginMark(t, mark) =>
      var x := Tx(MarkTx(mark), sys.base.workers[mark.w].requestId, mark.at, WriteAll(ds, Moves(c, sys.base, mark)),
                  false, RequestPending, None, None);
      sys.(txs := sys.txs[t := x])
    case BeginCancel(t, r) =>
      sys.(txs := sys.txs[t := Tx(CancelTx, r, sys.base.now, map[], true, sys.base.db.requests[r].status, None, None)])
    case CancelRows(t) =>
      var x := sys.txs[t];
      sys.(txs := sys.txs[t := x.(writes := WriteAll(ds, CancelMoves(ds, x.requestId, x.at)))])
    case LockRequest(t) =>
      sys.(txs := sys.txs[t := sys.txs[t].(locked := true, was := sys.base.db.requests[sys.txs[t].requestId].status)])
    case ReadStatuses(t) =>
      var x := sys.txs[t];
      sys.(txs := sys.txs[t := x.(seen := Some(Aggregate(StatusesOf(Overlay(ds, x), x.requestId))))])
    case UpdateBatch(t) =>
      var x := sys.txs[t];
      var b := sys.base.db.batches[BatchIdOf(sys.base.db, x.requestId).value];
      sys.(txs := sys.txs[t := x.(batch := Some(AdjustCounters(b, x.was, x.seen.value)))])
    case Commit(t) =>
      var x := sys.txs[t];
      System(sys.base.(db := CommitDB(sys.base.db, x), workers := Released(sys.base.workers, x)), sys.txs - {t})
    case Rollback(t) =>
      System(sys.base.(workers := Released(sys.base.workers, sys.txs[t])), sys.txs - {t})
  }

  // ---- The invariant ----

  ghost predicate MarkOk(c: Config, s: State, x: Tx)
  {
    x.kind.MarkTx? ==>
      && (x.kind.a.MarkSent? || x.kind.a.MarkFailed?) && Enabled(c, s, x.kind.a)
      && x.requestId == s.workers[x.kind.a.w].requestId && x.at == x.kind.a.at
      && x.writes == WriteAll(s.db.deliveries, Moves(c, s, x.kind.a))
  }

  ghost predicate CancelOk(s: State, x: Tx)
  {
    x.kind.CancelTx? ==>
      && x.locked
      && (forall k :: k in x.writes ==>
                        k in Cancellable(s.db.deliveries, x.requestId) && x.writes[k] == MoveRow(s.db.deliveries[k], Cancel(x.at)))
      && (x.writes != map[] ==> OthersWereClaimed(s.db.deliveries, x))
  }

  /** The open rows of its request that a transaction did not write have been claimed before. */
  ghost predicate OthersWereClaimed(ds: Deliveries, x: Tx)
  {
    forall k :: k in KeysOf(ds, x.requestId) && k !in x.writes && !ds[k].status.IsTerminal() ==> ds[k].history.claims > 0
  }

  /** What the transaction read is still true. */
  ghost predicate ReadsOk(db: DB, x: Tx)
  {
    && x.requestId in db.requests
    && (forall k :: k in x.writes ==> k in KeysOf(db.deliveries, x.requestId) && x.writes[k].requestId == x.requestId)
    && (x.locked ==> x.was == db.requests[x.requestId].status)
    && (x.seen.Some? ==> x.locked && x.writes != map[] && x.seen.value == Aggregate(StatusesOf(Overlay(db.deliveries, x), x.requestId)))
    && (x.batch.Some? ==> NeedsBatch(db, x) && x.batch.value == AdjustCounters(db.batches[BatchIdOf(db, x.requestId).value], x.was, x.seen.value))
  }

  ghost predicate TxOk(c: Config, s: State, x: Tx)
  {
    x.at <= s.now && MarkOk(c, s, x) && CancelOk(s, x) && ReadsOk(s.db, x)
  }

  /** Two open transactions share no row, request, batch or worker. */
  predicate Apart(db: DB, x: Tx, y: Tx)
  {
    && x.writes.Keys !! y.writes.Keys
    && (x.locked && y.locked ==> x.requestId != y.requestId)
    && (x.batch.Some? && y.batch.Some? ==> BatchIdOf(db, x.requestId) != BatchIdOf(db, y.requestId))
    && (x.kind.MarkTx? && y.kind.MarkTx? && IsWorkerWrite(x.kind.a) ==> !IsMarkBy(y, x.kind.a.w))
  }

  function Pinned(txs: map<Id, Tx>): set<Id>
  {
    set t | t in txs && txs[t].kind.MarkTx? && IsWorkerWrite(txs[t].kind.a) :: txs[t].kind.a.w
  }

  ghost predicate SystemOk(c: Config, sys: System)
  {
    && c.policy.maxAttempts >= 1
    && WellFormed(c, sys.base) && CountersExact(sys.base.db)
    && Exclusive(sys.base, Pinned(sys.txs))
    && (forall t :: t in sys.txs ==> TxOk(c, sys.base, sys.txs[t]))
    && (forall t, u :: t in sys.txs && u in sys.txs && t != u ==> Apart(sys.base.db, sys.txs[t], sys.txs[u]))
  }

  // ---- A commit is one atomic step ----

  /** The atomic step a transaction commits as; a cancel spares the rows that became cancellable after its UPDATE. */
  function CommitAction(s: State, x: Tx): Action
  {
    match x.kind
    case MarkTx(a) => a
    case CancelTx => CancelRequest(x.requestId, Cancellable(s.db.deliveries, x.requestId) - x.writes.Keys, x.at)
  }

  lemma MarkOverlay(c: Config, s: State, x: Tx)
    requires WellFormed(c, s) && MarkOk(c, s, x) && x.kind.MarkTx?
    ensures Overlay(s.db.deliveries, x) == ApplyMoves(s.db.deliveries, Moves(c, s, x.kind.a))
  {
    MarkIsGuarded(c, s, x.kind.a);
  }

  lemma CancelOverlay(s: State, x: Tx)
    requires CancelOk(s, x) && x.kind.CancelTx? && x.writes != map[]
    ensures var open := Cancellable(s.db.deliveries, x.requestId);
            && open - x.writes.Keys < open
            && Overlay(s.db.deliveries, x) == ApplyMoves(s.db.deliveries, (map k | k in open - (open - x.writes.Keys) :: Cancel(x.at)))
  {
    var k :| k in x.writes;
    assert k in Cancellable(s.db.deliveries, x.requestId);
  }

  lemma OverlayIsMoves(c: Config, s: State, x: Tx)
    requires WellFormed(c, s) && TxOk(c, s, x) && x.seen.Some?
    ensures Enabled(c, s, CommitAction(s, x)) && IsFinal(CommitAction(s, x))
    ensures Overlay(s.db.deliveries, x) == ApplyMoves(s.db.deliveries, Moves(c, s, CommitAction(s, x)))
  {
    hide WellFormed, Overlay, ApplyMoves;
    if x.kind.MarkTx? {
      MarkOverlay(c, s, x);
    } else {
      CancelOverlay(s, x);
    }
  }

  lemma CommitIsRecompute(db: DB, x: Tx)
    requires ReadsOk(db, x) && x.seen.Some? && (NeedsBatch(db, x) ==> x.batch.Some?)
    ensures CommitDB(db, x) == Recompute(db.(deliveries := Overlay(db.deliveries, x)), x.requestId)
  {
  }

  /** The step a commit stands for recomputes the transaction's own request and releases its worker. */
  lemma FinalStepShape(c: Config, s: State, x: Tx)
    requires TxOk(c, s, x) && x.seen.Some?
    requires var a := CommitAction(s, x); Enabled(c, s, a) && IsFinal(a)
    ensures var a := CommitAction(s, x);
            Apply(c, s, a) == s.(db := Recompute(s.db.(deliveries := ApplyMoves(s.db.deliveries, Moves(c, s, a))), x.requestId),
                                 workers := Released(s.workers, x))
  {
    hide Recompute, ApplyMoves, Moves;
  }

  lemma PinnedOwns(c: Config, sys: System, t: Id)
    requires SystemOk(c, sys) && t in sys.txs && sys.txs[t].kind.MarkTx?
    ensures IsWorkerWrite(sys.txs[t].kind.a) && IsFlying(sys.base, sys.txs[t].kind.a.w) && Owned(sys.base, sys.txs[t].kind.a.w)
  {
    assert TxOk(c, sys.base, sys.txs[t]);
    assert IsLive(sys.base, Pinned(sys.txs), sys.txs[t].kind.a.w);
  }

  lemma CommitFacts(c: Config, sys: System, t: Id)
    requires SystemOk(c, sys) && Enables(c, sys, Commit(t))
    ensures t in sys.txs
    ensures var x := sys.txs[t];
            && WellFormed(c, sys.base) && TxOk(c, sys.base, x) && ReadsOk(sys.base.db, x) && x.seen.Some?
            && x.requestId in sys.base.db.requests && (NeedsBatch(sys.base.db, x) ==> x.batch.Some?)
            && Do(c, sys, Commit(t)).base == sys.base.(db := CommitDB(sys.base.db, x), workers := Released(sys.base.workers, x))
  {
    hide WellFormed, CommitDB, Released, Recompute;
    assert TxOk(c, sys.base, sys.txs[t]);
  }

  lemma CommitIsDisciplined(c: Config, sys: System, t: Id)
    requires SystemOk(c, sys) && Enables(c, sys, Commit(t))
    ensures Disciplined(sys.base, CommitAction(sys.base, sys.txs[t]))
  {
    if sys.txs[t].kind.MarkTx? {
      PinnedOwns(c, sys, t);
    }
  }

  /** What a commit makes visible is exactly what the atomic step would have written at that instant. */
  lemma CommitIsAtomic(c: Config, sys: System, t: Id)
    requires SystemOk(c, sys) && Enables(c, sys, Commit(t))
    ensures t in sys.txs && sys.txs[t].requestId in sys.base.db.requests
    ensures var a := CommitAction(sys.base, sys.txs[t]);
            Enabled(c, sys.base, a) && Disciplined(sys.base, a) && Do(c, sys, Commit(t)).base == Apply(c, sys.base, a)
  {
    hide *;
    CommitFacts(c, sys, t);
    CommitIsDisciplined(c, sys, t);
    OverlayIsMoves(c, sys.base, sys.txs[t]);
    CommitIsRecompute(sys.base.db, sys.txs[t]);
    FinalStepShape(c, sys.base, sys.txs[t]);
  }

  lemma CrashShape(c: Config, s: State, w: Id)
    requires w in s.workers
    ensures Apply(c, s, Crash(w)) == s.(workers := s.workers - {w})
  {
    assert ApplyMoves(s.db.deliveries, map[]) == s.db.deliveries;
  }

  /** A rolled back mark is a worker that gave up; a rolled back cancel never happened. */
  lemma RollbackIsCrash(c: Config, sys: System, t: Id)
    requires SystemOk(c, sys) && Enables(c, sys, Rollback(t))
    ensures var x := sys.txs[t];
            if x.kind.MarkTx? then
              && IsWorkerWrite(x.kind.a) && Enabled(c, sys.base, Crash(x.kind.a.w))
              && Do(c, sys, Rollback(t)).base == Apply(c, sys.base, Crash(x.kind.a.w))
            else Do(c, sys, Rollback(t)).base == sys.base
  {
    hide SystemOk, Apply, Owned, Do;
    var x := sys.txs[t];
    if x.kind.MarkTx? {
      PinnedOwns(c, sys, t);
      CrashShape(c, sys.base, x.kind.a.w);
    }
    RollbackShape(c, sys, t);
  }

  lemma RollbackShape(c: Config, sys: System, t: Id)
    requires Enables(c, sys, Rollback(t))
    ensures t in sys.txs && Do(c, sys, Rollback(t)) == System(sys.base.(workers := Released(sys.base.workers, sys.txs[t])), sys.txs - {t})
  {
  }

  // ---- Other steps leave an open transaction valid ----

  /** An atomic step changes no stored request or batch. */
  lemma AtomicKeepsRequests(c: Config, s: State, a: Action)
    requires Enabled(c, s, a) && !IsFinal(a)
    ensures var db := NextDB(c, s, a);
            && (forall r :: r in s.db.requests ==> r in db.requests && db.requests[r] == s.db.requests[r])
            && (forall b :: b in s.db.batches ==> b in db.batches && db.batches[b] == s.db.batches[b])
  {
    match a
    case CreateMany(batchId, userId, idemKey, items) =>
      var empty := s.db.(batches := s.db.batches[batchId := Batch(userId, idemKey, 0, 0, 0, 0, 0)]);
      InsertAllKeepsRequests(empty, items, batchId, s.now);
    case _ =>
  }

  lemma {:induction false} InsertAllKeepsRequests(db: DB, items: seq<NewItem>, batchId: Id, at: Time)
    requires FreshItems(db, items, at)
    ensures var next := InsertAll(db, items, batchId, at);
            && (forall r :: r in db.requests ==> r in next.requests && next.requests[r] == db.requests[r])
            && next.batches == db.batches
    decreases |items|
  {
    if items != [] {
      InsertKeepsFresh(db, items, Some(batchId), at);
      if Conflicts(db.requests, items[0].userId, items[0].idemKey) {
        InsertAllKeepsRequests(db, items[1..], batchId, at);
      } else {
        InsertAllKeepsRequests(Insert(db, items[0], Some(batchId), at), items[1..], batchId, at);
      }
    }
  }

  lemma OtherWorkersStay(c: Config, s: State, a: Action, w: Id)
    requires Enabled(c, s, a) && IsFlying(s, w) && (IsWorkerWrite(a) || a.Crash? ==> a.w != w)
    ensures w in NextWorkers(c, s, a) && NextWorkers(c, s, a)[w] == s.workers[w]
  {
  }

  /** A final mark stays enabled, and means the same, as long as its worker and its row are left alone. */
  lemma MarkStays(c: Config, s: State, u: State, mark: Action)
    requires (mark.MarkSent? || mark.MarkFailed?) && Enabled(c, s, mark)
    requires mark.w in u.workers && u.workers[mark.w] == s.workers[mark.w] && s.now <= u.now
    requires s.workers[mark.w].requestId in u.db.requests
    ensures Enabled(c, u, mark) && Moves(c, u, mark) == Moves(c, s, mark)
  {
  }

  /** The worker, the row and the request of a final mark. */
  lemma MarkTarget(c: Config, s: State, mark: Action)
    requires WellFormed(c, s) && Enabled(c, s, mark) && (mark.MarkSent? || mark.MarkFailed?)
    ensures IsFlying(s, mark.w) && s.workers[mark.w].requestId in s.db.requests
    ensures s.workers[mark.w].key in s.db.deliveries && Moves(c, s, mark).Keys == {s.workers[mark.w].key}
  {
    MarkIsGuarded(c, s, mark);
  }

  /** An atomic step leaves the locked rows of an open transaction as they are. */
  lemma LockedRowsStay(c: Config, sys: System, a: Action, t: Id)
    requires Enables(c, sys, Atomic(a)) && t in sys.txs
    ensures forall k :: k in sys.txs[t].writes ==> k !in Moves(c, sys.base, a)
    ensures forall k :: k in sys.txs[t].writes && k in sys.base.db.deliveries ==>
                          k in Apply(c, sys.base, a).db.deliveries && Apply(c, sys.base, a).db.deliveries[k] == sys.base.db.deliveries[k]
  {
    StepRows(c, sys.base, a);
    assert forall k :: k in Moves(c, sys.base, a) ==> RowFree(sys, k);
    assert Apply(c, sys.base, a).db == NextDB(c, sys.base, a);
    hide Enabled, Moves, NextDB, Apply;
  }

  lemma AtomicKeepsMark(c: Config, sys: System, a: Action, t: Id)
    requires SystemOk(c, sys) && Enables(c, sys, Atomic(a)) && t in sys.txs
    ensures MarkOk(c, Apply(c, sys.base, a), sys.txs[t])
  {
    hide Enabled, Moves, NextDB, NextWorkers, Apply, WellFormed, CancelOk, ReadsOk, Exclusive, CountersExact, Apart, RowFree;
    var s, x := sys.base, sys.txs[t];
    if x.kind.MarkTx? {
      var mark := x.kind.a;
      assert TxOk(c, s, x) && IsMarkBy(x, mark.w);
      MarkTarget(c, s, mark);
      LockedRowsStay(c, sys, a, t);
      OtherWorkersStay(c, s, a, mark.w);
      AtomicKeepsRequests(c, s, a);
      ApplyParts(c, s, a);
      MarkStays(c, s, Apply(c, s, a), mark);
      assert s.workers[mark.w].key in x.writes;
      SameWrites(s.db.deliveries, Apply(c, s, a).db.deliveries, Moves(c, s, mark), s.workers[mark.w].key);
    }
  }

  lemma SameWrites(ds: Deliveries, es: Deliveries, moves: map<Key, Move>, k: Key)
    requires moves.Keys == {k} && k in ds && k in es && es[k] == ds[k]
    ensures WriteAll(es, moves) == WriteAll(ds, moves)
  {
  }

  lemma AtomicKeepsCancel(c: Config, sys: System, a: Action, t: Id)
    requires SystemOk(c, sys) && Enables(c, sys, Atomic(a)) && t in sys.txs && Disciplined(sys.base, a)
    ensures CancelOk(Apply(c, sys.base, a), sys.txs[t])
  {
    hide OthersWereClaimed, Moves, Apply, Enabled, WellFormed, Exclusive, CountersExact, MarkOk, Disciplined;
    var x := sys.txs[t];
    assert TxOk(c, sys.base, x);
    LockedRowsStay(c, sys, a, t);
    if x.kind.CancelTx? && x.writes != map[] {
      StepKeepsClaimed(c, sys.base, a, x);
    }
  }

  /** The open rows a transaction missed stay rows that were claimed: final rows stay final, and new rows belong to new requests. */
  lemma StepKeepsClaimed(c: Config, s: State, a: Action, x: Tx)
    requires WellFormed(c, s) && Enabled(c, s, a) && Disciplined(s, a)
    requires x.requestId in s.db.requests && OthersWereClaimed(s.db.deliveries, x)
    ensures OthersWereClaimed(Apply(c, s, a).db.deliveries, x)
  {
    hide Moves, Apply, Enabled, WellFormed, Disciplined, NextDB;
    var ds, es := s.db.deliveries, Apply(c, s, a).db.deliveries;
    ApplyParts(c, s, a);
    StepNewRows(c, s, a);
    forall k | k in KeysOf(es, x.requestId) && k !in x.writes && !es[k].status.IsTerminal() ensures es[k].history.claims > 0 {
      assert k in ds;
      StepRow(c, s, a, k);
      if ds[k].status.IsTerminal() {
        StepKeepsTerminalRow(c, s, a, k);
      }
    }
  }

  /** The aggregate a transaction computed is still right: its own rows are locked, and others only move open rows about. */
  lemma AtomicKeepsAggregate(c: Config, s: State, a: Action, x: Tx)
    requires WellFormed(c, s) && Enabled(c, s, a) && !IsFinal(a) && Disciplined(s, a)
    requires x.requestId in s.db.requests && forall k :: k in x.writes ==> k !in Moves(c, s, a) && k in KeysOf(s.db.deliveries, x.requestId)
    ensures var es := NextDB(c, s, a).deliveries;
            && (forall k :: k in x.writes ==> k in KeysOf(es, x.requestId))
            && Aggregate(StatusesOf(Overlay(es, x), x.requestId)) == Aggregate(StatusesOf(Overlay(s.db.deliveries, x), x.requestId))
  {
    var ds, es, r := s.db.deliveries, NextDB(c, s, a).deliveries, x.requestId;
    StepRows(c, s, a);
    StepNewRows(c, s, a);
    OtherMovesStayOpen(c, s, a);
    OpenMovesKeepAggregate(ds, es, Moves(c, s, a), x, s.db.requests);
  }

  lemma OpenMovesKeepAggregate(ds: Deliveries, es: Deliveries, moves: map<Key, Move>, x: Tx, requests: map<Id, Request>)
    requires x.requestId in requests
    requires forall k :: k in ds ==> k in es && es[k] == if k in moves then MoveRow(ds[k], moves[k]) else ds[k]
    requires forall k :: k in es && k !in ds ==> es[k].requestId !in requests
    requires forall k :: k in moves ==> k in ds && !ds[k].status.IsTerminal() && !MoveRow(ds[k], moves[k]).status.IsTerminal()
    requires forall k :: k in x.writes ==> k in KeysOf(ds, x.requestId)
    ensures forall k :: k in x.writes ==> k in KeysOf(es, x.requestId)
    ensures Aggregate(StatusesOf(Overlay(es, x), x.requestId)) == Aggregate(StatusesOf(Overlay(ds, x), x.requestId))
  {
    hide MoveRow, Aggregate, StatusesOf;
    forall k | k in ds ensures es[k].requestId == ds[k].requestId {
      if k in moves {
        MoveKeepsRequest(ds[k], moves[k]);
      }
    }
    var a, b := Overlay(ds, x), Overlay(es, x);
    assert forall k :: k in KeysOf(es, x.requestId) ==> k in ds;
    assert KeysOf(a, x.requestId) == KeysOf(b, x.requestId);
    AggregateUnmoved(a, b, x.requestId);
  }

  lemma MoveKeepsRequest(d: Delivery, m: Move)
    ensures MoveRow(d, m).requestId == d.requestId
  {
  }

  lemma AtomicKeepsReads(c: Config, sys: System, a: Action, t: Id)
    requires SystemOk(c, sys) && Enables(c, sys, Atomic(a)) && t in sys.txs && Disciplined(sys.base, a)
    ensures ReadsOk(Apply(c, sys.base, a).db, sys.txs[t])
    ensures BatchIdOf(Apply(c, sys.base, a).db, sys.txs[t].requestId) == BatchIdOf(sys.base.db, sys.txs[t].requestId)
  {
    var s, x := sys.base, sys.txs[t];
    assert TxOk(c, s, x);
    LockedRowsStay(c, sys, a, t);
    AtomicKeepsRequests(c, s, a);
    AtomicKeepsAggregate(c, s, a, x);
    ApplyParts(c, s, a);
    ReadsCarryOver(s.db, NextDB(c, s, a), x);
  }

  /** What a transaction read stays true when its request, its batch and its aggregate do. */
  lemma ReadsCarryOver(db: DB, next: DB, x: Tx)
    requires ReadsOk(db, x) && CountersExact(db)
    requires forall r :: r in db.requests ==> r in next.requests && next.requests[r] == db.requests[r]
    requires forall b :: b in db.batches ==> b in next.batches && next.batches[b] == db.batches[b]
    requires forall k :: k in x.writes ==> k in KeysOf(next.deliveries, x.requestId)
    requires Aggregate(StatusesOf(Overlay(next.deliveries, x), x.requestId)) == Aggregate(StatusesOf(Overlay(db.deliveries, x), x.requestId))
    ensures ReadsOk(next, x) && BatchIdOf(next, x.requestId) == BatchIdOf(db, x.requestId)
  {
    hide Aggregate, StatusesOf, AdjustCounters, CountersOf;
  }

  // ---- Every statement keeps the invariant ----

  lemma FewerPinned(s: State, pinned: set<Id>, fewer: set<Id>)
    requires Exclusive(s, pinned) && fewer <= pinned
    ensures Exclusive(s, fewer)
  {
    assert forall w :: IsLive(s, fewer, w) ==> IsLive(s, pinned, w);
  }

  lemma TimelyIsDisciplined(s: State, a: Action, pinned: set<Id>)
    requires Exclusive(s, pinned) && Timely(s, a)
    ensures Disciplined(s, a)
    ensures IsWorkerWrite(a) && IsFlying(s, a.w) ==> IsLive(s, pinned, a.w)
  {
    assert IsWorkerWrite(a) && IsFlying(s, a.w) ==> IsLive(s, pinned, a.w);
  }

  /** The reaper waits for the rows of open marks. */
  lemma ReaperWaits(c: Config, sys: System, a: Action)
    requires SystemOk(c, sys) && Enables(c, sys, Atomic(a))
    ensures SparesPinned(sys.base, a, Pinned(sys.txs))
  {
    hide SystemOk, Exclusive;
    if a.ReapStuck? {
      forall w | w in Pinned(sys.txs) && IsFlying(sys.base, w) && sys.base.workers[w].key in sys.base.db.deliveries
        ensures !IsExpired(sys.base.db.deliveries[sys.base.workers[w].key], sys.base.now)
      {
        var t :| t in sys.txs && sys.txs[t].kind.MarkTx? && IsWorkerWrite(sys.txs[t].kind.a) && sys.txs[t].kind.a.w == w;
        PinnedRow(c, sys, t);
        var k := sys.base.workers[w].key;
        assert !RowFree(sys, k);
        assert k !in ReapMoves(sys.base.db.deliveries, sys.base.now);
      }
    }
  }

  lemma PinnedRow(c: Config, sys: System, t: Id)
    requires SystemOk(c, sys) && t in sys.txs && sys.txs[t].kind.MarkTx?
    ensures var a := sys.txs[t].kind.a;
            IsWorkerWrite(a) && IsFlying(sys.base, a.w) && sys.txs[t].writes.Keys == {sys.base.workers[a.w].key}
  {
    assert TxOk(c, sys.base, sys.txs[t]);
    MarkIsGuarded(c, sys.base, sys.txs[t].kind.a);
  }

  lemma AtomicKeepsTx(c: Config, sys: System, a: Action, t: Id)
    requires SystemOk(c, sys) && Enables(c, sys, Atomic(a)) && t in sys.txs && Disciplined(sys.base, a)
    ensures TxOk(c, Apply(c, sys.base, a), sys.txs[t])
    ensures BatchIdOf(Apply(c, sys.base, a).db, sys.txs[t].requestId) == BatchIdOf(sys.base.db, sys.txs[t].requestId)
  {
    hide MarkOk, CancelOk, ReadsOk, WellFormed, NextDB, NextWorkers, NextStreams, NextRelays;
    AtomicKeepsMark(c, sys, a, t);
    AtomicKeepsCancel(c, sys, a, t);
    AtomicKeepsReads(c, sys, a, t);
    assert TxOk(c, sys.base, sys.txs[t]);
  }

  /** The committed state after an atomic statement. */
  lemma AtomicKeepsBase(c: Config, sys: System, a: Action)
    requires SystemOk(c, sys) && Enables(c, sys, Atomic(a)) && Timely(sys.base, a)
    ensures var u := Apply(c, sys.base, a); WellFormed(c, u) && CountersExact(u.db) && Exclusive(u, Pinned(sys.txs))
    ensures Disciplined(sys.base, a)
  {
    hide WellFormed, Exclusive, CountersExact, TxOk, Apart, Pinned, Apply, NextDB, Moves, RowFree, WorkerFree, SparesPinned;
    TimelyIsDisciplined(sys.base, a, Pinned(sys.txs));
    ReaperWaits(c, sys, a);
    WorkerWritesFly(c, sys.base, a);
    StepKeepsWellFormed(c, sys.base, a);
    StepKeepsCounters(c, sys.base, a);
    StepKeepsExclusive(c, sys.base, a, Pinned(sys.txs));
    ApplyParts(c, sys.base, a);
  }

  lemma WorkerWritesFly(c: Config, s: State, a: Action)
    requires Enabled(c, s, a)
    ensures IsWorkerWrite(a) ==> IsFlying(s, a.w)
  {
  }

  lemma AtomicKeepsOk(c: Config, sys: System, a: Action)
    requires SystemOk(c, sys) && Enables(c, sys, Atomic(a)) && Timely(sys.base, a)
    ensures SystemOk(c, Do(c, sys, Atomic(a))) && Disciplined(sys.base, a)
  {
    hide WellFormed, Exclusive, CountersExact, Apply, Enabled, Moves, TxOk, BatchIdOf, Disciplined, Pinned, RowFree, WorkerFree, Timely;
    AtomicKeepsBase(c, sys, a);
    forall t | t in sys.txs
      ensures TxOk(c, Apply(c, sys.base, a), sys.txs[t])
      ensures BatchIdOf(Apply(c, sys.base, a).db, sys.txs[t].requestId) == BatchIdOf(sys.base.db, sys.txs[t].requestId)
    {
      AtomicKeepsTx(c, sys, a, t);
    }
  }

  /** Replacing or adding one transaction over an unchanged committed state. */
  lemma TxUpdate(c: Config, sys: System, t: Id, x: Tx)
    requires SystemOk(c, sys) && TxOk(c, sys.base, x) && Exclusive(sys.base, Pinned(sys.txs[t := x]))
    requires forall u :: u in sys.txs && u != t ==> Apart(sys.base.db, x, sys.txs[u]) && Apart(sys.base.db, sys.txs[u], x)
    ensures SystemOk(c, sys.(txs := sys.txs[t := x]))
  {
    hide WellFormed, Exclusive, CountersExact, TxOk, Apart, Pinned;
  }

  lemma BeginMarkOk(c: Config, sys: System, t: Id, mark: Action)
    requires SystemOk(c, sys) && Enables(c, sys, BeginMark(t, mark)) && Timely(sys.base, mark)
    ensures var x := Do(c, sys, BeginMark(t, mark)).txs[t];
            TxOk(c, sys.base, x) && x.writes.Keys == {sys.base.workers[mark.w].key} && IsWorkerWrite(mark) && IsLive(sys.base, {}, mark.w)
  {
    hide WellFormed, Enabled, Moves, Exclusive, CountersExact, Apart;
    var s := sys.base;
    MarkTarget(c, s, mark);
    MarkedWorker(c, s, mark);
  }

  lemma MarkedWorker(c: Config, s: State, mark: Action)
    requires WellFormed(c, s) && Enabled(c, s, mark) && (mark.MarkSent? || mark.MarkFailed?)
    ensures mark.at <= s.now && IsFlying(s, mark.w)
    ensures var x := s.workers[mark.w]; x.key in s.db.deliveries && s.db.deliveries[x.key].requestId == x.requestId
    ensures forall k :: k in Moves(c, s, mark) && k in s.db.deliveries ==>
                          MoveRow(s.db.deliveries[k], Moves(c, s, mark)[k]).requestId == s.db.deliveries[k].requestId
  {
    hide SeenIds, FreshItem;
    assert WorkerOk(c, s.db.deliveries, s.workers[mark.w]);
  }

  lemma BeginMarkApart(c: Config, sys: System, t: Id, mark: Action, u: Id)
    requires SystemOk(c, sys) && Enables(c, sys, BeginMark(t, mark)) && Timely(sys.base, mark) && u in sys.txs
    ensures var x := Do(c, sys, BeginMark(t, mark)).txs[t]; Apart(sys.base.db, x, sys.txs[u]) && Apart(sys.base.db, sys.txs[u], x)
  {
    hide WellFormed, Exclusive, CountersExact, Enabled, Moves, TxOk, WriteAll;
    BeginMarkOk(c, sys, t, mark);
    assert sys.base.workers[mark.w].key !in sys.txs[u].writes;
  }

  lemma BeginMarkShape(c: Config, sys: System, t: Id, mark: Action)
    requires SystemOk(c, sys) && Enables(c, sys, BeginMark(t, mark)) && IsLive(sys.base, {}, mark.w)
    ensures var next := Do(c, sys, BeginMark(t, mark));
            && t in next.txs && next == sys.(txs := sys.txs[t := next.txs[t]]) && Exclusive(sys.base, Pinned(next.txs))
  {
    var next := Do(c, sys, BeginMark(t, mark));
    assert Pinned(next.txs) == Pinned(sys.txs) + {mark.w} by {
      PinnedWith(sys.txs, t, next.txs[t]);
    }
    MorePinned(sys.base, Pinned(sys.txs), mark.w);
  }

  /** The pinned workers after adding or replacing one transaction. */
  lemma PinnedWith(txs: map<Id, Tx>, t: Id, x: Tx)
    requires t in txs ==> x.kind == txs[t].kind
    ensures Pinned(txs[t := x]) == Pinned(txs) + (if x.kind.MarkTx? && IsWorkerWrite(x.kind.a) then {x.kind.a.w} else {})
  {
    var next := txs[t := x];
    forall w | w in Pinned(txs) ensures w in Pinned(next) {
      var u :| u in txs && txs[u].kind.MarkTx? && IsWorkerWrite(txs[u].kind.a) && txs[u].kind.a.w == w;
      assert u in next && next[u].kind == txs[u].kind;
    }
    assert t in next && next[t] == x;
  }

  lemma BeginMarkKeepsOk(c: Config, sys: System, t: Id, mark: Action)
    requires SystemOk(c, sys) && Enables(c, sys, BeginMark(t, mark)) && Timely(sys.base, mark)
    ensures SystemOk(c, Do(c, sys, BeginMark(t, mark)))
  {
    hide *;
    BeginMarkOk(c, sys, t, mark);
    BeginMarkShape(c, sys, t, mark);
    var x := Do(c, sys, BeginMark(t, mark)).txs[t];
    forall u | u in sys.txs && u != t ensures Apart(sys.base.db, x, sys.txs[u]) && Apart(sys.base.db, sys.txs[u], x) {
      BeginMarkApart(c, sys, t, mark, u);
    }
    TxUpdate(c, sys, t, x);
  }

  lemma MorePinned(s: State, pinned: set<Id>, w: Id)
    requires Exclusive(s, pinned) && IsLive(s, {}, w)
    ensures Exclusive(s, pinned + {w})
  {
    assert forall v :: IsLive(s, pinned + {w}, v) ==> IsLive(s, pinned, v);
  }

  /** The statements that only change the transaction's own record. */
  predicate IsTxStatement(st: Statement)
  {
    st.BeginCancel? || st.CancelRows? || st.LockRequest? || st.ReadStatuses? || st.UpdateBatch?
  }

  lemma TxStatementKeepsOk(c: Config, sys: System, st: Statement)
    requires SystemOk(c, sys) && Enables(c, sys, st) && IsTxStatement(st)
    ensures SystemOk(c, Do(c, sys, st))
  {
    var x := Do(c, sys, st).txs[st.t];
    TxStatementShape(c, sys, st);
    TxStatementOk(c, sys, st);
    hide WellFormed, Exclusive, CountersExact, TxOk, Enables, Do, Apart, Pinned;
    forall u | u in sys.txs && u != st.t ensures Apart(sys.base.db, x, sys.txs[u]) && Apart(sys.base.db, sys.txs[u], x) {
      TxStatementApart(c, sys, st, u);
    }
    TxUpdate(c, sys, st.t, x);
  }

  lemma TxStatementShape(c: Config, sys: System, st: Statement)
    requires Enables(c, sys, st) && IsTxStatement(st)
    ensures var next := Do(c, sys, st);
            && st.t in next.txs && next == sys.(txs := sys.txs[st.t := next.txs[st.t]]) && Pinned(next.txs) == Pinned(sys.txs)
  {
    var x := Do(c, sys, st).txs[st.t];
    PinnedWith(sys.txs, st.t, x);
    if st.t in sys.txs && x.kind.MarkTx? && IsWorkerWrite(x.kind.a) {
      assert sys.txs[st.t].kind == x.kind && x.kind.a.w in Pinned(sys.txs);
    }
  }

  lemma TxStatementOk(c: Config, sys: System, st: Statement)
    requires SystemOk(c, sys) && Enables(c, sys, st) && IsTxStatement(st)
    ensures TxOk(c, sys.base, Do(c, sys, st).txs[st.t])
  {
    hide WellFormed, Exclusive, CountersExact, Enabled, Moves, AdjustCounters, Aggregate, TxOk;
    if !st.BeginCancel? {
      assert TxOk(c, sys.base, sys.txs[st.t]);
    }
    match st
    case BeginCancel(t, r) => BeginCancelOk(c, sys, t, r);
    case CancelRows(t) => CancelRowsOk(c, sys, t);
    case LockRequest(t) => LockRequestOk(c, sys, t);
    case ReadStatuses(t) => ReadStatusesOk(c, sys, t);
    case UpdateBatch(t) => UpdateBatchOk(c, sys, t);
  }

  lemma BeginCancelOk(c: Config, sys: System, t: Id, r: Id)
    requires Enables(c, sys, BeginCancel(t, r))
    ensures TxOk(c, sys.base, Do(c, sys, BeginCancel(t, r)).txs[t])
  {
  }

  lemma CancelRowsOk(c: Config, sys: System, t: Id)
    requires Enables(c, sys, CancelRows(t)) && WellFormed(c, sys.base) && TxOk(c, sys.base, sys.txs[t])
    ensures TxOk(c, sys.base, Do(c, sys, CancelRows(t)).txs[t])
  {
    hide Enabled, Moves, Aggregate, WellFormed, WriteAll, CancelMoves, StatusesOf;
    WellFormedRows(c, sys.base);
    CancelWrites(c, sys.base.db.deliveries, sys.txs[t].requestId, sys.txs[t].at);
  }

  lemma WellFormedRows(c: Config, s: State)
    requires WellFormed(c, s)
    ensures RowsOk(c, s.db.deliveries)
  {
  }

  /** A cancel's UPDATE writes every cancellable row; the open rows it leaves are PROCESSING, so they were claimed. */
  lemma CancelWrites(c: Config, ds: Deliveries, r: Id, at: Time)
    requires RowsOk(c, ds)
    ensures var writes := WriteAll(ds, CancelMoves(ds, r, at));
            && writes.Keys == Cancellable(ds, r)
            && (forall k :: k in writes ==> writes[k] == MoveRow(ds[k], Cancel(at)) && writes[k].requestId == r)
            && (forall k :: k in KeysOf(ds, r) && k !in writes && !ds[k].status.IsTerminal() ==>
                              ds[k].status.Processing? && ds[k].history.claims > 0)
  {
    assert forall k :: k in ds ==> RowOk(c, ds[k]);
  }

  lemma LockRequestOk(c: Config, sys: System, t: Id)
    requires Enables(c, sys, LockRequest(t)) && TxOk(c, sys.base, sys.txs[t])
    ensures TxOk(c, sys.base, Do(c, sys, LockRequest(t)).txs[t])
  {
    hide Enabled, Moves;
  }

  lemma ReadStatusesOk(c: Config, sys: System, t: Id)
    requires Enables(c, sys, ReadStatuses(t)) && TxOk(c, sys.base, sys.txs[t])
    ensures TxOk(c, sys.base, Do(c, sys, ReadStatuses(t)).txs[t])
  {
    hide Enabled, Moves, Aggregate;
  }

  lemma UpdateBatchOk(c: Config, sys: System, t: Id)
    requires Enables(c, sys, UpdateBatch(t)) && TxOk(c, sys.base, sys.txs[t])
    ensures TxOk(c, sys.base, Do(c, sys, UpdateBatch(t)).txs[t])
  {
    hide Enabled, Moves, Aggregate, AdjustCounters;
  }

  lemma TxStatementApart(c: Config, sys: System, st: Statement, u: Id)
    requires SystemOk(c, sys) && Enables(c, sys, st) && IsTxStatement(st) && u in sys.txs && u != st.t
    ensures var x := Do(c, sys, st).txs[st.t]; Apart(sys.base.db, x, sys.txs[u]) && Apart(sys.base.db, sys.txs[u], x)
  {
    hide WellFormed, Exclusive, CountersExact, Enabled, Moves, AdjustCounters, Aggregate, TxOk;
    if !st.BeginCancel? {
      assert Apart(sys.base.db, sys.txs[st.t], sys.txs[u]) && Apart(sys.base.db, sys.txs[u], sys.txs[st.t]);
    }
  }

  // ---- Commit and rollback ----

  /** Rows of one request do not show in the aggregate of another. */
  lemma ForeignWritesKeepAggregate(ds: Deliveries, x: Tx, y: Tx)
    requires x.requestId != y.requestId
    requires forall k :: k in x.writes ==> k in KeysOf(ds, x.requestId) && x.writes[k].requestId == x.requestId
    requires forall k :: k in y.writes ==> k in KeysOf(ds, y.requestId) && y.writes[k].requestId == y.requestId
    ensures Aggregate(StatusesOf(Overlay(Overlay(ds, x), y), y.requestId)) == Aggregate(StatusesOf(Overlay(ds, y), y.requestId))
  {
    hide Aggregate, StatusesOf, Overlay, KeysOf;
    ForeignWritesKeepRows(ds, x, y);
    AggregateUnmoved(Overlay(ds, y), Overlay(Overlay(ds, x), y), y.requestId);
  }

  lemma ForeignWritesKeepRows(ds: Deliveries, x: Tx, y: Tx)
    requires x.requestId != y.requestId
    requires forall k :: k in x.writes ==> k in KeysOf(ds, x.requestId) && x.writes[k].requestId == x.requestId
    requires forall k :: k in y.writes ==> k in KeysOf(ds, y.requestId) && y.writes[k].requestId == y.requestId
    ensures var before, after := Overlay(ds, y), Overlay(Overlay(ds, x), y);
            KeysOf(before, y.requestId) == KeysOf(after, y.requestId)
            && forall k :: k in KeysOf(before, y.requestId) ==> k in before && k in after && after[k] == before[k]
  {
    assert forall k :: k in ds && ds[k].requestId == y.requestId ==> k !in x.writes;
  }

  /** A commit leaves what the other open transactions read true. */
  lemma CommitKeepsReads(db: DB, x: Tx, y: Tx)
    requires ReadsOk(db, x) && x.seen.Some? && ReadsOk(db, y) && Apart(db, x, y)
    ensures ReadsOk(CommitDB(db, x), y) && BatchIdOf(CommitDB(db, x), y.requestId) == BatchIdOf(db, y.requestId)
  {
    hide Aggregate, StatusesOf, AdjustCounters;
    if y.locked {
      ForeignWritesKeepAggregate(db.deliveries, x, y);
    }
  }

  lemma CommitKeepsRows(db: DB, x: Tx, y: Tx)
    requires ReadsOk(db, x) && ReadsOk(db, y) && x.seen.Some? && Apart(db, x, y)
    ensures var next := CommitDB(db, x);
            && next.requests.Keys == db.requests.Keys
            && forall k :: k in y.writes ==> k in db.deliveries && k in next.deliveries && next.deliveries[k] == db.deliveries[k]
  {
  }

  lemma CommitKeepsMark(c: Config, s: State, x: Tx, y: Tx)
    requires WellFormed(c, s) && TxOk(c, s, x) && TxOk(c, s, y) && x.seen.Some? && Apart(s.db, x, y)
    requires x.kind.MarkTx? ==> IsWorkerWrite(x.kind.a)
    ensures var u := s.(db := CommitDB(s.db, x), workers := Released(s.workers, x)); MarkOk(c, u, y)
  {
    hide Enabled, Moves, WellFormed, CommitDB, CancelOk;
    var u := s.(db := CommitDB(s.db, x), workers := Released(s.workers, x));
    if y.kind.MarkTx? {
      var mark := y.kind.a;
      CommitKeepsRows(s.db, x, y);
      MarkTarget(c, s, mark);
      assert u.workers[mark.w] == s.workers[mark.w];
      MarkStays(c, s, u, mark);
      SameWrites(s.db.deliveries, u.db.deliveries, Moves(c, s, mark), s.workers[mark.w].key);
    }
  }

  lemma CommitKeepsCancel(db: DB, s: State, x: Tx, y: Tx)
    requires s.db == db && ReadsOk(db, x) && ReadsOk(db, y) && CancelOk(s, y) && x.seen.Some? && Apart(db, x, y)
    ensures CancelOk(s.(db := CommitDB(db, x), workers := Released(s.workers, x)), y)
  {
    hide CommitDB, ReadsOk, Released, OthersWereClaimed;
    CommitKeepsRows(db, x, y);
    if y.kind.CancelTx? {
      CommitKeepsClaimed(db, x, y);
    }
  }

  lemma CommitKeepsClaimed(db: DB, x: Tx, y: Tx)
    requires ReadsOk(db, x) && ReadsOk(db, y) && x.seen.Some? && y.locked && Apart(db, x, y)
    requires y.writes != map[] ==> OthersWereClaimed(db.deliveries, y)
    ensures y.writes != map[] ==> OthersWereClaimed(CommitDB(db, x).deliveries, y)
  {
    hide Aggregate, StatusesOf;
  }

  lemma CommitKeepsTx(c: Config, sys: System, t: Id, v: Id)
    requires SystemOk(c, sys) && Enables(c, sys, Commit(t)) && v in sys.txs && v != t
    ensures sys.txs[t].requestId in sys.base.db.requests && TxOk(c, Do(c, sys, Commit(t)).base, sys.txs[v])
    ensures BatchIdOf(Do(c, sys, Commit(t)).base.db, sys.txs[v].requestId) == BatchIdOf(sys.base.db, sys.txs[v].requestId)
  {
    hide WellFormed, Exclusive, CountersExact, MarkOk, CancelOk, ReadsOk, CommitDB, Released, Owned, Apart;
    CommitFacts(c, sys, t);
    assert TxOk(c, sys.base, sys.txs[v]) && Apart(sys.base.db, sys.txs[t], sys.txs[v]);
    if sys.txs[t].kind.MarkTx? {
      PinnedOwns(c, sys, t);
    }
    CommitKeepsMark(c, sys.base, sys.txs[t], sys.txs[v]);
    CommitKeepsCancel(sys.base.db, sys.base, sys.txs[t], sys.txs[v]);
    CommitKeepsReads(sys.base.db, sys.txs[t], sys.txs[v]);
  }

  lemma PinnedShrinks(txs: map<Id, Tx>, t: Id)
    ensures Pinned(txs - {t}) <= Pinned(txs)
  {
  }

  /** Closing one transaction over a new committed state. */
  lemma TxEnd(c: Config, sys: System, t: Id, base: State)
    requires SystemOk(c, sys)
    requires WellFormed(c, base) && CountersExact(base.db) && Exclusive(base, Pinned(sys.txs - {t}))
    requires forall v :: v in sys.txs && v != t ==>
                           TxOk(c, base, sys.txs[v]) && BatchIdOf(base.db, sys.txs[v].requestId) == BatchIdOf(sys.base.db, sys.txs[v].requestId)
    ensures SystemOk(c, System(base, sys.txs - {t}))
  {
    hide WellFormed, Exclusive, CountersExact, TxOk, BatchIdOf, Pinned;
  }

  lemma BaseStepKeeps(c: Config, sys: System, a: Action, t: Id)
    requires SystemOk(c, sys) && Enabled(c, sys.base, a) && !a.ReapStuck?
    requires IsWorkerWrite(a) ==> IsLive(sys.base, Pinned(sys.txs), a.w)
    ensures var u := Apply(c, sys.base, a); WellFormed(c, u) && CountersExact(u.db) && Exclusive(u, Pinned(sys.txs - {t}))
  {
    StepKeepsWellFormed(c, sys.base, a);
    StepKeepsCounters(c, sys.base, a);
    StepKeepsExclusive(c, sys.base, a, Pinned(sys.txs));
    PinnedShrinks(sys.txs, t);
    FewerPinned(Apply(c, sys.base, a), Pinned(sys.txs), Pinned(sys.txs - {t}));
  }

  lemma CommitIsLive(c: Config, sys: System, t: Id)
    requires SystemOk(c, sys) && Enables(c, sys, Commit(t))
    ensures var a := CommitAction(sys.base, sys.txs[t]);
            !a.ReapStuck? && (IsWorkerWrite(a) ==> IsLive(sys.base, Pinned(sys.txs), a.w))
  {
    var x := sys.txs[t];
    if x.kind.MarkTx? {
      PinnedOwns(c, sys, t);
      assert TxOk(c, sys.base, x);
    }
  }

  lemma CommitKeepsOk(c: Config, sys: System, t: Id)
    requires SystemOk(c, sys) && Enables(c, sys, Commit(t))
    ensures t in sys.txs && sys.txs[t].requestId in sys.base.db.requests && SystemOk(c, Do(c, sys, Commit(t)))
  {
    CommitIsAtomic(c, sys, t);
    CommitIsLive(c, sys, t);
    var base := Do(c, sys, Commit(t)).base;
    assert Do(c, sys, Commit(t)) == System(base, sys.txs - {t});
    BaseStepKeeps(c, sys, CommitAction(sys.base, sys.txs[t]), t);
    forall v | v in sys.txs && v != t
      ensures TxOk(c, base, sys.txs[v]) && BatchIdOf(base.db, sys.txs[v].requestId) == BatchIdOf(sys.base.db, sys.txs[v].requestId)
    {
      CommitKeepsTx(c, sys, t, v);
    }
    TxEnd(c, sys, t, base);
  }

  lemma RollbackKeepsTx(c: Config, sys: System, t: Id, v: Id)
    requires SystemOk(c, sys) && Enables(c, sys, Rollback(t)) && v in sys.txs && v != t
    ensures TxOk(c, Do(c, sys, Rollback(t)).base, sys.txs[v])
  {
    var s, x, y := sys.base, sys.txs[t], sys.txs[v];
    assert TxOk(c, s, y) && Apart(s.db, x, y);
    RollbackShape(c, sys, t);
    WorkersGone(c, s, x, y);
  }

  lemma WorkersGone(c: Config, s: State, x: Tx, y: Tx)
    requires TxOk(c, s, y) && Apart(s.db, x, y)
    ensures TxOk(c, s.(workers := Released(s.workers, x)), y)
  {
    var u := s.(workers := Released(s.workers, x));
    if y.kind.MarkTx? {
      MarkStays(c, s, u, y.kind.a);
    }
  }

  lemma RollbackKeepsOk(c: Config, sys: System, t: Id)
    requires SystemOk(c, sys) && Enables(c, sys, Rollback(t))
    ensures SystemOk(c, Do(c, sys, Rollback(t)))
  {
    RollbackIsCrash(c, sys, t);
    var x, base := sys.txs[t], Do(c, sys, Rollback(t)).base;
    assert Do(c, sys, Rollback(t)) == System(base, sys.txs - {t}) && base.db == sys.base.db;
    if x.kind.MarkTx? {
      BaseStepKeeps(c, sys, Crash(x.kind.a.w), t);
    } else {
      PinnedShrinks(sys.txs, t);
      FewerPinned(sys.base, Pinned(sys.txs), Pinned(sys.txs - {t}));
    }
    hide WellFormed, Exclusive, CountersExact, TxOk, Apply, Enabled, Pinned, Do, BatchIdOf, Apart;
    forall v | v in sys.txs && v != t ensures TxOk(c, base, sys.txs[v]) {
      RollbackKeepsTx(c, sys, t, v);
    }
    TxEnd(c, sys, t, base);
  }

  // ---- Refinement ----

  ghost predicate SystemRun(c: Config, sys: System, sts: seq<Statement>, end: System)
    decreases |sts|
  {
    if sts == [] then end == sys
    else Enables(c, sys, sts[0]) && SystemRun(c, Do(c, sys, sts[0]), sts[1..], end)
  }

  ghost predicate TimelySystemRun(c: Config, sys: System, sts: seq<Statement>)
    decreases |sts|
  {
    sts != [] ==> Enables(c, sys, sts[0]) && InTime(sys, sts[0]) && TimelySystemRun(c, Do(c, sys, sts[0]), sts[1..])
  }

  /** The atomic steps a statement stands for: one for a commit, none while nothing becomes visible. */
  function AtomicSteps(sys: System, st: Statement): seq<Action>
    requires (st.Commit? || st.Rollback?) ==> st.t in sys.txs
  {
    match st
    case Atomic(a) => [a]
    case Commit(t) => [CommitAction(sys.base, sys.txs[t])]
    case Rollback(t) =>
      var k := sys.txs[t].kind;
      if k.MarkTx? && IsWorkerWrite(k.a) then [Crash(k.a.w)] else []
    case _ => []
  }

  lemma StatementRefines(c: Config, sys: System, st: Statement)
    requires SystemOk(c, sys) && Enables(c, sys, st) && InTime(sys, st)
    ensures SystemOk(c, Do(c, sys, st)) && (st.Commit? || st.Rollback? ==> st.t in sys.txs)
    ensures var acts := AtomicSteps(sys, st);
            Run(c, sys.base, acts, Do(c, sys, st).base) && DisciplinedRun(c, sys.base, acts)
  {
    hide SystemOk, Enabled, Disciplined, Apply, CommitAction;
    var acts := AtomicSteps(sys, st);
    match st
    case Atomic(a) =>
      AtomicKeepsOk(c, sys, a);
      OneStep(c, sys.base, a);
    case Commit(t) =>
      CommitKeepsOk(c, sys, t);
      CommitIsAtomic(c, sys, t);
      OneStep(c, sys.base, CommitAction(sys.base, sys.txs[t]));
    case Rollback(t) =>
      RollbackKeepsOk(c, sys, t);
      RollbackIsCrash(c, sys, t);
      if acts != [] {
        assert Disciplined(sys.base, acts[0]) by { CrashIsDisciplined(sys.base, acts[0]); }
        OneStep(c, sys.base, acts[0]);
      }
    case BeginMark(t, mark) => BeginMarkKeepsOk(c, sys, t, mark);
    case _ => TxStatementKeepsOk(c, sys, st);
  }

  lemma CrashIsDisciplined(s: State, a: Action)
    requires a.Crash?
    ensures Disciplined(s, a)
  {
  }

  lemma OneStep(c: Config, s: State, a: Action)
    requires Enabled(c, s, a) && Disciplined(s, a)
    ensures Run(c, s, [a], Apply(c, s, a)) && DisciplinedRun(c, s, [a])
  {
    hide Enabled, Disciplined, Apply;
    assert [a][1..] == [];
    assert Run(c, Apply(c, s, a), [], Apply(c, s, a)) && DisciplinedRun(c, Apply(c, s, a), []);
  }

  lemma {:induction false} DisciplinedConcat(c: Config, s: State, first: seq<Action>, m: State, second: seq<Action>)
    requires Run(c, s, first, m) && DisciplinedRun(c, s, first) && DisciplinedRun(c, m, second)
    ensures DisciplinedRun(c, s, first + second)
    decreases |first|
  {
    hide Enabled, Disciplined, Apply;
    if first == [] {
      assert first + second == second;
    } else {
      DisciplinedConcat(c, Apply(c, s, first[0]), first[1..], m, second);
      assert (first + second)[0] == first[0] && (first + second)[1..] == first[1..] + second;
    }
  }

  /** Refinement: what any interleaving of timely statements commits is a disciplined run of the atomic protocol. */
  lemma {:induction false} StatementsRefineAtomic(c: Config, sys: System, sts: seq<Statement>, end: System) returns (acts: seq<Action>)
    requires SystemOk(c, sys) && SystemRun(c, sys, sts, end) && TimelySystemRun(c, sys, sts)
    ensures SystemOk(c, end)
    ensures Run(c, sys.base, acts, end.base) && DisciplinedRun(c, sys.base, acts)
    decreases |sts|
  {
    hide SystemOk, Enabled, Disciplined, Apply, Do, Enables;
    if sts == [] {
      acts := [];
    } else {
      StatementRefines(c, sys, sts[0]);
      var m := Do(c, sys, sts[0]);
      var rest := StatementsRefineAtomic(c, m, sts[1..], end);
      acts := AtomicSteps(sys, sts[0]) + rest;
      RunConcat(c, sys.base, AtomicSteps(sys, sts[0]), m.base, rest, end.base);
      DisciplinedConcat(c, sys.base, AtomicSteps(sys, sts[0]), m.base, rest);
    }
  }

  /** So in every committed state each request shows the aggregate of its committed deliveries and the counters are exact. */
  lemma CommittedStatesAgree(c: Config, sys: System, sts: seq<Statement>, end: System)
    requires SystemOk(c, sys) && SystemRun(c, sys, sts, end) && TimelySystemRun(c, sys, sts) && Agrees(sys.base.db)
    ensures Agrees(end.base.db) && CountersExact(end.base.db)
    ensures forall k :: k in sys.base.db.deliveries && sys.base.db.deliveries[k].status.IsTerminal() ==>
                          k in end.base.db.deliveries && end.base.db.deliveries[k] == sys.base.db.deliveries[k]
  {
    var acts := StatementsRefineAtomic(c, sys, sts, end);
    RequestStatusAgrees(c, sys.base, acts, end.base);
    BatchCountersAreExact(c, sys.base, acts, end.base);
    forall k | k in sys.base.db.deliveries && sys.base.db.deliveries[k].status.IsTerminal()
      ensures k in end.base.db.deliveries && end.base.db.deliveries[k] == sys.base.db.deliveries[k]
    {
      TerminalRowsAreFinal(c, sys.base, acts, end.base, k);
    }
  }
}
