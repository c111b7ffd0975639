/** What the row locks alone keep: exact batch counters, with statements interleaved and no timing assumption. */
module Locks {
  import opened Domain
  import opened Database
  import opened Lifecycle
  import opened Requests
  import opened Transactions

  /** A locked request still has the status that was read, and an updated batch copy is based on the committed row. */
  ghost predicate HoldsLocks(db: DB, x: Tx)
  {
    && x.requestId in db.requests
    && (x.locked ==> x.was == db.requests[x.requestId].status)
    && (x.seen.Some? ==> x.locked)
    && (x.batch.Some? ==>
          NeedsBatch(db, x) && x.batch.value == AdjustCounters(db.batches[BatchIdOf(db, x.requestId).value], x.was, x.seen.value))
  }

  /** No two transactions hold the same request or the same batch. */
  predicate LocksApart(db: DB, x: Tx, y: Tx)
  {
    && (x.locked && y.locked ==> x.requestId != y.requestId)
    && (x.batch.Some? && y.batch.Some? ==> BatchIdOf(db, x.requestId) != BatchIdOf(db, y.requestId))
  }

  ghost predicate LocksOk(sys: System)
  {
    && CountersExact(sys.base.db)
    && (forall t :: t in sys.txs ==> HoldsLocks(sys.base.db, sys.txs[t]))
    && (forall t, u :: t in sys.txs && u in sys.txs && t != u ==> LocksApart(sys.base.db, sys.txs[t], sys.txs[u]))
  }

  /** Locks carry over to a database with the same requests and batches. */
  lemma LocksCarryOver(db: DB, next: DB, x: Tx)
    requires HoldsLocks(db, x) && CountersExact(db)
    requires forall r :: r in db.requests ==> r in next.requests && next.requests[r] == db.requests[r]
    requires forall b :: b in db.batches ==> b in next.batches && next.batches[b] == db.batches[b]
    ensures HoldsLocks(next, x) && BatchIdOf(next, x.requestId) == BatchIdOf(db, x.requestId)
  {
    hide AdjustCounters, CountersOf;
  }

  lemma AtomicKeepsLocks(c: Config, sys: System, a: Action)
    requires LocksOk(sys) && Enables(c, sys, Atomic(a))
    ensures LocksOk(Do(c, sys, Atomic(a)))
  {
    hide Enabled, Apply, NextDB, CountersExact, HoldsLocks, BatchIdOf, Moves, IsFinal, RowFree, WorkerFree;
    AtomicKeepsRequests(c, sys.base, a);
    StepKeepsCounters(c, sys.base, a);
    ApplyParts(c, sys.base, a);
    forall t | t in sys.txs
      ensures HoldsLocks(NextDB(c, sys.base, a), sys.txs[t])
      ensures BatchIdOf(NextDB(c, sys.base, a), sys.txs[t].requestId) == BatchIdOf(sys.base.db, sys.txs[t].requestId)
    {
      LocksCarryOver(sys.base.db, NextDB(c, sys.base, a), sys.txs[t]);
    }
  }

  /** The statements before the commit change the transaction's own record only, and respect the locks of the others. */
  lemma OwnStatementKeepsLocks(c: Config, sys: System, st: Statement)
    requires LocksOk(sys) && Enables(c, sys, st) && (st.BeginMark? || IsTxStatement(st))
    ensures LocksOk(Do(c, sys, st))
  {
    hide CountersExact, AdjustCounters, Enabled, Moves, WriteAll, CancelMoves, Aggregate, StatusesOf;
    var next := Do(c, sys, st);
    var x := next.txs[st.t];
    OwnStatementHolds(c, sys, st);
    forall u | u in sys.txs && u != st.t ensures LocksApart(sys.base.db, x, sys.txs[u]) && LocksApart(sys.base.db, sys.txs[u], x) {
      if st.t in sys.txs {
        assert LocksApart(sys.base.db, sys.txs[st.t], sys.txs[u]) && LocksApart(sys.base.db, sys.txs[u], sys.txs[st.t]);
      }
    }
  }

  lemma OwnStatementHolds(c: Config, sys: System, st: Statement)
    requires LocksOk(sys) && Enables(c, sys, st) && (st.BeginMark? || IsTxStatement(st))
    ensures var next := Do(c, sys, st);
            st.t in next.txs && next == sys.(txs := sys.txs[st.t := next.txs[st.t]]) && HoldsLocks(sys.base.db, next.txs[st.t])
  {
    hide CountersExact, AdjustCounters, Moves, WriteAll, CancelMoves, Aggregate, StatusesOf, SeenIds, FreshItem, Picked;
    if st.t in sys.txs {
      assert HoldsLocks(sys.base.db, sys.txs[st.t]);
    }
  }

  /** A commit moves one request between buckets and its batch with it: the counters stay exact, whatever was aggregated. */
  lemma CommitKeepsExact(db: DB, x: Tx)
    requires CountersExact(db) && HoldsLocks(db, x) && x.seen.Some? && (NeedsBatch(db, x) ==> x.batch.Some?)
    ensures CountersExact(CommitDB(db, x))
  {
    hide AdjustCounters, CountersOf, Overlay;
    var next, r, status := CommitDB(db, x), x.requestId, x.seen.value;
    if status != x.was {
      forall b | b in next.batches ensures CountersOf(next.requests, b, next.batches[b]) {
        if db.requests[r].batchId == Some(b) {
          AdjustIsExact(db.requests, r, status, b, db.batches[b]);
        } else {
          OthersKeepCounters(db.requests, r, status, b, db.batches[b]);
        }
      }
    }
  }

  lemma CommitKeepsOthers(db: DB, x: Tx, y: Tx)
    requires HoldsLocks(db, x) && HoldsLocks(db, y) && LocksApart(db, x, y) && x.seen.Some?
    ensures HoldsLocks(CommitDB(db, x), y) && BatchIdOf(CommitDB(db, x), y.requestId) == BatchIdOf(db, y.requestId)
  {
    hide AdjustCounters, Overlay;
  }

  lemma EndKeepsLocks(c: Config, sys: System, st: Statement)
    requires LocksOk(sys) && Enables(c, sys, st) && (st.Commit? || st.Rollback?)
    ensures LocksOk(Do(c, sys, st))
  {
    hide CountersExact, HoldsLocks, CommitDB, BatchIdOf, NeedsBatch, Released;
    var x := sys.txs[st.t];
    if st.Commit? {
      CommitKeepsExact(sys.base.db, x);
      forall u | u in sys.txs && u != st.t
        ensures HoldsLocks(CommitDB(sys.base.db, x), sys.txs[u])
        ensures BatchIdOf(CommitDB(sys.base.db, x), sys.txs[u].requestId) == BatchIdOf(sys.base.db, sys.txs[u].requestId)
      {
        CommitKeepsOthers(sys.base.db, x, sys.txs[u]);
      }
    }
  }

  /**
   * In every committed state the counters are exact, however late the workers are: the locked request pins the status a
   * transaction moves from, and the locked batch row the counters it adjusts.
   */
  lemma {:induction false} LocksKeepCounters(c: Config, sys: System, sts: seq<Statement>, end: System)
    requires LocksOk(sys) && SystemRun(c, sys, sts, end)
    ensures LocksOk(end) && CountersExact(end.base.db) && AllCounted(end.base.db)
    decreases |sts|
  {
    hide CountersExact, AllCounted, HoldsLocks, LocksApart, Do, Enables;
    if sts == [] {
      ExactCountsRequests(sys.base.db);
    } else {
      var st := sts[0];
      if st.Atomic? {
        AtomicKeepsLocks(c, sys, st.a);
      } else if st.Commit? || st.Rollback? {
        EndKeepsLocks(c, sys, st);
      } else {
        OwnStatementKeepsLocks(c, sys, st);
      }
      LocksKeepCounters(c, Do(c, sys, st), sts[1..], end);
    }
  }
}
