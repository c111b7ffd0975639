/** Which deliveries a cancel can miss: at statement level, and in every state the API can build up. */
module Cancels {
  import opened Domain
  import opened Database
  import opened Lifecycle
  import opened Integrity
  import opened Leases
  import opened Requests
  import opened Transactions

  // ---- A request keeps its rows ----

  lemma StepKeepsRequestIds(c: Config, s: State, a: Action)
    requires Enabled(c, s, a)
    ensures s.db.requests.Keys <= NextDB(c, s, a).requests.Keys
  {
    hide Moves, ApplyMoves, Recompute;
    if IsFinal(a) {
      var moved := s.db.(deliveries := ApplyMoves(s.db.deliveries, Moves(c, s, a)));
      StepHasRequest(c, s, a);
      RecomputeFrame(moved, FinalRequest(s, a));
    } else {
      AtomicKeepsRequests(c, s, a);
    }
  }

  lemma StepKeepsFamily(c: Config, s: State, a: Action, r: Id)
    requires Enabled(c, s, a) && r in s.db.requests
    ensures KeysOf(NextDB(c, s, a).deliveries, r) == KeysOf(s.db.deliveries, r)
  {
    hide Enabled, NextDB, Moves;
    StepRows(c, s, a);
    StepNewRows(c, s, a);
  }

  /** A stored request gains and loses no delivery. */
  lemma {:induction false} RunKeepsFamily(c: Config, s: State, acts: seq<Action>, t: State, r: Id)
    requires Run(c, s, acts, t) && r in s.db.requests
    ensures r in t.db.requests && KeysOf(t.db.deliveries, r) == KeysOf(s.db.deliveries, r)
    decreases |acts|
  {
    hide Enabled, NextDB, Apply;
    if acts != [] {
      ApplyParts(c, s, acts[0]);
      StepKeepsRequestIds(c, s, acts[0]);
      StepKeepsFamily(c, s, acts[0], r);
      RunKeepsFamily(c, Apply(c, s, acts[0]), acts[1..], t, r);
    }
  }

  // ---- From the UPDATE of a cancel to its commit ----

  /** The run leaves transaction t open. */
  predicate LeavesOpen(sts: seq<Statement>, t: Id)
  {
    forall i :: 0 <= i < |sts| ==> sts[i] != Commit(t) && sts[i] != Rollback(t)
  }

  /** An open cancel keeps its written rows. */
  lemma {:induction false} WritesPersist(c: Config, sys: System, sts: seq<Statement>, end: System, t: Id)
    requires SystemRun(c, sys, sts, end) && LeavesOpen(sts, t)
    requires t in sys.txs && sys.txs[t].kind.CancelTx? && sys.txs[t].writes != map[]
    ensures t in end.txs && end.txs[t].kind.CancelTx?
    ensures end.txs[t].requestId == sys.txs[t].requestId && end.txs[t].writes == sys.txs[t].writes
    decreases |sts|
  {
    hide Do, Enables;
    if sts != [] {
      WritesPersistOnce(c, sys, sts[0], t);
      WritesPersist(c, Do(c, sys, sts[0]), sts[1..], end, t);
    }
  }

  lemma WritesPersistOnce(c: Config, sys: System, st: Statement, t: Id)
    requires Enables(c, sys, st) && st != Commit(t) && st != Rollback(t)
    requires t in sys.txs && sys.txs[t].kind.CancelTx? && sys.txs[t].writes != map[]
    ensures var next := Do(c, sys, st);
            && t in next.txs && next.txs[t].kind.CancelTx?
            && next.txs[t].requestId == sys.txs[t].requestId && next.txs[t].writes == sys.txs[t].writes
  {
    hide Enabled, Apply, Moves, Aggregate, AdjustCounters;
  }

  /** The rows right after the UPDATE: each open row of the request is written or PROCESSING. */
  lemma UpdateWrites(c: Config, sys: System, t: Id)
    requires SystemOk(c, sys) && Enables(c, sys, CancelRows(t))
    ensures var m, r := Do(c, sys, CancelRows(t)), sys.txs[t].requestId;
            && SystemOk(c, m) && m.base == sys.base && t in m.txs && m.txs[t].kind.CancelTx? && m.txs[t].requestId == r
            && m.txs[t].writes.Keys == Cancellable(sys.base.db.deliveries, r) != {} && r in sys.base.db.requests
            && forall k :: k in KeysOf(sys.base.db.deliveries, r) && k !in m.txs[t].writes ==>
                             sys.base.db.deliveries[k].status.Processing? || sys.base.db.deliveries[k].status.IsTerminal()
  {
    hide WellFormed, Exclusive, CountersExact, WriteAll, CancelMoves, MarkOk, CancelOk, Apart;
    var x := sys.txs[t];
    assert TxOk(c, sys.base, x);
    WellFormedRows(c, sys.base);
    CancelWrites(c, sys.base.db.deliveries, x.requestId, x.at);
    TxStatementKeepsOk(c, sys, CancelRows(t));
  }

  /** What the commit of a cancel leaves: its own rows cancelled, all others as they were. */
  lemma CancelCommits(c: Config, sys: System, t: Id)
    requires SystemOk(c, sys) && Enables(c, sys, Commit(t)) && sys.txs[t].kind.CancelTx?
    ensures var ds, es := sys.base.db.deliveries, Do(c, sys, Commit(t)).base.db.deliveries;
            && (forall k :: k in sys.txs[t].writes ==> k in es && es[k].status.Cancelled?)
            && (forall k :: k in es && k !in sys.txs[t].writes ==> k in ds && es[k] == ds[k])
  {
    hide WellFormed, Exclusive, CountersExact, MarkOk, Apart, Aggregate, StatusesOf, OthersWereClaimed;
    assert TxOk(c, sys.base, sys.txs[t]);
  }

  /**
   * Whatever runs between a cancel's UPDATE and its commit: every delivery that was cancellable then ends CANCELLED, and
   * a delivery of the request that is open after the commit was PROCESSING when the UPDATE ran.
   */
  lemma CancelMissesOnlyProcessing(c: Config, sys: System, t: Id, sts: seq<Statement>, end: System)
    requires SystemOk(c, sys) && Enables(c, sys, CancelRows(t))
    requires var m := Do(c, sys, CancelRows(t)); SystemRun(c, m, sts, end) && TimelySystemRun(c, m, sts)
    requires LeavesOpen(sts, t) && Enables(c, end, Commit(t))
    ensures var ds, es, r := sys.base.db.deliveries, Do(c, end, Commit(t)).base.db.deliveries, sys.txs[t].requestId;
            && (forall k :: k in Cancellable(ds, r) ==> k in es && es[k].status.Cancelled?)
            && (forall k :: k in KeysOf(es, r) && !es[k].status.IsTerminal() ==> k in KeysOf(ds, r) && ds[k].status.Processing?)
  {
    hide SystemOk, Do, SystemRun, TimelySystemRun, Run, DisciplinedRun, WellFormed;
    var m, r := Do(c, sys, CancelRows(t)), sys.txs[t].requestId;
    UpdateWrites(c, sys, t);
    SystemIsWellFormed(c, m);
    WritesPersist(c, m, sts, end, t);
    var acts := StatementsRefineAtomic(c, m, sts, end);
    RunKeepsFamily(c, m.base, acts, end.base, r);
    CancelCommits(c, end, t);
    var ds, es := sys.base.db.deliveries, Do(c, end, Commit(t)).base.db.deliveries;
    forall k | k in KeysOf(es, r) && !es[k].status.IsTerminal() ensures k in KeysOf(ds, r) && ds[k].status.Processing? {
      assert k !in end.txs[t].writes;
      assert k in KeysOf(end.base.db.deliveries, r);
      if ds[k].status.IsTerminal() {
        TerminalRowsAreFinal(c, m.base, acts, end.base, k);
      }
    }
  }

  lemma SystemIsWellFormed(c: Config, sys: System)
    requires SystemOk(c, sys)
    ensures WellFormed(c, sys.base) && c.policy.maxAttempts >= 1
  {
  }

  // ---- The converse: a PROCESSING delivery can be missed ----

  /** Some timely statement run from m leaves transaction t open until it can commit, and its commit leaves an open row of r. */
  ghost predicate CanMiss(c: Config, m: System, t: Id, r: Id)
  {
    exists sts, end ::
      && SystemRun(c, m, sts, end) && TimelySystemRun(c, m, sts) && LeavesOpen(sts, t)
      && Enables(c, end, Commit(t)) && HasOpen(Do(c, end, Commit(t)).base.db.deliveries, r)
  }

  ghost predicate HasOpen(ds: Deliveries, r: Id)
  {
    exists k :: k in KeysOf(ds, r) && !ds[k].status.IsTerminal()
  }

  lemma MissNow(c: Config, m: System, t: Id, r: Id)
    requires Enables(c, m, Commit(t)) && HasOpen(Do(c, m, Commit(t)).base.db.deliveries, r)
    ensures CanMiss(c, m, t, r)
  {
    hide Do, Enables, HasOpen;
    assert SystemRun(c, m, [], m) && TimelySystemRun(c, m, []) && LeavesOpen([], t);
  }

  lemma MissLater(c: Config, m: System, st: Statement, t: Id, r: Id)
    requires Enables(c, m, st) && InTime(m, st) && st != Commit(t) && st != Rollback(t)
    requires CanMiss(c, Do(c, m, st), t, r)
    ensures CanMiss(c, m, t, r)
  {
    hide Do, Enables, HasOpen, InTime;
    var sts, end :|
      && SystemRun(c, Do(c, m, st), sts, end) && TimelySystemRun(c, Do(c, m, st), sts) && LeavesOpen(sts, t)
      && Enables(c, end, Commit(t)) && HasOpen(Do(c, end, Commit(t)).base.db.deliveries, r);
    var all := [st] + sts;
    assert all[0] == st && all[1..] == sts;
    assert forall i :: 0 <= i < |all| ==> all[i] == if i == 0 then st else sts[i - 1];
    assert SystemRun(c, m, all, end) && TimelySystemRun(c, m, all) && LeavesOpen(all, t);
  }

  /** A cancel that has run its UPDATE and nothing more, while k is an open row it did not write. */
  ghost predicate Missing(c: Config, m: System, t: Id, k: Key)
  {
    && SystemOk(c, m) && t in m.txs && m.txs[t].kind.CancelTx? && m.txs[t].locked && m.txs[t].writes != map[]
    && m.txs[t].requestId in m.base.db.requests && m.txs[t].batch.None?
    && k in KeysOf(m.base.db.deliveries, m.txs[t].requestId) && k !in m.txs[t].writes && !m.base.db.deliveries[k].status.IsTerminal()
  }

  /** With the aggregate read and the batch row updated, the commit misses k. */
  lemma CommitMisses(c: Config, m: System, t: Id, k: Key)
    requires Missing(c, m, t, k) && m.txs[t].seen.Some? && (NeedsBatch(m.base.db, m.txs[t]) ==> m.txs[t].batch.Some?)
    ensures CanMiss(c, m, t, m.txs[t].requestId)
  {
    hide SystemOk, Aggregate, StatusesOf;
    var es := Do(c, m, Commit(t)).base.db.deliveries;
    assert k in KeysOf(es, m.txs[t].requestId) && es[k] == m.base.db.deliveries[k];
    MissNow(c, m, t, m.txs[t].requestId);
  }

  /** No one else has a transaction open, so the batch row is free. */
  lemma BatchThenCommit(c: Config, m: System, t: Id, k: Key)
    requires Missing(c, m, t, k) && m.txs[t].seen.Some? && m.txs.Keys == {t}
    ensures CanMiss(c, m, t, m.txs[t].requestId)
  {
    hide SystemOk, Aggregate, StatusesOf, AdjustCounters, CanMiss;
    if NeedsBatch(m.base.db, m.txs[t]) {
      var st := UpdateBatch(t);
      TxStatementKeepsOk(c, m, st);
      var u := Do(c, m, st);
      CommitAfterBatch(c, u, t, k);
      MissLater(c, m, st, t, m.txs[t].requestId);
    } else {
      CommitMisses(c, m, t, k);
    }
  }

  lemma CommitAfterBatch(c: Config, m: System, t: Id, k: Key)
    requires SystemOk(c, m) && t in m.txs && m.txs[t].seen.Some? && m.txs[t].batch.Some? && m.txs[t].requestId in m.base.db.requests
    requires k in KeysOf(m.base.db.deliveries, m.txs[t].requestId) && k !in m.txs[t].writes && !m.base.db.deliveries[k].status.IsTerminal()
    ensures CanMiss(c, m, t, m.txs[t].requestId)
  {
    hide SystemOk, Aggregate, StatusesOf;
    var es := Do(c, m, Commit(t)).base.db.deliveries;
    assert k in KeysOf(es, m.txs[t].requestId) && es[k] == m.base.db.deliveries[k];
    MissNow(c, m, t, m.txs[t].requestId);
  }

  /** The cancel reads its statuses with k open, and goes on to its commit. */
  lemma ReadThenCommit(c: Config, m: System, t: Id, k: Key)
    requires Missing(c, m, t, k) && m.txs[t].seen.None? && m.txs.Keys == {t}
    ensures CanMiss(c, m, t, m.txs[t].requestId)
  {
    hide SystemOk, Aggregate, StatusesOf, CanMiss;
    var st := ReadStatuses(t);
    TxStatementKeepsOk(c, m, st);
    var u := Do(c, m, st);
    BatchThenCommit(c, u, t, k);
    MissLater(c, m, st, t, m.txs[t].requestId);
  }

  /** A transaction that has not been opened since its UPDATE: what the construction below keeps about it. */
  ghost predicate Updated(c: Config, m: System, t: Id)
  {
    && SystemOk(c, m) && t in m.txs && m.txs[t].kind.CancelTx? && m.txs[t].locked && m.txs[t].writes != map[]
    && m.txs[t].requestId in m.base.db.requests && m.txs[t].batch.None? && m.txs[t].seen.None?
  }

  predicate IsProcessingRow(m: System, r: Id, k: Key)
  {
    k in KeysOf(m.base.db.deliveries, r) && m.base.db.deliveries[k].status.Processing?
  }

  /** A cancel writes no PROCESSING row. */
  lemma ProcessingIsUnwritten(c: Config, m: System, t: Id, k: Key)
    requires Updated(c, m, t) && k in m.base.db.deliveries && m.base.db.deliveries[k].status.Processing?
    ensures k !in m.txs[t].writes
  {
    assert TxOk(c, m.base, m.txs[t]);
  }

  lemma ReapShape(c: Config, s: State)
    ensures Enabled(c, s, ReapStuck) && Moves(c, s, ReapStuck) == ReapMoves(s.db.deliveries, s.now)
    ensures var u := Apply(c, s, ReapStuck);
            && u.db.requests == s.db.requests && u.db.batches == s.db.batches
            && u.db.deliveries == ApplyMoves(s.db.deliveries, ReapMoves(s.db.deliveries, s.now))
  {
    hide ApplyMoves, ReapMoves;
  }

  /** Its lease over, the reaper takes k; then the cancel goes on. */
  lemma ReapThenCommit(c: Config, m: System, t: Id, k: Key)
    requires Updated(c, m, t) && m.txs.Keys == {t}
    requires IsProcessingRow(m, m.txs[t].requestId, k) && IsExpired(m.base.db.deliveries[k], m.base.now)
    ensures CanMiss(c, m, t, m.txs[t].requestId)
  {
    hide SystemOk, CanMiss, Apply, Enabled, Moves;
    var st := Atomic(ReapStuck);
    ReapShape(c, m.base);
    forall j | j in ReapMoves(m.base.db.deliveries, m.base.now) ensures RowFree(m, j) {
      ProcessingIsUnwritten(c, m, t, j);
    }
    AtomicKeepsOk(c, m, ReapStuck);
    ProcessingIsUnwritten(c, m, t, k);
    var u := Do(c, m, st);
    assert u.txs == m.txs && u.base.db.deliveries[k] == MoveRow(m.base.db.deliveries[k], Reap(m.base.now));
    ReadThenCommit(c, u, t, k);
    MissLater(c, m, st, t, m.txs[t].requestId);
  }

  /** Time passes until k's lease is over. */
  lemma WaitThenCommit(c: Config, m: System, t: Id, k: Key)
    requires Updated(c, m, t) && m.txs.Keys == {t} && IsProcessingRow(m, m.txs[t].requestId, k)
    ensures CanMiss(c, m, t, m.txs[t].requestId)
  {
    hide SystemOk, CanMiss, Apply, WellFormed;
    SystemIsWellFormed(c, m);
    ProcessingHasLease(c, m.base, k);
    var l := m.base.db.deliveries[k].lockedUntil.value;
    var to := if m.base.now > l then m.base.now else l + 1;
    var st := Atomic(Tick(to));
    TickShape(c, m.base, to);
    AtomicKeepsOk(c, m, Tick(to));
    var u := Do(c, m, st);
    ReapThenCommit(c, u, t, k);
    MissLater(c, m, st, t, m.txs[t].requestId);
  }

  lemma ProcessingHasLease(c: Config, s: State, k: Key)
    requires WellFormed(c, s) && k in s.db.deliveries && s.db.deliveries[k].status.Processing?
    ensures s.db.deliveries[k].lockedUntil.Some?
  {
    assert RowOk(c, s.db.deliveries[k]);
  }

  lemma TickShape(c: Config, s: State, to: Time)
    requires s.now <= to
    ensures Apply(c, s, Tick(to)) == s.(now := to) && Moves(c, s, Tick(to)) == map[]
  {
    assert ApplyMoves(s.db.deliveries, map[]) == s.db.deliveries;
  }

  /** Every other open transaction gives up first. */
  lemma {:induction false} OthersGiveUp(c: Config, m: System, t: Id, k: Key)
    requires Updated(c, m, t) && IsProcessingRow(m, m.txs[t].requestId, k)
    ensures CanMiss(c, m, t, m.txs[t].requestId)
    decreases |m.txs|
  {
    hide SystemOk, CanMiss, Do, Enables;
    if u :| u in m.txs && u != t {
      RollbackEnds(c, m, u);
      RollbackKeepsOk(c, m, u);
      var n := Do(c, m, Rollback(u));
      assert m.txs.Keys == n.txs.Keys + {u};
      OthersGiveUp(c, n, t, k);
      MissLater(c, m, Rollback(u), t, m.txs[t].requestId);
    } else {
      assert m.txs.Keys == {t};
      WaitThenCommit(c, m, t, k);
    }
  }

  lemma RollbackEnds(c: Config, m: System, u: Id)
    requires u in m.txs
    ensures Enables(c, m, Rollback(u)) && InTime(m, Rollback(u))
    ensures Do(c, m, Rollback(u)) == System(m.base.(workers := Released(m.base.workers, m.txs[u])), m.txs - {u})
  {
  }

  /**
   * A cancel about to run its UPDATE can miss a delivery, by some timely continuation, if and only if one of its request is
   * PROCESSING at that instant.
   */
  lemma CancelMissesIff(c: Config, sys: System, t: Id)
    requires SystemOk(c, sys) && Enables(c, sys, CancelRows(t))
    ensures CanMiss(c, Do(c, sys, CancelRows(t)), t, sys.txs[t].requestId) <==>
            exists k :: IsProcessingRow(sys, sys.txs[t].requestId, k)
  {
    hide SystemOk, CanMiss, Do, Updated, SystemRun, TimelySystemRun;
    var m, r := Do(c, sys, CancelRows(t)), sys.txs[t].requestId;
    UpdateLeaves(c, sys, t);
    if k :| IsProcessingRow(sys, r, k) {
      OthersGiveUp(c, m, t, k);
    }
    if CanMiss(c, m, t, r) {
      MissedWasProcessing(c, sys, t);
    }
  }

  /** A statement of the transaction has changed no row and not its request. */
  predicate IsSameCancel(sys: System, m: System, t: Id)
  {
    m.base == sys.base && t in sys.txs && t in m.txs && m.txs[t].requestId == sys.txs[t].requestId
  }

  lemma UpdateLeaves(c: Config, sys: System, t: Id)
    requires SystemOk(c, sys) && Enables(c, sys, CancelRows(t))
    ensures Updated(c, Do(c, sys, CancelRows(t)), t) && IsSameCancel(sys, Do(c, sys, CancelRows(t)), t)
  {
    hide WellFormed, Exclusive, CountersExact, WriteAll, CancelMoves, MarkOk, Apart, Aggregate, StatusesOf;
    UpdateWrites(c, sys, t);
    assert TxOk(c, sys.base, sys.txs[t]);
  }

  lemma MissedWasProcessing(c: Config, sys: System, t: Id)
    requires SystemOk(c, sys) && Enables(c, sys, CancelRows(t))
    requires CanMiss(c, Do(c, sys, CancelRows(t)), t, sys.txs[t].requestId)
    ensures exists k :: IsProcessingRow(sys, sys.txs[t].requestId, k)
  {
    hide SystemOk, Do, SystemRun, TimelySystemRun;
    var m, r := Do(c, sys, CancelRows(t)), sys.txs[t].requestId;
    UpdateLeaves(c, sys, t);
    var sts, end :|
      && SystemRun(c, m, sts, end) && TimelySystemRun(c, m, sts) && LeavesOpen(sts, t)
      && Enables(c, end, Commit(t)) && HasOpen(Do(c, end, Commit(t)).base.db.deliveries, r);
    CancelMissesOnlyProcessing(c, sys, t, sts, end);
    var es := Do(c, end, Commit(t)).base.db.deliveries;
    var k :| k in KeysOf(es, r) && !es[k].status.IsTerminal();
    assert IsProcessingRow(sys, r, k);
  }

  // ---- One delivery for each request ----

  ghost predicate OneDeliveryEach(db: DB)
  {
    forall r :: r in db.requests ==> |KeysOf(db.deliveries, r)| == 1
  }

  lemma InsertGivesOne(db: DB, item: NewItem, batchId: Option<Id>, at: Time)
    requires OneDeliveryEach(db) && HaveRequests(db) && FreshItem(db, item, at)
    ensures OneDeliveryEach(Insert(db, item, batchId, at)) && HaveRequests(Insert(db, item, batchId, at))
  {
    var next := Insert(db, item, batchId, at);
    assert item.key !in db.deliveries;
    assert KeysOf(next.deliveries, item.requestId) == {item.key};
    forall r | r in db.requests ensures KeysOf(next.deliveries, r) == KeysOf(db.deliveries, r) {
    }
  }

  lemma {:induction false} InsertAllGivesOne(db: DB, items: seq<NewItem>, batchId: Id, at: Time)
    requires OneDeliveryEach(db) && HaveRequests(db) && FreshItems(db, items, at)
    ensures OneDeliveryEach(InsertAll(db, items, batchId, at))
    decreases |items|
  {
    hide OneDeliveryEach, HaveRequests, FreshItem;
    if items != [] {
      InsertKeepsFresh(db, items, Some(batchId), at);
      if Conflicts(db.requests, items[0].userId, items[0].idemKey) {
        InsertAllGivesOne(db, items[1..], batchId, at);
      } else {
        InsertGivesOne(db, items[0], Some(batchId), at);
        InsertAllGivesOne(Insert(db, items[0], Some(batchId), at), items[1..], batchId, at);
      }
    }
  }

  lemma OtherStepsAddNoRequests(c: Config, s: State, a: Action)
    requires Enabled(c, s, a) && !a.Create? && !a.CreateMany?
    ensures NextDB(c, s, a).requests.Keys == s.db.requests.Keys
  {
    hide Moves, ApplyMoves, Recompute, SeenIds, Picked;
    if IsFinal(a) {
      RecomputeFrame(s.db.(deliveries := ApplyMoves(s.db.deliveries, Moves(c, s, a))), FinalRequest(s, a));
    }
  }

  lemma StepKeepsOneEach(c: Config, s: State, a: Action)
    requires WellFormed(c, s) && OneDeliveryEach(s.db) && Enabled(c, s, a)
    ensures OneDeliveryEach(NextDB(c, s, a))
  {
    if a.Create? || a.CreateMany? {
      CreateKeepsOneEach(c, s, a);
    } else {
      QuietStepKeepsOneEach(c, s, a);
    }
  }

  lemma QuietStepKeepsOneEach(c: Config, s: State, a: Action)
    requires OneDeliveryEach(s.db) && Enabled(c, s, a) && !a.Create? && !a.CreateMany?
    ensures OneDeliveryEach(NextDB(c, s, a))
  {
    hide Enabled, NextDB;
    OtherStepsAddNoRequests(c, s, a);
    forall r | r in s.db.requests ensures KeysOf(NextDB(c, s, a).deliveries, r) == KeysOf(s.db.deliveries, r) {
      StepKeepsFamily(c, s, a, r);
    }
  }

  lemma CreateKeepsOneEach(c: Config, s: State, a: Action)
    requires WellFormed(c, s) && OneDeliveryEach(s.db) && Enabled(c, s, a) && (a.Create? || a.CreateMany?)
    ensures OneDeliveryEach(NextDB(c, s, a))
  {
    hide RowsOk, UniqueIds, UniqueKeys, OutboxOk, StreamsOk, WorkersOk, RelaysOk, SeenIds;
    if a.Create? {
      InsertGivesOne(s.db, a.item, None, s.now);
    } else {
      var empty := s.db.(batches := s.db.batches[a.batchId := Batch(a.userId, a.idemKey, 0, 0, 0, 0, 0)]);
      InsertAllGivesOne(empty, a.items, a.batchId, s.now);
    }
  }

  /** What the API stores has one delivery for each request, and every run keeps that. */
  lemma {:induction false} RunKeepsOneEach(c: Config, s: State, acts: seq<Action>, t: State)
    requires c.policy.maxAttempts >= 1
    requires WellFormed(c, s) && OneDeliveryEach(s.db) && Run(c, s, acts, t)
    ensures OneDeliveryEach(t.db)
    decreases |acts|
  {
    hide WellFormed, OneDeliveryEach, Enabled, NextDB, Apply;
    if acts != [] {
      ApplyParts(c, s, acts[0]);
      StepKeepsOneEach(c, s, acts[0]);
      StepKeepsWellFormed(c, s, acts[0]);
      RunKeepsOneEach(c, Apply(c, s, acts[0]), acts[1..], t);
    }
  }

  /** With one delivery, a cancel spares nothing: that delivery and its request end CANCELLED, and no other row changes. */
  lemma CancelClosesTheOne(c: Config, s: State, a: Action)
    requires WellFormed(c, s) && Enabled(c, s, a) && a.CancelRequest?
    requires |KeysOf(s.db.deliveries, a.requestId)| == 1
    ensures var next := NextDB(c, s, a);
            && a.spared == {} && a.requestId in next.requests && next.requests[a.requestId].status.RequestCancelled?
            && KeysOf(next.deliveries, a.requestId) == KeysOf(s.db.deliveries, a.requestId)
            && (forall k :: k in KeysOf(next.deliveries, a.requestId) ==> next.deliveries[k].status.Cancelled?)
            && (forall k :: k in s.db.deliveries && k !in KeysOf(s.db.deliveries, a.requestId) ==>
                              k in next.deliveries && next.deliveries[k] == s.db.deliveries[k])
  {
    hide Apply, Cancellable, WellFormed;
    var ds, es, r := s.db.deliveries, NextDB(c, s, a).deliveries, a.requestId;
    ApplyParts(c, s, a);
    CancelledRows(c, s, a);
    StepKeepsFamily(c, s, a, r);
    var open := Cancellable(ds, r);
    var k :| k in open - a.spared;
    Single(KeysOf(ds, r), k);
    assert StatusesOf(es, r) == {Cancelled};
    CancelRecomputes(c, s, a);
  }

  lemma CancelRecomputes(c: Config, s: State, a: Action)
    requires Enabled(c, s, a) && a.CancelRequest?
    ensures var next := NextDB(c, s, a);
            a.requestId in next.requests && next.requests[a.requestId].status == Aggregate(StatusesOf(next.deliveries, a.requestId))
  {
    hide ApplyMoves, Moves, Aggregate, StatusesOf;
  }

  // ---- A cancel that misses a delivery ----

  const ONE := Key(1, 0)
  const TWO := Key(2, 0)

  /** One request with two deliveries: the first pending, the second with worker 1, which claimed it at instant 0. */
  function TwoDeliveries(c: Config): State
  {
    var first := Delivery(0, Sms, High, Pending, 0, None, None, None, 0, NO_HISTORY);
    var second := Delivery(0, Email, High, Processing, 0, None, Some(c.leaseTTL), None, 0, NO_HISTORY.(claims := 1));
    State(0, DB(map[ONE := first, TWO := second], map[0 := Request("", None, None, Sms, High, RequestPending, 0)], map[], map[]),
          map[], map[1 := InFlight(TWO, 0, 0, c.leaseTTL, 0, None)], map[], {})
  }

  lemma TwoDeliveriesOk(c: Config)
    requires c.policy.maxAttempts >= 1
    ensures SystemOk(c, System(TwoDeliveries(c), map[])) && Agrees(TwoDeliveries(c).db)
  {
    hide WellFormed, CountersExact, Exclusive, Agrees, TwoDeliveries;
    assert Pinned(map[]) == {};
    TwoDeliveriesShape(c);
  }

  lemma TwoDeliveriesShape(c: Config)
    requires c.policy.maxAttempts >= 1
    ensures var s := TwoDeliveries(c); WellFormed(c, s) && CountersExact(s.db) && Exclusive(s, {}) && Agrees(s.db)
  {
    var s := TwoDeliveries(c);
    assert ONE in KeysOf(s.db.deliveries, 0) && Pending in StatusesOf(s.db.deliveries, 0);
  }

  /** The first two statements of the cancel. */
  lemma MissBegins(c: Config) returns (sys: System)
    requires c.policy.maxAttempts >= 1
    ensures Enables(c, System(TwoDeliveries(c), map[]), BeginCancel(0, 0))
    ensures sys == Do(c, System(TwoDeliveries(c), map[]), BeginCancel(0, 0)) && SystemOk(c, sys)
    ensures sys.base == TwoDeliveries(c)
    ensures sys.txs == map[0 := Tx(CancelTx, 0, 0, map[], true, RequestPending, None, None)]
    ensures Enables(c, sys, CancelRows(0)) && Cancellable(sys.base.db.deliveries, 0) == {ONE}
  {
    var start := System(TwoDeliveries(c), map[]);
    TwoDeliveriesOk(c);
    TxStatementKeepsOk(c, start, BeginCancel(0, 0));
    sys := Do(c, start, BeginCancel(0, 0));
    assert Cancellable(sys.base.db.deliveries, 0) == {ONE};
  }

  lemma MissUpdates(c: Config, sys: System) returns (m: System)
    requires sys.base == TwoDeliveries(c) && sys.txs == map[0 := Tx(CancelTx, 0, 0, map[], true, RequestPending, None, None)]
    requires Enables(c, sys, CancelRows(0))
    ensures m == Do(c, sys, CancelRows(0)) && m.base == sys.base && m.txs.Keys == {0}
    ensures m.txs[0] == sys.txs[0].(writes := m.txs[0].writes) && m.txs[0].writes.Keys == {ONE} && m.txs[0].writes[ONE].status.Cancelled?
  {
    m := Do(c, sys, CancelRows(0));
    assert Cancellable(sys.base.db.deliveries, 0) == {ONE};
    assert m.txs[0].writes.Keys == {ONE};
  }

  lemma RequeueShape(c: Config)
    ensures var s, a := TwoDeliveries(c), RequeueDelivery(1);
            && Enabled(c, s, a) && Moves(c, s, a).Keys == {TWO}
            && var db := Apply(c, s, a).db;
               db.requests == s.db.requests && db.batches == map[]
               && TWO in db.deliveries && db.deliveries[TWO].status.Retrying? && db.deliveries[TWO].requestId == 0
  {
  }

  lemma MissRequeues(c: Config, m: System) returns (u: System)
    requires m.base == TwoDeliveries(c) && m.txs.Keys == {0} && m.txs[0].kind.CancelTx? && m.txs[0].writes.Keys == {ONE}
    ensures Enables(c, m, Atomic(RequeueDelivery(1))) && u == Do(c, m, Atomic(RequeueDelivery(1))) && u.txs == m.txs
    ensures u.base.db.requests == m.base.db.requests && u.base.db.batches == map[]
    ensures TWO in u.base.db.deliveries && u.base.db.deliveries[TWO].status.Retrying? && u.base.db.deliveries[TWO].requestId == 0
  {
    hide Apply, Enabled, Moves;
    RequeueShape(c);
    u := Do(c, m, Atomic(RequeueDelivery(1)));
  }

  lemma MissCommits(c: Config, u: System) returns (end: System)
    requires 0 in u.txs && u.txs[0].locked && u.txs[0].kind.CancelTx? && u.txs[0].requestId == 0 && u.txs[0].seen.None? && u.txs[0].batch.None?
    requires u.txs[0].was.RequestPending? && 0 in u.base.db.requests && u.txs[0].writes.Keys == {ONE} && u.base.db.batches == map[]
    requires TWO in u.base.db.deliveries && u.base.db.deliveries[TWO].status.Retrying? && u.base.db.deliveries[TWO].requestId == 0
    ensures Enables(c, u, ReadStatuses(0)) && end == Do(c, u, ReadStatuses(0)) && Enables(c, end, Commit(0))
    ensures end.base == u.base && 0 in end.txs && end.txs[0].writes == u.txs[0].writes && end.txs[0].requestId == 0
    ensures TWO in Cancellable(Do(c, end, Commit(0)).base.db.deliveries, 0)
  {
    assert u.txs[0].writes != map[] by {
      assert ONE in u.txs[0].writes;
    }
    end := Do(c, u, ReadStatuses(0));
    assert TWO !in u.txs[0].writes;
  }

  /** A request with two deliveries, a worker in time, and a cancel that succeeds: the delivery it had in flight stays open. */
  lemma CancelCanMiss(c: Config) returns (sys: System, sts: seq<Statement>, end: System)
    requires c.policy.maxAttempts >= 1 && c.leaseTTL >= 0
    ensures SystemOk(c, sys) && Enables(c, sys, CancelRows(0))
    ensures 0 in sys.txs && sys.txs[0].requestId == 0 && |KeysOf(sys.base.db.deliveries, 0)| == 2
    ensures var m := Do(c, sys, CancelRows(0)); SystemRun(c, m, sts, end) && TimelySystemRun(c, m, sts) && LeavesOpen(sts, 0)
    ensures Enables(c, end, Commit(0)) && Cancellable(Do(c, end, Commit(0)).base.db.deliveries, 0) != {}
  {
    hide Enables, Do, SystemOk, Cancellable;
    sys := MissBegins(c);
    assert KeysOf(sys.base.db.deliveries, 0) == {ONE, TWO};
    var m := MissUpdates(c, sys);
    var u := MissRequeues(c, m);
    end := MissCommits(c, u);
    var a := Atomic(RequeueDelivery(1));
    sts := [a, ReadStatuses(0)];
    assert InTime(m, a) by {
      MissIsInTime(c, sys);
    }
    assert sts[1..] == [ReadStatuses(0)] && sts[1..][1..] == [];
    assert SystemRun(c, end, [], end) && TimelySystemRun(c, end, []);
    assert SystemRun(c, u, [ReadStatuses(0)], end) && TimelySystemRun(c, u, [ReadStatuses(0)]);
  }

  lemma MissIsInTime(c: Config, sys: System)
    requires sys.base == TwoDeliveries(c) && c.leaseTTL >= 0 && Enables(c, sys, CancelRows(0))
    ensures InTime(Do(c, sys, CancelRows(0)), Atomic(RequeueDelivery(1)))
  {
  }
}
