/** Exclusive claims, final rows that stay final, exact accounting: what the lease discipline buys. */
module Leases {
  import opened Domain
  import opened Database
  import opened Lifecycle
  import opened Integrity

  // ---- Discipline ----

  /** The worker step an action is, if any: starting the provider call or one of the unguarded final writes. */
  predicate IsWorkerWrite(a: Action)
  {
    a.StartSend? || a.RequeueDelivery? || a.MarkRetrying? || a.MarkFailed? || a.MarkSent?
  }

  /** The row still shows this worker's claim. */
  predicate Owned(s: State, w: Id)
    requires IsFlying(s, w)
  {
    var x := s.workers[w];
    && x.key in s.db.deliveries
    && var d := s.db.deliveries[x.key];
       d.status.Processing? && d.lockedUntil == Some(x.lease) && d.attempts == x.attempts
  }

  /** The timing assumption: a worker acts only while its lease is unexpired. */
  predicate Timely(s: State, a: Action)
  {
    IsWorkerWrite(a) && IsFlying(s, a.w) ==> s.now <= s.workers[a.w].lease
  }

  /** The consequence the guarantees rest on: a worker acts only on a row it owns. */
  predicate Disciplined(s: State, a: Action)
  {
    IsWorkerWrite(a) && IsFlying(s, a.w) ==> Owned(s, a.w)
  }

  ghost predicate TimelyRun(c: Config, s: State, acts: seq<Action>)
    decreases |acts|
  {
    acts != [] ==> Enabled(c, s, acts[0]) && Timely(s, acts[0]) && TimelyRun(c, Apply(c, s, acts[0]), acts[1..])
  }

  ghost predicate DisciplinedRun(c: Config, s: State, acts: seq<Action>)
    decreases |acts|
  {
    acts != [] ==> Enabled(c, s, acts[0]) && Disciplined(s, acts[0]) && DisciplinedRun(c, Apply(c, s, acts[0]), acts[1..])
  }

  /** Some run of timely workers leads from s to t. */
  ghost predicate TimelyReaches(c: Config, s: State, t: State)
  {
    exists acts :: Run(c, s, acts, t) && TimelyRun(c, s, acts)
  }

  lemma {:induction false} TimelyConcat(c: Config, s: State, first: seq<Action>, m: State, second: seq<Action>)
    requires Run(c, s, first, m) && TimelyRun(c, s, first) && TimelyRun(c, m, second)
    ensures TimelyRun(c, s, first + second)
    decreases |first|
  {
    hide Apply, Enabled, Timely;
    if first == [] {
      assert first + second == second;
    } else {
      TimelyConcat(c, Apply(c, s, first[0]), first[1..], m, second);
      assert (first + second)[0] == first[0] && (first + second)[1..] == first[1..] + second;
    }
  }

  lemma TimelyReachesOn(c: Config, s: State, m: State, t: State)
    requires TimelyReaches(c, s, m) && TimelyReaches(c, m, t)
    ensures TimelyReaches(c, s, t)
  {
    hide Run, TimelyRun;
    var first :| Run(c, s, first, m) && TimelyRun(c, s, first);
    var second :| Run(c, m, second, t) && TimelyRun(c, m, second);
    RunConcat(c, s, first, m, second, t);
    TimelyConcat(c, s, first, m, second);
  }

  lemma TimelyStep(c: Config, s: State, a: Action)
    requires Enabled(c, s, a) && Timely(s, a)
    ensures TimelyReaches(c, s, Apply(c, s, a))
  {
    hide Enabled, Apply, Timely;
    assert [a][1..] == [];
    assert Run(c, Apply(c, s, a), [], Apply(c, s, a)) && TimelyRun(c, Apply(c, s, a), []);
    assert Run(c, s, [a], Apply(c, s, a)) && TimelyRun(c, s, [a]);
  }

  /** A worker that may still act: its lease is unexpired, or it is pinned by a row lock it holds. */
  predicate IsLive(s: State, pinned: set<Id>, w: Id)
  {
    IsFlying(s, w) && (s.now <= s.workers[w].lease || w in pinned)
  }

  /** Every live worker owns its row, and no two live workers have the same delivery. */
  ghost predicate Exclusive(s: State, pinned: set<Id>)
  {
    && (forall w :: IsLive(s, pinned, w) ==> Owned(s, w))
    && (forall w, x :: IsLive(s, pinned, w) && IsLive(s, pinned, x) && w != x ==> s.workers[w].key != s.workers[x].key)
  }

  /** Pinned rows are locked, so the reaper waits for them. */
  predicate SparesPinned(s: State, a: Action, pinned: set<Id>)
  {
    a.ReapStuck? ==> forall w :: w in pinned && IsFlying(s, w) && s.workers[w].key in s.db.deliveries ==>
                                   !IsExpired(s.db.deliveries[s.workers[w].key], s.now)
  }

  /** No step of anyone else touches the row of a live worker. */
  lemma LiveRowsAreLeftAlone(c: Config, s: State, a: Action, pinned: set<Id>, w: Id)
    requires WellFormed(c, s) && Enabled(c, s, a)
    requires Exclusive(s, pinned) && SparesPinned(s, a, pinned) && IsLive(s, pinned, w)
    requires IsWorkerWrite(a) ==> IsLive(s, pinned, a.w) && (a.w != w || a.StartSend?)
    ensures s.workers[w].key !in Moves(c, s, a)
  {
    var k := s.workers[w].key;
    assert Owned(s, w);
    if k in Moves(c, s, a) {
      MovesAreGuarded(c, s, a);
      if IsWorkerWrite(a) {
        MarkIsGuarded(c, s, a);
      }
    }
  }

  /** A worker in flight after a step was so before, with the same claim, or has just claimed a row. */
  lemma WorkerOrigin(c: Config, s: State, a: Action, w: Id)
    requires Enabled(c, s, a) && IsFlying(Apply(c, s, a), w)
    ensures var y := Apply(c, s, a).workers[w];
            if IsFlying(s, w) then
              && (IsWorkerWrite(a) ==> a.w != w || a.StartSend?)
              && y.key == s.workers[w].key && y.lease == s.workers[w].lease && y.attempts == s.workers[w].attempts
            else
              && a == ClaimMessage(w, y.startedAt) && y.key in s.db.deliveries
              && s.db.deliveries[y.key].status.IsClaimable() && y.attempts == s.db.deliveries[y.key].attempts
              && Moves(c, s, a) == map[y.key := Claim(y.lease, s.now)]
  {
  }

  lemma LiveWorkerStaysOwner(c: Config, s: State, a: Action, pinned: set<Id>, w: Id)
    requires WellFormed(c, s) && Enabled(c, s, a)
    requires Exclusive(s, pinned) && SparesPinned(s, a, pinned)
    requires IsWorkerWrite(a) ==> IsLive(s, pinned, a.w)
    requires IsLive(Apply(c, s, a), pinned, w)
    ensures Owned(Apply(c, s, a), w)
  {
    hide Enabled, Moves, WellFormed, SparesPinned;
    WorkerOrigin(c, s, a, w);
    ApplyParts(c, s, a);
    var k := Apply(c, s, a).workers[w].key;
    if IsFlying(s, w) {
      assert IsLive(s, pinned, w) && Owned(s, w);
      LiveRowsAreLeftAlone(c, s, a, pinned, w);
      StepRow(c, s, a, k);
    } else {
      StepRow(c, s, a, k);
    }
  }

  /** One row of a step. */
  lemma StepRow(c: Config, s: State, a: Action, k: Key)
    requires Enabled(c, s, a) && k in s.db.deliveries
    ensures k in Apply(c, s, a).db.deliveries
    ensures Apply(c, s, a).db.deliveries[k] ==
            if k in Moves(c, s, a) then MoveRow(s.db.deliveries[k], Moves(c, s, a)[k]) else s.db.deliveries[k]
  {
    StepRows(c, s, a);
  }

  lemma StepKeepsExclusive(c: Config, s: State, a: Action, pinned: set<Id>)
    requires WellFormed(c, s) && Enabled(c, s, a)
    requires Exclusive(s, pinned) && SparesPinned(s, a, pinned)
    requires IsWorkerWrite(a) ==> IsLive(s, pinned, a.w)
    ensures Exclusive(Apply(c, s, a), pinned)
  {
    var t := Apply(c, s, a);
    forall w | IsLive(t, pinned, w) ensures Owned(t, w) {
      LiveWorkerStaysOwner(c, s, a, pinned, w);
    }
    forall w, x | IsLive(t, pinned, w) && IsLive(t, pinned, x) && w != x ensures t.workers[w].key != t.workers[x].key {
      NewClaimIsAlone(c, s, a, pinned, w, x);
      NewClaimIsAlone(c, s, a, pinned, x, w);
    }
  }

  /** A worker that claims just now took a row no live worker had. */
  lemma NewClaimIsAlone(c: Config, s: State, a: Action, pinned: set<Id>, w: Id, x: Id)
    requires WellFormed(c, s) && Enabled(c, s, a) && Exclusive(s, pinned)
    requires IsLive(Apply(c, s, a), pinned, w) && IsLive(Apply(c, s, a), pinned, x) && w != x
    ensures (IsFlying(s, w) && IsFlying(s, x)) || Apply(c, s, a).workers[w].key != Apply(c, s, a).workers[x].key
    ensures IsFlying(s, w) ==> IsLive(s, pinned, w) && s.workers[w].key == Apply(c, s, a).workers[w].key
  {
    hide Apply, Enabled, Moves, WellFormed;
    ApplyParts(c, s, a);
    WorkerOrigin(c, s, a, w);
    WorkerOrigin(c, s, a, x);
    if IsFlying(s, w) {
      assert IsLive(s, pinned, w) && Owned(s, w);
    }
    if IsFlying(s, x) {
      assert IsLive(s, pinned, x) && Owned(s, x);
    }
  }

  /** Lease exclusivity over whole runs: acting within the lease is acting on an owned row. */
  lemma {:induction false} LeaseExclusivity(c: Config, s: State, acts: seq<Action>, t: State)
    requires c.policy.maxAttempts >= 1
    requires WellFormed(c, s) && Exclusive(s, {}) && Run(c, s, acts, t) && TimelyRun(c, s, acts)
    ensures Exclusive(t, {}) && DisciplinedRun(c, s, acts)
    decreases |acts|
  {
    if acts != [] {
      var a := acts[0];
      if IsWorkerWrite(a) {
        assert IsLive(s, {}, a.w);
      }
      StepKeepsExclusive(c, s, a, {});
      StepKeepsWellFormed(c, s, a);
      LeaseExclusivity(c, Apply(c, s, a), acts[1..], t);
    }
  }

  // ---- Final rows stay final ----

  /** Under the discipline a mark always finds its row PROCESSING with the attempts it was given. */
  predicate Fits(c: Config, d: Delivery, m: Move)
  {
    && Guarded(c, d, m)
    && (m.IsMark() ==> d.status.Processing?)
    && (m.Requeue? ==> m.attempts == d.attempts)
    && (m.Retry? || m.Fail? ==> m.attempts == d.attempts + 1)
  }

  lemma OwnedMarkFits(c: Config, s: State, a: Action)
    requires a.RequeueDelivery? || a.MarkRetrying? || a.MarkFailed? || a.MarkSent?
    requires WellFormed(c, s) && Enabled(c, s, a) && Owned(s, a.w)
    ensures var k := s.workers[a.w].key;
            k in s.db.deliveries && Moves(c, s, a).Keys == {k} && Fits(c, s.db.deliveries[k], Moves(c, s, a)[k])
  {
    MarkIsGuarded(c, s, a);
  }

  lemma OtherMovesAreNoMarks(c: Config, s: State, a: Action)
    requires Enabled(c, s, a)
    requires !(a.RequeueDelivery? || a.MarkRetrying? || a.MarkFailed? || a.MarkSent?)
    ensures forall k :: k in Moves(c, s, a) ==> !Moves(c, s, a)[k].IsMark()
  {
  }

  lemma DisciplinedMovesFit(c: Config, s: State, a: Action)
    requires WellFormed(c, s) && Enabled(c, s, a) && Disciplined(s, a)
    ensures forall k :: k in Moves(c, s, a) ==> k in s.db.deliveries && Fits(c, s.db.deliveries[k], Moves(c, s, a)[k])
  {
    if a.RequeueDelivery? || a.MarkRetrying? || a.MarkFailed? || a.MarkSent? {
      OwnedMarkFits(c, s, a);
    } else {
      MovesAreGuarded(c, s, a);
      OtherMovesAreNoMarks(c, s, a);
    }
  }

  lemma StepKeepsTerminalRow(c: Config, s: State, a: Action, k: Key)
    requires WellFormed(c, s) && Enabled(c, s, a) && Disciplined(s, a)
    requires k in s.db.deliveries && s.db.deliveries[k].status.IsTerminal()
    ensures k in Apply(c, s, a).db.deliveries && Apply(c, s, a).db.deliveries[k] == s.db.deliveries[k]
  {
    hide Apply, Moves, Enabled, WellFormed, Disciplined, MoveRow;
    DisciplinedMovesFit(c, s, a);
    StepRow(c, s, a, k);
  }

  /** SENT, FAILED and CANCELLED rows never change again. */
  lemma {:induction false} TerminalRowsAreFinal(c: Config, s: State, acts: seq<Action>, t: State, k: Key)
    requires c.policy.maxAttempts >= 1
    requires WellFormed(c, s) && Run(c, s, acts, t) && DisciplinedRun(c, s, acts)
    requires k in s.db.deliveries && s.db.deliveries[k].status.IsTerminal()
    ensures k in t.db.deliveries && t.db.deliveries[k] == s.db.deliveries[k]
    decreases |acts|
  {
    if acts != [] {
      StepKeepsTerminalRow(c, s, acts[0], k);
      StepKeepsWellFormed(c, s, acts[0]);
      TerminalRowsAreFinal(c, Apply(c, s, acts[0]), acts[1..], t, k);
    }
  }

  // ---- Cancel ----

  /** A cancel closes every open delivery of the request except those it spared, and leaves all others alone. */
  lemma CancelClosesOpenRows(c: Config, s: State, a: Action)
    requires Enabled(c, s, a) && a.CancelRequest?
    ensures var ds, es := s.db.deliveries, Apply(c, s, a).db.deliveries;
            && Cancellable(es, a.requestId) == a.spared
            && (exists k :: k in KeysOf(ds, a.requestId) && ds[k].status.IsCancellable() && es[k].status.Cancelled?)
            && (forall k :: k in Cancellable(ds, a.requestId) - a.spared ==> es[k].status.Cancelled?)
            && (forall k :: k in ds && k !in Cancellable(ds, a.requestId) ==> k in es && es[k] == ds[k])
            && (|KeysOf(ds, a.requestId)| == 1 ==> Cancellable(es, a.requestId) == {})
  {
    hide Apply, Cancellable;
    var ds, es := s.db.deliveries, Apply(c, s, a).db.deliveries;
    var open := Cancellable(ds, a.requestId);
    CancelledRows(c, s, a);
    assert Cancellable(es, a.requestId) == a.spared;
    var k :| k in open - a.spared;
    assert k in KeysOf(ds, a.requestId);
    if |KeysOf(ds, a.requestId)| == 1 {
      Single(KeysOf(ds, a.requestId), k);
      assert a.spared <= open <= KeysOf(ds, a.requestId);
    }
  }

  lemma CancelledRows(c: Config, s: State, a: Action)
    requires Enabled(c, s, a) && a.CancelRequest?
    ensures var ds, es, open := s.db.deliveries, Apply(c, s, a).db.deliveries, Cancellable(s.db.deliveries, a.requestId);
            && a.spared < open <= KeysOf(ds, a.requestId)
            && (forall k :: k in open ==> ds[k].status.IsCancellable())
            && (forall k :: k in open - a.spared ==> k in es && es[k].status.Cancelled?)
            && (forall k :: k in ds && k !in open - a.spared ==> k in es && es[k] == ds[k])
            && Cancellable(es, a.requestId) == a.spared
  {
    StepRows(c, s, a);
    CancelAddsNoRows(c, s, a);
  }

  lemma CancelAddsNoRows(c: Config, s: State, a: Action)
    requires Enabled(c, s, a) && a.CancelRequest?
    ensures Apply(c, s, a).db.deliveries.Keys == s.db.deliveries.Keys
    ensures Apply(c, s, a).db == NextDB(c, s, a)
  {
    hide Enabled, ApplyMoves, Moves, NextDB;
    OtherStepsMoveRows(c, s, a);
  }

  lemma Single<T>(s: set<T>, x: T)
    requires x in s && |s| == 1
    ensures s == {x}
  {
    assert |s - {x}| == 0;
  }

  /** No provider call ever starts for a delivery that was cancelled before. */
  lemma NoSendAfterCancel(c: Config, s: State, acts: seq<Action>, t: State, w: Id, k: Key)
    requires c.policy.maxAttempts >= 1
    requires WellFormed(c, s) && Exclusive(s, {}) && Run(c, s, acts, t) && TimelyRun(c, s, acts)
    requires k in s.db.deliveries && s.db.deliveries[k].status.Cancelled?
    requires Enabled(c, t, StartSend(w)) && Timely(t, StartSend(w))
    ensures t.workers[w].key != k
  {
    LeaseExclusivity(c, s, acts, t);
    TerminalRowsAreFinal(c, s, acts, t, k);
    assert IsLive(t, {}, w);
  }

  // ---- Accounting ----

  /** Every claim ended in exactly one way, and attempts are the counted failures. */
  predicate Accounted(c: Config, d: Delivery)
  {
    var h := d.history;
    && h.claims == h.sents + h.fails + h.retries + h.requeues + h.reaps + (if d.status.Processing? then 1 else 0)
    && d.attempts == h.fails + h.retries
    && h.sents == (if d.status.Sent? then 1 else 0)
    && h.fails == (if d.status.Failed? then 1 else 0)
    && (!d.status.Failed? ==> d.attempts < c.policy.maxAttempts)
    && d.attempts <= c.policy.maxAttempts
  }

  ghost predicate AllAccounted(c: Config, ds: Deliveries)
  {
    forall k :: k in ds ==> Accounted(c, ds[k])
  }

  lemma MoveKeepsAccounts(c: Config, d: Delivery, m: Move)
    requires Accounted(c, d) && Fits(c, d, m)
    ensures Accounted(c, MoveRow(d, m))
  {
  }

  lemma StepKeepsAccounts(c: Config, s: State, a: Action)
    requires c.policy.maxAttempts >= 1
    requires WellFormed(c, s) && AllAccounted(c, s.db.deliveries) && Enabled(c, s, a) && Disciplined(s, a)
    ensures AllAccounted(c, Apply(c, s, a).db.deliveries)
  {
    hide Apply, NextDB, Moves, Enabled, WellFormed, Disciplined, MoveRow, Fits, Accounted;
    DisciplinedMovesFit(c, s, a);
    ApplyParts(c, s, a);
    StepRows(c, s, a);
    StepNewRows(c, s, a);
    var es := Apply(c, s, a).db.deliveries;
    forall k | k in es ensures Accounted(c, es[k]) {
      if k !in s.db.deliveries {
        NewRowIsAccounted(c, es[k]);
      } else if k in Moves(c, s, a) {
        MoveKeepsAccounts(c, s.db.deliveries[k], Moves(c, s, a)[k]);
      }
    }
  }

  lemma NewRowIsAccounted(c: Config, d: Delivery)
    requires c.policy.maxAttempts >= 1 && exists item :: d == BuildDelivery(item)
    ensures Accounted(c, d)
  {
  }

  /** Claims are bounded by the attempts allowed, the attempt-free requeues and the reaps. */
  lemma {:induction false} ClaimAccounting(c: Config, s: State, acts: seq<Action>, t: State)
    requires c.policy.maxAttempts >= 1
    requires WellFormed(c, s) && AllAccounted(c, s.db.deliveries) && Run(c, s, acts, t) && DisciplinedRun(c, s, acts)
    ensures AllAccounted(c, t.db.deliveries)
    ensures forall k :: k in t.db.deliveries ==>
                          var h := t.db.deliveries[k].history; h.claims <= c.policy.maxAttempts + h.requeues + h.reaps
    decreases |acts|
  {
    if acts != [] {
      StepKeepsAccounts(c, s, acts[0]);
      StepKeepsWellFormed(c, s, acts[0]);
      ClaimAccounting(c, Apply(c, s, acts[0]), acts[1..], t);
    }
  }

  /** Where a status stands on its way to the end. */
  function Phase(st: DeliveryStatus): nat
  {
    match st
    case Scheduled => 4
    case Retrying => 3
    case Pending => 2
    case Processing => 1
    case _ => 0
  }

  /** Every status change but a requeue or a reap lowers (attempts left, phase). */
  lemma ProgressMeasure(c: Config, d: Delivery, m: Move)
    requires RowOk(c, d) && Fits(c, d, m) && !m.Requeue? && !m.Reap?
    ensures var e := MoveRow(d, m);
            && e.attempts >= d.attempts
            && (e.attempts > d.attempts || Phase(e.status) < Phase(d.status))
  {
  }
}
