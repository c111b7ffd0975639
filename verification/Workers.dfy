/** The worker's pipeline for one message, and why it is a run of the protocol (internal/worker/process.go). */
module Workers {
  import opened Domain
  import opened Database
  import opened Lifecycle
  import opened Integrity
  import opened Leases
  import opened Budget
  import opened PromptRuns
  import R = Retry
  import S = Store

  // ---- What the outside world answers ----

  /** How a claim statement ends: with its answer, without effect, or committed with its answer lost. */
  datatype ClaimFault = NoFault | NotExecuted | AnswerLost

  /** How the provider port answers; an open breaker means the provider was never contacted. */
  datatype Reply = Delivered | BreakerOpen | Refused(perr: Option<R.ProviderError>)

  /** One message's circumstances: two clock readings, the limiter, and the failures of each later step. */
  datatype Env = Env(
    start: Time, claimAt: Time, claim: ClaimFault, answers: nat -> Answer, loadFails: bool,
    reply: Reply, latency: nat, markFails: bool)

  // ---- What is left in the database ----

  /** Whether a token was granted, and when the wait ended. */
  function WaitEnd(c: Config, e: Env): (bool, Time)
    requires c.rateWaitStep > 0
  {
    WaitFrom(e.claimAt, e.claimAt + c.rateWaitMax, c.rateWaitStep, e.answers, 0)
  }

  /** The move a provider reply calls for. */
  function ReplyMove(c: Config, attempts: nat, reply: Reply, now: Time, u: R.Draw): Move
  {
    match reply
    case Delivered => Send(now)
    case BreakerOpen => Requeue(attempts, now + c.rateWaitStep, now)
    case Refused(perr) =>
      match R.Evaluate(c.policy, now, attempts, perr, u)
      case GiveUp(n) => Fail(n, now)
      case RetryAt(n, next) => Retry(n, next, now)
  }

  /** How an attempt ends: with no write at all, without a token, or with an answer. */
  datatype Ending = GaveUp | Denied | Answered(reply: Reply, u: R.Draw)

  function EndMove(c: Config, attempts: nat, end: Ending, now: Time): Option<Move>
  {
    match end
    case GaveUp => None
    case Denied => Some(Requeue(attempts, now + c.rateWaitStep, now))
    case Answered(reply, u) => Some(ReplyMove(c, attempts, reply, now, u))
  }

  /** A step before the final write that fails, or the write itself, leaves the row as claimed. */
  function EndingOf(c: Config, loads: bool, e: Env, u: R.Draw): (Ending, Time)
    requires c.rateWaitStep > 0
  {
    var (granted, t) := WaitEnd(c, e);
    if e.markFails || (granted && !loads) then (GaveUp, t)
    else if !granted then (Denied, t)
    else (Answered(e.reply, u), t + e.latency)
  }

  /** The move that ends the attempt. */
  function FinalMove(c: Config, attempts: nat, loads: bool, e: Env, u: R.Draw): Option<Move>
    requires c.rateWaitStep > 0
  {
    var (end, now) := EndingOf(c, loads, e, u);
    EndMove(c, attempts, end, now)
  }

  /** The rows after the outcome of a claimed row is written. */
  function Finished(db: DB, k: Key, requestId: Id, outcome: Option<Move>): DB
  {
    match outcome
    case None => db
    case Some(m) =>
      if (m.Send? || m.Fail?) && requestId in db.requests then Recompute(Moved(db, k, m), requestId) else Moved(db, k, m)
  }

  /** The rows a message leaves behind. */
  function Processed(c: Config, db: DB, k: Key, e: Env, u: R.Draw): DB
    requires c.rateWaitStep > 0
    requires CanClaim(db, k) ==> db.deliveries[k].attempts >= 0
  {
    if e.claim.NotExecuted? || !CanClaim(db, k) then db
    else
      var claimed := Moved(db, k, Claim(e.start + c.leaseTTL, e.claimAt));
      var d := db.deliveries[k];
      if e.claim.AnswerLost? then claimed
      else Finished(claimed, k, d.requestId, FinalMove(c, d.attempts, !e.loadFails && d.requestId in db.requests, e, u))
  }

  /** The provider refused the delivery and the refusal was written down. */
  predicate IsCounted(c: Config, e: Env)
    requires c.rateWaitStep > 0
  {
    e.claim.NoFault? && WaitEnd(c, e).0 && !e.loadFails && !e.markFails && e.reply.Refused?
  }

  /** How each ending of a claimed row shows: only a counted refusal uses up an attempt. */
  predicate IsOutcome(c: Config, d: Delivery, e: Env, r: Delivery)
    requires c.rateWaitStep > 0 && d.attempts >= 0
  {
    && (e.claim.NotExecuted? <==> r == d)
    && (r.status.Processing? <==>
        e.claim.AnswerLost? || (e.claim.NoFault? && (e.markFails || (WaitEnd(c, e).0 && e.loadFails))))
    && (r.status.Sent? <==> e.claim.NoFault? && WaitEnd(c, e).0 && !e.loadFails && !e.markFails && e.reply.Delivered?)
    && (r.status.Failed? <==> IsCounted(c, e) && (R.IsPermanent(e.reply.perr) || d.attempts + 1 >= c.policy.maxAttempts))
    && r.attempts == d.attempts + (if IsCounted(c, e) then 1 else 0)
    && (r.status.Processing? ==> r.lockedUntil == Some(e.start + c.leaseTTL))
    && (!r.status.Processing? && r != d ==> r.lockedUntil.None?)
    && (r.status.Retrying? && r != d ==>
          && r.nextRetryAt.Some?
          && if !WaitEnd(c, e).0 then r.nextRetryAt == Some(WaitEnd(c, e).1 + c.rateWaitStep)
             else if e.reply.BreakerOpen? then r.nextRetryAt == Some(WaitEnd(c, e).1 + e.latency + c.rateWaitStep)
             else IsCounted(c, e) && (R.IsPolicyOk(c.policy) ==>
                                        R.IsWait(c.policy, d.attempts, e.reply.perr, r.nextRetryAt.value - WaitEnd(c, e).1 - e.latency)))
  }

  /** The one row a message can change. */
  function RowAfter(c: Config, d: Delivery, e: Env, u: R.Draw): Delivery
    requires c.rateWaitStep > 0 && d.attempts >= 0
  {
    if e.claim.NotExecuted? then d
    else
      var claimed := MoveRow(d, Claim(e.start + c.leaseTTL, e.claimAt));
      if e.claim.AnswerLost? then claimed
      else
        match FinalMove(c, d.attempts, !e.loadFails, e, u)
        case None => claimed
        case Some(m) => MoveRow(claimed, m)
  }

  lemma FinishedRow(db: DB, k: Key, requestId: Id, outcome: Option<Move>)
    requires k in db.deliveries
    ensures var es := Finished(db, k, requestId, outcome).deliveries;
            && es.Keys == db.deliveries.Keys && (forall l :: l in es && l != k ==> es[l] == db.deliveries[l])
            && es[k] == match outcome case None => db.deliveries[k] case Some(m) => MoveRow(db.deliveries[k], m)
  {
    hide MoveRow, Aggregate, StatusesOf, AdjustBatch;
  }

  lemma ProcessedRow(c: Config, db: DB, k: Key, e: Env, u: R.Draw)
    requires c.rateWaitStep > 0 && CanClaim(db, k) && db.deliveries[k].attempts >= 0 && db.deliveries[k].requestId in db.requests
    ensures var es := Processed(c, db, k, e, u).deliveries;
            && es.Keys == db.deliveries.Keys && (forall l :: l in es && l != k ==> es[l] == db.deliveries[l])
            && es[k] == RowAfter(c, db.deliveries[k], e, u)
  {
    hide Finished, MoveRow, FinalMove;
    var d, claimed := db.deliveries[k], Moved(db, k, Claim(e.start + c.leaseTTL, e.claimAt));
    FinishedRow(claimed, k, d.requestId, FinalMove(c, d.attempts, !e.loadFails, e, u));
  }

  lemma RowOutcome(c: Config, d: Delivery, e: Env, u: R.Draw)
    requires c.rateWaitStep > 0 && d.status.IsClaimable() && d.attempts >= 0
    ensures IsOutcome(c, d, e, RowAfter(c, d, e, u))
  {
    hide WaitFrom, R.BackoffFor, R.IsWait, R.IsPolicyOk;
    if IsCounted(c, e) && R.IsPolicyOk(c.policy) && !R.IsPermanent(e.reply.perr) && d.attempts + 1 < c.policy.maxAttempts {
      R.WaitIsRight(c.policy, R.Failure(WaitEnd(c, e).1 + e.latency, e.reply.perr, u), d.attempts);
    }
  }

  /** The pipeline ends a claimed row in one of the ways above, and changes no other row. */
  lemma ProcessOutcome(c: Config, db: DB, k: Key, e: Env, u: R.Draw)
    requires c.rateWaitStep > 0 && CanClaim(db, k) && db.deliveries[k].attempts >= 0 && db.deliveries[k].requestId in db.requests
    ensures var d, es := db.deliveries[k], Processed(c, db, k, e, u).deliveries;
            && es.Keys == db.deliveries.Keys && (forall l :: l in es && l != k ==> es[l] == db.deliveries[l])
            && IsOutcome(c, d, e, es[k])
  {
    hide RowAfter, Processed, IsOutcome;
    ProcessedRow(c, db, k, e, u);
    RowOutcome(c, db.deliveries[k], e, u);
  }

  // ---- The pipeline ----

  class Worker {
    const store: S.Store
    const policy: R.RetryPolicy
    const c: Config
    /** The stream entries acknowledged so far. */
    var acked: seq<Message>

    ghost predicate Valid()
    {
      c.rateWaitStep > 0 && c.rateWaitMax > 0 && policy.policy == c.policy
    }

    /** Unset waits get their defaults. */
    constructor (store: S.Store, policy: R.RetryPolicy, cfg: Config)
      requires policy.policy == cfg.policy
      ensures Valid() && this.store == store && this.policy == policy && acked == []
      ensures c == cfg.(rateWaitStep := WaitStep(cfg.rateWaitStep),
                        rateWaitMax := if cfg.rateWaitMax <= 0 then DEFAULT_WAIT_MAX else cfg.rateWaitMax)
    {
      this.store, this.policy, this.acked := store, policy, [];
      this.c := cfg.(rateWaitStep := WaitStep(cfg.rateWaitStep),
                     rateWaitMax := if cfg.rateWaitMax <= 0 then DEFAULT_WAIT_MAX else cfg.rateWaitMax);
    }

    /** Every message is acknowledged, whatever happened to its delivery. */
    method Process(msg: Message, e: Env)
      requires Valid()
      requires CanClaim(store.Rows(), msg.key) ==> store.deliveries[msg.key].attempts >= 0
      modifies this, store, policy
      ensures acked == old(acked) + [msg]
      ensures store.Rows() == Processed(c, old(store.Rows()), msg.key, e, policy.draws(old(policy.drawn)))
    {
      Handle(msg, e);
      acked := acked + [msg];
    }

    /** Claim, wait for a token, load, send, and write the outcome. */
    method Handle(msg: Message, e: Env)
      requires Valid()
      requires CanClaim(store.Rows(), msg.key) ==> store.deliveries[msg.key].attempts >= 0
      modifies store, policy
      ensures store.Rows() == Processed(c, old(store.Rows()), msg.key, e, policy.draws(old(policy.drawn)))
    {
      hide ApplyMoves, Recompute, WaitFrom;
      if e.claim.NotExecuted? {
        return;
      }
      var claimed := store.ClaimDelivery(msg.key, e.start + c.leaseTTL, e.claimAt);
      if e.claim.AnswerLost? || claimed.None? {
        return;
      }
      var del := claimed.value;
      var granted, now := WaitForRateLimit(e.claimAt, c.rateWaitMax, c.rateWaitStep, e.answers);
      if !granted {
        RequeueWithoutAttempt(msg.key, del, now, e.markFails);
        return;
      }
      if e.loadFails || del.requestId !in store.requests {
        return;
      }
      now := now + e.latency;
      if e.reply.Delivered? {
        if !e.markFails {
          var _ := store.MarkSent(msg.key, del.requestId, now);
        }
        return;
      }
      HandleFailure(msg.key, del, e.reply, now, e.markFails);
    }

    method HandleFailure(k: Key, del: Delivery, reply: Reply, now: Time, markFails: bool)
      requires Valid() && !reply.Delivered? && del.attempts >= 0 && del.requestId in store.requests
      modifies store, policy
      ensures store.Rows() ==
              if markFails then old(store.Rows())
              else Finished(old(store.Rows()), k, del.requestId,
                            Some(ReplyMove(c, del.attempts, reply, now, policy.draws(old(policy.drawn)))))
    {
      hide ApplyMoves, Recompute;
      if reply.BreakerOpen? {
        RequeueWithoutAttempt(k, del, now, markFails);
        return;
      }
      var outcome := policy.EvaluateFailure(now, del.attempts, reply.perr);
      if markFails {
        return;
      }
      match outcome
      case GiveUp(n) => var _ := store.MarkFailed(k, del.requestId, n, now);
      case RetryAt(n, next) => store.MarkRetrying(k, Retry(n, next, now));
    }

    /** The attempt count stays as claimed. */
    method RequeueWithoutAttempt(k: Key, del: Delivery, now: Time, markFails: bool)
      modifies store`deliveries
      ensures store.Rows() ==
              if markFails then old(store.Rows()) else Moved(old(store.Rows()), k, Requeue(del.attempts, now + c.rateWaitStep, now))
    {
      if !markFails {
        store.MarkRetrying(k, Requeue(del.attempts, now + c.rateWaitStep, now));
      }
    }
  }

  // ---- The pipeline is a run of the protocol ----

  /** The circumstances keep the worker on time: its wait and its provider call take no longer than allowed. */
  predicate KeepsTime(c: Config, slack: nat, e: Env)
    requires c.rateWaitStep > 0
  {
    && e.start <= e.claimAt <= WaitEnd(c, e).1 <= e.start + c.rateWaitMax + c.rateWaitStep + slack
    && e.latency <= c.providerTimeout + slack
  }

  /** Bounded limiter calls keep the time. */
  lemma BoundedCallsKeepTime(c: Config, slack: nat, e: Env, latency: nat)
    requires c.rateWaitStep > 0 && c.rateWaitMax >= 0
    requires e.start <= e.claimAt && e.claimAt - e.start + latency <= slack && e.latency <= c.providerTimeout + slack
    requires forall j :: e.answers(j).latency <= latency
    ensures KeepsTime(c, slack, e)
  {
    WaitIsBounded(e.claimAt, e.claimAt + c.rateWaitMax, c.rateWaitStep, e.answers, 0, latency);
  }

  /** The step that ends an attempt. */
  function EndAction(c: Config, s: State, w: Id, end: Ending): Action
    requires IsFlying(s, w) && s.workers[w].attempts >= 0
  {
    match end
    case GaveUp => Crash(w)
    case Denied => RequeueDelivery(w)
    case Answered(Delivered, _) => MarkSent(w, s.now)
    case Answered(BreakerOpen, _) => RequeueDelivery(w)
    case Answered(Refused(perr), u) =>
      if FailureOf(c, s, w, perr, u).GiveUp? then MarkFailed(w, perr, u, s.now) else MarkRetrying(w, perr, u)
  }

  /** It is a step the protocol allows at that instant, and writes what the pipeline writes. */
  lemma EndStep(c: Config, s: State, w: Id, end: Ending)
    requires IsFlying(s, w) && s.workers[w].attempts >= 0 && HasRequest(s, w) && (end.Answered? ==> IsSending(s, w))
    ensures var a, x := EndAction(c, s, w, end), s.workers[w];
            && Enabled(c, s, a) && Apply(c, s, a).workers == s.workers - {w}
            && Apply(c, s, a).db == Finished(s.db, x.key, x.requestId, EndMove(c, x.attempts, end, s.now))
  {
    hide ApplyMoves, Recompute, R.Evaluate;
    NoMoves(s.db);
  }

  /** A provider reply becomes the mark the protocol allows at that instant. */
  lemma ReplyRun(c: Config, slack: nat, s: State, w: Id, reply: Reply, u: R.Draw) returns (t: State)
    requires IsSending(s, w) && IsOnTime(c, slack, s, w) && s.workers[w].attempts >= 0 && HasRequest(s, w)
    ensures Reaches(c, slack, s, t) && w !in t.workers
    ensures t.db == Finished(s.db, s.workers[w].key, s.workers[w].requestId, Some(ReplyMove(c, s.workers[w].attempts, reply, s.now, u)))
  {
    hide Reaches, Finished, Enabled, Apply, ReplyMove;
    EndStep(c, s, w, Answered(reply, u));
    t := Apply(c, s, EndAction(c, s, w, Answered(reply, u)));
    ReachesStep(c, slack, s, EndAction(c, s, w, Answered(reply, u)));
  }

  /** From the claim on. */
  lemma ClaimedRun(c: Config, slack: nat, s: State, w: Id, e: Env, u: R.Draw) returns (t: State)
    requires c.rateWaitStep > 0 && KeepsTime(c, slack, e) && IsFlying(s, w) && s.now == e.claimAt
    requires s.workers[w].startedAt == e.start && s.workers[w].sendingSince.None? && s.workers[w].attempts >= 0
    ensures Reaches(c, slack, s, t) && w !in t.workers
    ensures var x := s.workers[w];
            t.db == Finished(s.db, x.key, x.requestId, FinalMove(c, x.attempts, !e.loadFails && x.requestId in s.db.requests, e, u))
  {
    hide Reaches, Finished, WaitFrom;
    var (granted, at) := WaitEnd(c, e);
    var loads := !e.loadFails && s.workers[w].requestId in s.db.requests;
    var m := TickTo(c, slack, s, at);
    if e.markFails || (granted && !loads) {
      t := GiveUpRun(c, slack, m, w);
      FinishNothing(s.db, s.workers[w].key, s.workers[w].requestId);
    } else if !granted {
      t := RequeueRun(c, slack, m, w);
      FinishMove(s.db, s.workers[w].key, s.workers[w].requestId, Requeue(s.workers[w].attempts, at + c.rateWaitStep, at));
    } else {
      var sending := StartRun(c, slack, m, w);
      var done := TickTo(c, slack, sending, at + e.latency);
      t := ReplyRun(c, slack, done, w, e.reply, u);
      ReachesOn(c, slack, sending, done, t);
      ReachesOn(c, slack, m, sending, t);
    }
    ReachesOn(c, slack, s, m, t);
  }

  lemma FinishNothing(db: DB, k: Key, requestId: Id)
    ensures Finished(db, k, requestId, None) == db
  {
  }

  lemma FinishMove(db: DB, k: Key, requestId: Id, m: Move)
    requires !m.Send? && !m.Fail?
    ensures Finished(db, k, requestId, Some(m)) == Moved(db, k, m)
  {
  }

  lemma SnapshotIsBounded(c: Config, s: State, k: Key)
    requires WellFormed(c, s) && k in s.db.deliveries
    ensures s.db.deliveries[k].attempts >= 0
  {
    assert RowOk(c, s.db.deliveries[k]);
  }

  /** A claim that commits and loses its answer. */
  lemma LostClaimRun(c: Config, slack: nat, s: State, w: Id, e: Env, u: R.Draw) returns (t: State)
    requires c.rateWaitStep > 0 && w in s.workers && s.workers[w].Holding? && e.claim.AnswerLost?
    requires e.start <= e.claimAt == s.now
    requires CanClaim(s.db, s.workers[w].msg.key) ==> s.db.deliveries[s.workers[w].msg.key].attempts >= 0
    ensures Reaches(c, slack, s, t) && w !in t.workers && t.db == Processed(c, s.db, s.workers[w].msg.key, e, u)
  {
    hide Reaches, FinalMove, Finished;
    t := LastStep(c, slack, s, ClaimLost(w, e.start));
    assert ApplyMoves(s.db.deliveries, map[]) == s.db.deliveries;
  }

  /** A claim that is answered, and what follows it. */
  lemma AnsweredClaimRun(c: Config, slack: nat, s: State, w: Id, e: Env, u: R.Draw) returns (t: State)
    requires c.rateWaitStep > 0 && KeepsTime(c, slack, e) && w in s.workers && s.workers[w].Holding? && e.claim.NoFault?
    requires e.start <= e.claimAt == s.now
    requires CanClaim(s.db, s.workers[w].msg.key) ==> s.db.deliveries[s.workers[w].msg.key].attempts >= 0
    ensures Reaches(c, slack, s, t) && w !in t.workers && t.db == Processed(c, s.db, s.workers[w].msg.key, e, u)
  {
    hide Reaches, KeepsTime, FinalMove, Finished, IsOnTime, CanClaim, ApplyMoves;
    t := ClaimRun(c, slack, s, w, e.start);
    if CanClaim(s.db, s.workers[w].msg.key) {
      var v := t;
      t := ClaimedRun(c, slack, v, w, e, u);
      ReachesOn(c, slack, s, v, t);
    }
  }

  /**
   * What the pipeline leaves in the database is what a protocol run of its worker leaves; and when its calls keep the
   * time, that run is prompt. So everything proved of such runs holds of the pipeline.
   */
  lemma ProcessIsARun(c: Config, slack: nat, s: State, w: Id, e: Env, u: R.Draw) returns (t: State)
    requires c.rateWaitStep > 0 && WellFormed(c, s) && w in s.workers && s.workers[w].Holding?
    requires s.now == e.start && KeepsTime(c, slack, e)
    ensures CanClaim(s.db, s.workers[w].msg.key) ==> s.db.deliveries[s.workers[w].msg.key].attempts >= 0
    ensures Reaches(c, slack, s, t) && w !in t.workers && t.db == Processed(c, s.db, s.workers[w].msg.key, e, u)
  {
    hide WellFormed, Reaches, KeepsTime, Processed;
    ClaimableIsBounded(c, s, s.workers[w].msg.key);
    ClaimIsLater(c, slack, e);
    if e.claim.NotExecuted? {
      t := GiveUpRun(c, slack, s, w);
      NotExecutedLeavesAll(c, s.db, s.workers[w].msg.key, e, u);
    } else {
      var m := TickTo(c, slack, s, e.claimAt);
      if e.claim.AnswerLost? {
        t := LostClaimRun(c, slack, m, w, e, u);
      } else {
        t := AnsweredClaimRun(c, slack, m, w, e, u);
      }
      ReachesOn(c, slack, s, m, t);
    }
  }

  lemma NotExecutedLeavesAll(c: Config, db: DB, k: Key, e: Env, u: R.Draw)
    requires c.rateWaitStep > 0 && e.claim.NotExecuted? && (CanClaim(db, k) ==> db.deliveries[k].attempts >= 0)
    ensures Processed(c, db, k, e, u) == db
  {
  }

  lemma ClaimableIsBounded(c: Config, s: State, k: Key)
    requires WellFormed(c, s)
    ensures CanClaim(s.db, k) ==> s.db.deliveries[k].attempts >= 0
  {
    if CanClaim(s.db, k) {
      SnapshotIsBounded(c, s, k);
    }
  }

  lemma ClaimIsLater(c: Config, slack: nat, e: Env)
    requires c.rateWaitStep > 0 && KeepsTime(c, slack, e)
    ensures e.start <= e.claimAt
  {
  }

  // ---- With others at work in between ----

  /** Of worker w's own steps, at most the start of its provider call. */
  predicate IsOthers(a: Action, w: Id)
  {
    a != Crash(w) && (IsWorkerWrite(a) && a.w == w ==> a.StartSend?)
  }

  /** Nobody else touches a worker's snapshot, and it stays in its call once it has started one. */
  lemma OthersKeepSnapshot(c: Config, s: State, a: Action, w: Id)
    requires IsFlying(s, w) && Enabled(c, s, a) && IsOthers(a, w)
    ensures var t := Apply(c, s, a);
            IsFlying(t, w) && t.workers[w].(sendingSince := None) == s.workers[w].(sendingSince := None)
            && (IsSending(s, w) || a == StartSend(w) ==> IsSending(t, w))
  {
    hide NextDB, NextStreams, NextRelays, Picked, SeenIds, FreshItem;
  }

  lemma {:induction false} OthersKeepWorker(c: Config, s: State, acts: seq<Action>, t: State, w: Id)
    requires IsFlying(s, w) && Run(c, s, acts, t) && forall i :: 0 <= i < |acts| ==> IsOthers(acts[i], w)
    ensures IsFlying(t, w) && t.workers[w].(sendingSince := None) == s.workers[w].(sendingSince := None)
    ensures IsSending(s, w) || StartSend(w) in acts ==> IsSending(t, w)
    decreases |acts|
  {
    hide Enabled, Apply, IsOthers;
    if acts != [] {
      OthersKeepSnapshot(c, s, acts[0], w);
      assert forall i :: 0 <= i < |acts[1..]| ==> acts[1..][i] == acts[i + 1];
      assert acts == [acts[0]] + acts[1..];
      OthersKeepWorker(c, Apply(c, s, acts[0]), acts[1..], t, w);
    }
  }

  /** A step before a run and a step after it make a longer run. */
  lemma RunBetween(c: Config, s: State, first: Action, acts: seq<Action>, m: State, last: Action)
    requires Enabled(c, s, first) && Run(c, Apply(c, s, first), acts, m) && Enabled(c, m, last)
    ensures Run(c, s, [first] + acts + [last], Apply(c, m, last))
    ensures Timely(s, first) && TimelyRun(c, Apply(c, s, first), acts) && Timely(m, last) ==> TimelyRun(c, s, [first] + acts + [last])
  {
    hide Enabled, Apply, Timely;
    var from, t := Apply(c, s, first), Apply(c, m, last);
    assert [last][1..] == [];
    assert Run(c, t, [], t) && TimelyRun(c, t, []);
    assert Run(c, m, [last], t);
    RunConcat(c, from, acts, m, [last], t);
    var all := [first] + acts + [last];
    assert all[0] == first && all[1..] == acts + [last];
    if TimelyRun(c, from, acts) && Timely(m, last) {
      TimelyConcat(c, from, acts, m, [last]);
    }
  }

  lemma ClaimFlies(c: Config, s: State, w: Id, start: Time)
    requires w in s.workers && s.workers[w].Holding? && start <= s.now && CanClaim(s.db, s.workers[w].msg.key)
    ensures Enabled(c, s, ClaimMessage(w, start)) && IsFlying(Apply(c, s, ClaimMessage(w, start)), w)
    ensures var k := s.workers[w].msg.key;
            var d := s.db.deliveries[k];
            Apply(c, s, ClaimMessage(w, start)).workers[w] == InFlight(k, d.requestId, d.attempts, start + c.leaseTTL, start, None)
  {
    hide NextDB;
  }

  lemma FlierHasRequest(c: Config, s: State, w: Id)
    requires WellFormed(c, s) && IsFlying(s, w)
    ensures HasRequest(s, w) && s.workers[w].attempts >= 0
  {
    assert WorkerOk(c, s.db.deliveries, s.workers[w]);
  }

  /**
   * Whatever protocol steps of others fall between the claim, the provider call and the final write: the write is enabled,
   * and puts what the pipeline computes from the row as it was claimed into the rows as they are by then. The whole is a
   * timely run if the steps in between are and the write falls inside the lease.
   */
  lemma InterleavedIsARun(c: Config, s: State, w: Id, start: Time, acts: seq<Action>, m: State, end: Ending) returns (t: State)
    requires c.policy.maxAttempts >= 1 && WellFormed(c, s) && w in s.workers && s.workers[w].Holding? && start <= s.now
    requires CanClaim(s.db, s.workers[w].msg.key)
    requires Run(c, Apply(c, s, ClaimMessage(w, start)), acts, m) && forall i :: 0 <= i < |acts| ==> IsOthers(acts[i], w)
    requires end.Answered? ==> StartSend(w) in acts
    ensures IsFlying(m, w) && m.workers[w].attempts >= 0
    ensures var whole := [ClaimMessage(w, start)] + acts + [EndAction(c, m, w, end)];
            && Run(c, s, whole, t) && t.workers == m.workers - {w}
            && (TimelyRun(c, Apply(c, s, ClaimMessage(w, start)), acts) && m.now <= start + c.leaseTTL ==> TimelyRun(c, s, whole))
    ensures var k := s.workers[w].msg.key;
            var d := s.db.deliveries[k];
            d.attempts >= 0 && t.db == Finished(m.db, k, d.requestId, EndMove(c, d.attempts, end, m.now))
  {
    hide WellFormed, Enabled, Apply, Run, TimelyRun, Finished, IsOthers, EndMove;
    var claim := ClaimMessage(w, start);
    ClaimFlies(c, s, w, start);
    StepKeepsWellFormed(c, s, claim);
    RunKeepsWellFormed(c, Apply(c, s, claim), acts, m);
    OthersKeepWorker(c, Apply(c, s, claim), acts, m, w);
    FlierHasRequest(c, m, w);
    SnapshotIsBounded(c, s, s.workers[w].msg.key);
    EndStep(c, m, w, end);
    var last := EndAction(c, m, w, end);
    t := Apply(c, m, last);
    RunBetween(c, s, claim, acts, m, last);
    EndIsTimely(c, m, w, end);
  }

  lemma EndIsTimely(c: Config, s: State, w: Id, end: Ending)
    requires IsFlying(s, w) && s.workers[w].attempts >= 0
    ensures s.now <= s.workers[w].lease ==> Timely(s, EndAction(c, s, w, end))
  {
  }
}
