/** Runs in which workers keep their own time bounds, built step by step. */
module PromptRuns {
  import opened Domain
  import opened Database
  import opened Lifecycle
  import opened Integrity
  import opened Leases

  /** A worker at full speed: the wait and the provider call take no longer than their bounds. */
  predicate Prompt(c: Config, slack: nat, s: State, a: Action)
  {
    IsWorkerWrite(a) && IsFlying(s, a.w) ==> IsOnTime(c, slack, s, a.w)
  }

  predicate IsOnTime(c: Config, slack: nat, s: State, w: Id)
    requires IsFlying(s, w)
  {
    var x := s.workers[w];
    match x.sendingSince
    case None => s.now <= x.startedAt + c.rateWaitMax + c.rateWaitStep + slack
    case Some(since) => s.now <= since + c.providerTimeout + slack
  }

  ghost predicate PromptRun(c: Config, slack: nat, s: State, acts: seq<Action>)
    decreases |acts|
  {
    acts != [] ==> Enabled(c, s, acts[0]) && Prompt(c, slack, s, acts[0]) && PromptRun(c, slack, Apply(c, s, acts[0]), acts[1..])
  }

  lemma {:induction false} PromptConcat(c: Config, slack: nat, s: State, first: seq<Action>, m: State, second: seq<Action>)
    requires Run(c, s, first, m) && PromptRun(c, slack, s, first) && PromptRun(c, slack, m, second)
    ensures PromptRun(c, slack, s, first + second)
    decreases |first|
  {
    hide Apply, Enabled, Prompt;
    if first == [] {
      assert first + second == second;
    } else {
      PromptConcat(c, slack, Apply(c, s, first[0]), first[1..], m, second);
      assert (first + second)[0] == first[0] && (first + second)[1..] == first[1..] + second;
    }
  }

  /** Some run of prompt workers leads from s to t. */
  ghost predicate Reaches(c: Config, slack: nat, s: State, t: State)
  {
    exists acts :: Run(c, s, acts, t) && PromptRun(c, slack, s, acts)
  }

  lemma ReachesStep(c: Config, slack: nat, s: State, a: Action)
    requires Enabled(c, s, a) && Prompt(c, slack, s, a)
    ensures Reaches(c, slack, s, Apply(c, s, a))
  {
    hide Enabled, Apply, Prompt;
    assert [a][1..] == [];
    assert Run(c, Apply(c, s, a), [], Apply(c, s, a)) && PromptRun(c, slack, Apply(c, s, a), []);
    assert Run(c, s, [a], Apply(c, s, a)) && PromptRun(c, slack, s, [a]);
  }

  lemma ReachesOn(c: Config, slack: nat, s: State, m: State, t: State)
    requires Reaches(c, slack, s, m) && Reaches(c, slack, m, t)
    ensures Reaches(c, slack, s, t)
  {
    hide Run, PromptRun;
    var first :| Run(c, s, first, m) && PromptRun(c, slack, s, first);
    var second :| Run(c, m, second, t) && PromptRun(c, slack, m, second);
    RunConcat(c, s, first, m, second, t);
    PromptConcat(c, slack, s, first, m, second);
  }

  lemma TickOnly(c: Config, s: State, to: Time)
    requires s.now <= to
    ensures Apply(c, s, Tick(to)) == s.(now := to)
  {
    assert ApplyMoves(s.db.deliveries, map[]) == s.db.deliveries;
  }

  lemma TickTo(c: Config, slack: nat, s: State, to: Time) returns (t: State)
    requires s.now <= to
    ensures Reaches(c, slack, s, t) && t == s.(now := to)
  {
    hide Reaches;
    t := Apply(c, s, Tick(to));
    ReachesStep(c, slack, s, Tick(to));
    TickOnly(c, s, to);
  }

  /** A step of one worker that leaves: the rows change by its move, and it is gone. */
  lemma LastStep(c: Config, slack: nat, s: State, a: Action) returns (t: State)
    requires a.ClaimLost? || a.RequeueDelivery? || a.MarkRetrying? || a.MarkFailed? || a.MarkSent? || a.Crash?
    requires Enabled(c, s, a) && Prompt(c, slack, s, a)
    ensures Reaches(c, slack, s, t) && t.now == s.now && t.workers == s.workers - {a.w}
    ensures t.db == NextDB(c, s, a)
  {
    hide Reaches, NextDB, NextStreams, NextRelays, Enabled, Prompt;
    t := Apply(c, s, a);
    ReachesStep(c, slack, s, a);
  }

  /** The claim: a worker with the snapshot of the row, or none. */
  lemma ClaimRun(c: Config, slack: nat, s: State, w: Id, start: Time) returns (t: State)
    requires w in s.workers && s.workers[w].Holding? && start <= s.now
    ensures var k := s.workers[w].msg.key;
            && Reaches(c, slack, s, t) && t.now == s.now
            && if CanClaim(s.db, k) then
                 var d := s.db.deliveries[k];
                 && t.db == Moved(s.db, k, Claim(start + c.leaseTTL, s.now))
                 && t.workers == s.workers[w := InFlight(k, d.requestId, d.attempts, start + c.leaseTTL, start, None)]
               else t.db == s.db && t.workers == s.workers - {w}
  {
    hide Reaches;
    t := Apply(c, s, ClaimMessage(w, start));
    ReachesStep(c, slack, s, ClaimMessage(w, start));
    assert ApplyMoves(s.db.deliveries, map[]) == s.db.deliveries;
  }

  lemma StartRun(c: Config, slack: nat, s: State, w: Id) returns (t: State)
    requires IsFlying(s, w) && s.workers[w].sendingSince.None? && IsOnTime(c, slack, s, w)
    ensures Reaches(c, slack, s, t) && t.now == s.now && t.db == s.db
    ensures t.workers == s.workers[w := s.workers[w].(sendingSince := Some(s.now))]
  {
    hide Reaches;
    t := Apply(c, s, StartSend(w));
    ReachesStep(c, slack, s, StartSend(w));
    assert ApplyMoves(s.db.deliveries, map[]) == s.db.deliveries;
  }

  /** Giving up leaves the claimed row to the reaper. */
  lemma GiveUpRun(c: Config, slack: nat, s: State, w: Id) returns (t: State)
    requires w in s.workers
    ensures Reaches(c, slack, s, t) && t.db == s.db && w !in t.workers
  {
    hide Reaches;
    t := LastStep(c, slack, s, Crash(w));
    assert ApplyMoves(s.db.deliveries, map[]) == s.db.deliveries;
  }

  /** A requeue keeps the attempts of the snapshot. */
  lemma RequeueRun(c: Config, slack: nat, s: State, w: Id) returns (t: State)
    requires IsFlying(s, w) && IsOnTime(c, slack, s, w)
    ensures Reaches(c, slack, s, t) && w !in t.workers
    ensures t.db == Moved(s.db, s.workers[w].key, Requeue(s.workers[w].attempts, s.now + c.rateWaitStep, s.now))
  {
    hide Reaches, ApplyMoves;
    t := LastStep(c, slack, s, RequeueDelivery(w));
  }

  /** The reaper releases an expired row. */
  lemma ReapRun(c: Config, slack: nat, s: State, k: Key) returns (t: State)
    requires k in s.db.deliveries && IsExpired(s.db.deliveries[k], s.now)
    ensures Reaches(c, slack, s, t) && t.workers == s.workers && t.now == s.now && t.db.requests == s.db.requests
    ensures k in t.db.deliveries && t.db.deliveries[k] == MoveRow(s.db.deliveries[k], Reap(s.now))
  {
    hide Reaches, MoveRow;
    t := Apply(c, s, ReapStuck);
    ReachesStep(c, slack, s, ReapStuck);
    StepRow(c, s, ReapStuck, k);
  }

  /** A cancel closes a cancellable row. */
  lemma CancelRun(c: Config, slack: nat, s: State, r: Id, k: Key) returns (a: Action, t: State)
    requires r in s.db.requests && k in Cancellable(s.db.deliveries, r)
    ensures a == CancelRequest(r, {}, s.now) && Enabled(c, s, a) && t.db == NextDB(c, s, a)
    ensures Reaches(c, slack, s, t) && t.workers == s.workers && t.now == s.now && t.db.requests.Keys == s.db.requests.Keys
    ensures k in t.db.deliveries && t.db.deliveries[k].status.Cancelled? && t.db.deliveries[k].requestId == r
  {
    hide Reaches;
    a := CancelRequest(r, {}, s.now);
    t := Apply(c, s, a);
    ReachesStep(c, slack, s, a);
    StepRow(c, s, a, k);
  }

  /** A send marked, whatever has become of its row. */
  lemma SentRun(c: Config, slack: nat, s: State, w: Id) returns (t: State)
    requires IsSending(s, w) && IsOnTime(c, slack, s, w) && HasRequest(s, w) && s.workers[w].key in s.db.deliveries
    ensures Reaches(c, slack, s, t) && t.workers == s.workers - {w} && t.now == s.now
    ensures s.workers[w].key in t.db.deliveries && t.db.deliveries[s.workers[w].key].status.Sent?
  {
    hide Reaches, Recompute, ApplyMoves;
    t := LastStep(c, slack, s, MarkSent(w, s.now));
    StepRows(c, s, MarkSent(w, s.now));
  }
}
