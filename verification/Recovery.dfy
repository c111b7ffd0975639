/** No lost work: from every reachable state, fault-free steps get any open delivery claimed. */
module Recovery {
  import opened Domain
  import opened Database
  import opened Lifecycle
  import opened Integrity
  import opened Leases
  import opened Relays
  import W = Waiting

  /** Steps in which nothing fails and no one else holds a lock. */
  predicate IsHealthy(a: Action)
  {
    match a
    case Tick(_) => true
    case Read(_, _) => true
    case ClaimMessage(_, _) => true
    case StartSend(_) => true
    case MarkSent(_, _) => true
    case RunDue(_, _, _, skipped) => skipped == {}
    case ReapStuck => true
    case Fetch(_, _, locked) => locked == {}
    case Publish(_) => true
    case MarkBatch(_) => true
    case _ => false
  }

  /** Some healthy run leads from s to t. */
  ghost predicate Leads(c: Config, s: State, t: State)
  {
    Via(c, IsHealthy, s, t)
  }

  lemma LeadsStep(c: Config, s: State, a: Action)
    requires Enabled(c, s, a) && IsHealthy(a)
    ensures Leads(c, s, Apply(c, s, a))
  {
    ViaStep(c, IsHealthy, s, a);
  }

  lemma LeadsOn(c: Config, s: State, m: State, t: State)
    requires Leads(c, s, m) && Leads(c, m, t)
    ensures Leads(c, s, t)
  {
    ViaOn(c, IsHealthy, s, m, t);
  }

  lemma LeadsKeepsWellFormed(c: Config, s: State, t: State)
    requires c.policy.maxAttempts >= 1 && WellFormed(c, s) && Leads(c, s, t)
    ensures WellFormed(c, t)
  {
    var acts :| Run(c, s, acts, t) && forall i :: 0 <= i < |acts| ==> IsHealthy(acts[i]);
    RunKeepsWellFormed(c, s, acts, t);
  }

  /** The healthy steps that carry a message from the outbox to a claim: no time passes and no claimed row is written. */
  predicate IsFeeding(a: Action)
  {
    IsHealthy(a) && (a.Read? || a.ClaimMessage? || a.Fetch? || a.Publish? || a.MarkBatch?)
  }

  ghost predicate Feeds(c: Config, s: State, t: State)
  {
    Via(c, IsFeeding, s, t)
  }

  lemma FeedsNothing(c: Config, s: State)
    ensures Feeds(c, s, s)
  {
    ViaNothing(c, IsFeeding, s);
  }

  lemma FeedsStep(c: Config, s: State, a: Action)
    requires Enabled(c, s, a) && IsFeeding(a)
    ensures Feeds(c, s, Apply(c, s, a))
  {
    ViaStep(c, IsFeeding, s, a);
  }

  lemma FeedsOn(c: Config, s: State, m: State, t: State)
    requires Feeds(c, s, m) && Feeds(c, m, t)
    ensures Feeds(c, s, t)
  {
    ViaOn(c, IsFeeding, s, m, t);
  }

  lemma FeedsLead(c: Config, s: State, t: State)
    requires Feeds(c, s, t)
    ensures Leads(c, s, t)
  {
    ViaMore(c, IsFeeding, IsHealthy, s, t);
  }

  // ---- Choosing rows and fresh identifiers ----

  lemma {:induction false} FreshId(used: set<Id>) returns (id: Id)
    ensures forall u :: u in used ==> u < id
    decreases |used|
  {
    if used == {} {
      return 0;
    }
    var x :| x in used;
    var above := FreshId(used - {x});
    id := if x < above then above else x + 1;
    assert forall u :: u in used ==> u == x || u in used - {x};
  }

  lemma FreshIdsFor(used: set<Id>, n: nat) returns (ids: seq<Id>)
    ensures |ids| == n && Distinct(ids) && forall i :: 0 <= i < |ids| ==> ids[i] !in used
  {
    var base := FreshId(used);
    ids := seq(n, i requires i >= 0 => base + i);
  }

  // ---- Outbox to stream ----

  lemma PublishOne(c: Config, s: State, r: Id) returns (t: State)
    requires r in s.relays && s.relays[r].next < |s.relays[r].entries|
    ensures Feeds(c, s, t) && t.db == s.db && t.now == s.now && t.workers == s.workers
    ensures var x := s.relays[r];
            && r in t.relays && t.relays[r] == x.(next := x.next + 1, published := x.published + {x.entries[x.next].id})
            && x.entries[x.next].message in QueueOf(t, x.entries[x.next].stream)
    ensures forall st, m :: m in QueueOf(s, st) ==> m in QueueOf(t, st)
  {
    hide Feeds;
    t := Apply(c, s, Publish(r));
    FeedsStep(c, s, Publish(r));
    NoMoves(s.db);
  }

  function IdsFrom(es: seq<Entry>, i: nat): set<Id>
  {
    set j | i <= j < |es| :: es[j].id
  }

  /** Publishing a fetched batch to its end. */
  lemma {:induction false} PublishAll(c: Config, s: State, r: Id) returns (t: State)
    requires r in s.relays && s.relays[r].next <= |s.relays[r].entries|
    ensures Feeds(c, s, t) && t.db == s.db && t.now == s.now && t.workers == s.workers
    ensures r in t.relays && t.relays[r].entries == s.relays[r].entries && t.relays[r].next == |t.relays[r].entries|
    ensures t.relays[r].published == s.relays[r].published + IdsFrom(s.relays[r].entries, s.relays[r].next)
    ensures forall i :: s.relays[r].next <= i < |s.relays[r].entries| ==>
                          s.relays[r].entries[i].message in QueueOf(t, s.relays[r].entries[i].stream)
    ensures forall st, m :: m in QueueOf(s, st) ==> m in QueueOf(t, st)
    decreases |s.relays[r].entries| - s.relays[r].next
  {
    hide Feeds, QueueOf;
    var x := s.relays[r];
    if x.next == |x.entries| {
      FeedsNothing(c, s);
      t := s;
    } else {
      var u := PublishOne(c, s, r);
      t := PublishAll(c, u, r);
      FeedsOn(c, s, u, t);
      assert IdsFrom(x.entries, x.next) == {x.entries[x.next].id} + IdsFrom(x.entries, x.next + 1);
    }
  }

  lemma FetchBatch(c: Config, s: State) returns (chosen: seq<Id>, r: Id, t: State)
    requires c.outboxBatch >= 1
    ensures Picked(OpenRows(s.db.outbox), CreationTimes(s.db.outbox), c.outboxBatch, chosen)
    ensures Feeds(c, s, t) && t.db == s.db && t.now == s.now && t.workers == s.workers
    ensures r in t.relays && t.relays[r] == Relay(EntriesFor(s.db.outbox, chosen), 0, {})
  {
    hide Feeds;
    chosen := Pick(OpenRows(s.db.outbox), CreationTimes(s.db.outbox), c.outboxBatch);
    r := FreshId(s.relays.Keys);
    var a := Fetch(r, chosen, {});
    assert OpenRows(s.db.outbox) - {} == OpenRows(s.db.outbox);
    t := Apply(c, s, a);
    FeedsStep(c, s, a);
    NoMoves(s.db);
  }

  lemma MarkPass(c: Config, s: State, r: Id) returns (t: State)
    requires r in s.relays && s.relays[r].next == |s.relays[r].entries|
    ensures Feeds(c, s, t) && t.now == s.now && t.workers == s.workers
    ensures t.db == s.db.(outbox := MarkPublished(s.db.outbox, s.relays[r].published, s.now))
  {
    hide Feeds;
    t := Apply(c, s, MarkBatch(r));
    FeedsStep(c, s, MarkBatch(r));
  }

  /** A relay pass: fetch, publish everything (u), mark (t). */
  lemma RelayPass(c: Config, s: State) returns (chosen: seq<Id>, u: State, t: State)
    requires c.outboxBatch >= 1
    ensures Picked(OpenRows(s.db.outbox), CreationTimes(s.db.outbox), c.outboxBatch, chosen)
    ensures Feeds(c, s, u) && u.db == s.db && u.now == s.now && u.workers == s.workers
    ensures forall i :: 0 <= i < |chosen| ==> s.db.outbox[chosen[i]].message in QueueOf(u, s.db.outbox[chosen[i]].stream)
    ensures Feeds(c, s, t) && t.now == s.now && t.workers == s.workers
    ensures t.db == s.db.(outbox := MarkPublished(s.db.outbox, Elements(chosen), s.now))
  {
    hide Feeds, QueueOf, MarkPublished;
    var r, f;
    chosen, r, f := FetchBatch(c, s);
    var es := EntriesFor(s.db.outbox, chosen);
    u := PublishAll(c, f, r);
    FeedsOn(c, s, f, u);
    t := MarkPass(c, u, r);
    FeedsOn(c, s, u, t);
    assert IdsFrom(es, 0) == Elements(chosen) by {
      assert forall i :: 0 <= i < |es| ==> es[i].id == chosen[i];
    }
    assert u.relays[r].published == Elements(chosen);
  }

  lemma MarkShrinks(outbox: map<Id, OutboxRow>, chosen: seq<Id>, at: Time)
    ensures var next := MarkPublished(outbox, Elements(chosen), at);
            && OpenRows(next) == OpenRows(outbox) - Elements(chosen)
            && forall o :: o in outbox ==> o in next && next[o].message == outbox[o].message && next[o].stream == outbox[o].stream
  {
  }

  /** Every open outbox row reaches its stream. */
  lemma {:induction false} OutboxReachesStream(c: Config, s: State, o: Id) returns (t: State)
    requires c.outboxBatch >= 1 && o in OpenRows(s.db.outbox)
    ensures Feeds(c, s, t) && t.db.deliveries == s.db.deliveries && t.now == s.now
    ensures s.db.outbox[o].message in QueueOf(t, s.db.outbox[o].stream)
    decreases |OpenRows(s.db.outbox)|
  {
    hide Feeds, QueueOf, MarkPublished;
    var chosen, u, m := RelayPass(c, s);
    if o in chosen {
      t := u;
    } else {
      MarkShrinks(s.db.outbox, chosen, s.now);
      assert chosen[0] in OpenRows(s.db.outbox);
      Smaller(OpenRows(m.db.outbox), OpenRows(s.db.outbox));
      t := OutboxReachesStream(c, m, o);
      FeedsOn(c, s, m, t);
    }
  }

  lemma Smaller<T>(a: set<T>, b: set<T>)
    requires a < b
    ensures |a| < |b|
  {
    assert b == a + (b - a);
  }

  // ---- Stream to claim ----

  lemma ReadStep(c: Config, s: State, st: Stream) returns (w: Id, t: State)
    requires c.policy.maxAttempts >= 1 && WellFormed(c, s) && QueueOf(s, st) != []
    ensures Feeds(c, s, t) && Leads(c, s, t) && WellFormed(c, t) && t.db == s.db && t.now == s.now
    ensures w in t.workers && t.workers[w] == Holding(QueueOf(s, st)[0]) && QueueOf(t, st) == QueueOf(s, st)[1..]
  {
    hide Leads, Feeds, WellFormed;
    w := FreshId(s.workers.Keys);
    t := Apply(c, s, Read(w, st));
    FeedsStep(c, s, Read(w, st));
    FeedsLead(c, s, t);
    StepKeepsWellFormed(c, s, Read(w, st));
    NoMoves(s.db);
  }

  lemma ClaimStep(c: Config, s: State, w: Id, k: Key) returns (t: State)
    requires c.policy.maxAttempts >= 1 && WellFormed(c, s) && w in s.workers && s.workers[w].Holding?
    requires k in s.db.deliveries && s.db.deliveries[k].status.IsClaimable()
    ensures Leads(c, s, t) && WellFormed(c, t) && t.streams == s.streams && k in t.db.deliveries
    ensures t.db.deliveries[k] ==
            if s.workers[w].msg.key == k then MoveRow(s.db.deliveries[k], Claim(s.now + c.leaseTTL, s.now)) else s.db.deliveries[k]
    ensures IsFlying(t, w) ==> t.workers[w].key == s.workers[w].msg.key && t.workers[w].sendingSince.None?
  {
    hide Leads, WellFormed;
    var a := ClaimMessage(w, s.now);
    t := Apply(c, s, a);
    LeadsStep(c, s, a);
    StepKeepsWellFormed(c, s, a);
    StepRow(c, s, a, k);
  }

  lemma StartStep(c: Config, s: State, w: Id) returns (t: State)
    requires c.policy.maxAttempts >= 1 && WellFormed(c, s) && IsFlying(s, w) && s.workers[w].sendingSince.None?
    ensures Leads(c, s, t) && WellFormed(c, t) && t.streams == s.streams && t.db == s.db
    ensures IsSending(t, w) && t.workers[w].key == s.workers[w].key
  {
    hide Leads, WellFormed;
    t := Apply(c, s, StartSend(w));
    LeadsStep(c, s, StartSend(w));
    StepKeepsWellFormed(c, s, StartSend(w));
    NoMoves(s.db);
  }

  lemma FinishStep(c: Config, s: State, w: Id, k: Key) returns (t: State)
    requires c.policy.maxAttempts >= 1 && WellFormed(c, s) && IsSending(s, w)
    requires k in s.db.deliveries && s.workers[w].key != k
    ensures Leads(c, s, t) && t.streams == s.streams && k in t.db.deliveries && t.db.deliveries[k] == s.db.deliveries[k]
  {
    assert HasRequest(s, w) by { assert WorkerOk(c, s.db.deliveries, s.workers[w]); }
    var a := MarkSent(w, s.now);
    t := Apply(c, s, a);
    LeadsStep(c, s, a);
    StepRow(c, s, a, k);
  }

  /** A healthy worker takes the head of a stream and, unless it is k's, finishes it. */
  lemma TakeHead(c: Config, s: State, st: Stream, k: Key) returns (t: State)
    requires c.policy.maxAttempts >= 1 && WellFormed(c, s) && QueueOf(s, st) != []
    requires k in s.db.deliveries && s.db.deliveries[k].status.IsClaimable()
    ensures Leads(c, s, t) && k in t.db.deliveries
    ensures if QueueOf(s, st)[0].key == k then t.db.deliveries[k] == MoveRow(s.db.deliveries[k], Claim(s.now + c.leaseTTL, s.now))
            else t.db.deliveries[k] == s.db.deliveries[k] && QueueOf(t, st) == QueueOf(s, st)[1..]
  {
    hide Leads, WellFormed, MoveRow;
    var w, u := ReadStep(c, s, st);
    var v := ClaimStep(c, u, w, k);
    LeadsOn(c, s, u, v);
    t := v;
    if QueueOf(s, st)[0].key != k && IsFlying(v, w) {
      var x := StartStep(c, v, w);
      t := FinishStep(c, x, w, k);
      LeadsOn(c, v, x, t);
      LeadsOn(c, s, v, t);
    }
  }

  /** A message for a claimable delivery gets it claimed, whatever is queued before it. */
  lemma {:induction false} StreamReachesClaim(c: Config, s: State, st: Stream, p: nat, k: Key) returns (t: State)
    requires c.policy.maxAttempts >= 1 && WellFormed(c, s)
    requires p < |QueueOf(s, st)| && QueueOf(s, st)[p].key == k
    requires k in s.db.deliveries && s.db.deliveries[k].status.IsClaimable()
    ensures Leads(c, s, t) && k in t.db.deliveries && t.db.deliveries[k].status.Processing?
    ensures t.db.deliveries[k].history.claims == s.db.deliveries[k].history.claims + 1
    decreases p
  {
    hide Leads;
    t := TakeHead(c, s, st, k);
    if QueueOf(s, st)[0].key != k {
      LeadsKeepsWellFormed(c, s, t);
      var u := t;
      t := StreamReachesClaim(c, u, st, p - 1, k);
      LeadsOn(c, s, u, t);
    }
  }

  /** A pending delivery with an open outbox row gets claimed. */
  lemma OpenRowReachesClaim(c: Config, s: State, o: Id, k: Key) returns (t: State)
    requires c.policy.maxAttempts >= 1 && c.outboxBatch >= 1 && WellFormed(c, s)
    requires k in s.db.deliveries && s.db.deliveries[k].status.Pending?
    requires o in OpenRows(s.db.outbox) && s.db.outbox[o].key == k
    ensures Leads(c, s, t) && k in t.db.deliveries && t.db.deliveries[k].status.Processing?
    ensures t.db.deliveries[k].history.claims == s.db.deliveries[k].history.claims + 1
  {
    hide Leads, Feeds;
    var u := OutboxReachesStream(c, s, o);
    FeedsLead(c, s, u);
    LeadsKeepsWellFormed(c, s, u);
    var row := s.db.outbox[o];
    assert Genuine(s.db.deliveries, row.stream, row.message);
    var p :| 0 <= p < |QueueOf(u, row.stream)| && QueueOf(u, row.stream)[p] == row.message;
    t := StreamReachesClaim(c, u, row.stream, p, k);
    LeadsOn(c, s, u, t);
  }

  // ---- Due rows to outbox ----

  /** A due row gets its turn, however many are due before it. */
  lemma {:induction false} DueReachesOutbox(c: Config, s: State, job: Job, k: Key) returns (t: State, o: Id)
    requires c.policy.maxAttempts >= 1 && c.promoteBatch >= 1 && WellFormed(c, s)
    requires k in Due(s.db, job, s.now, c.reconcileAfter)
    ensures Leads(c, s, t) && k in t.db.deliveries && t.db.deliveries[k].status.Pending?
    ensures t.db.deliveries[k].history == s.db.deliveries[k].history
    ensures o in OpenRows(t.db.outbox) && t.db.outbox[o].key == k
    decreases |Due(s.db, job, s.now, c.reconcileAfter)|
  {
    hide Leads, WellFormed, Due;
    var chosen, ids, u := RunBatch(c, s, job, k);
    if k in chosen {
      var i :| 0 <= i < |chosen| && chosen[i] == k;
      t, o := u, ids[i];
    } else {
      DueShrinks(c, s, job, chosen, ids, k);
      t, o := DueReachesOutbox(c, u, job, k);
      LeadsOn(c, s, u, t);
    }
  }

  lemma PickBatch(c: Config, s: State, job: Job) returns (chosen: seq<Key>, ids: seq<Id>)
    requires c.promoteBatch >= 1
    ensures Enabled(c, s, RunDue(job, chosen, ids, {}))
  {
    var due := Due(s.db, job, s.now, c.reconcileAfter);
    chosen := Pick(due, Ranks(s.db.deliveries, job), c.promoteBatch);
    ids := FreshIdsFor(SeenIds(s), |chosen|);
    assert s.db.outbox.Keys <= SeenIds(s);
    assert due - {} == due;
    hide Due, Picked, SeenIds, Ranks;
  }

  /** What a batch does to the rows it chose. */
  lemma BatchRows(c: Config, s: State, job: Job, chosen: seq<Key>, ids: seq<Id>)
    requires Enabled(c, s, RunDue(job, chosen, ids, {}))
    ensures var t := Apply(c, s, RunDue(job, chosen, ids, {}));
            && |ids| == |chosen|
            && forall i :: 0 <= i < |chosen| ==>
                             && chosen[i] in s.db.deliveries && chosen[i] in t.db.deliveries && t.db.deliveries[chosen[i]].status.Pending?
                             && t.db.deliveries[chosen[i]].history == s.db.deliveries[chosen[i]].history
                             && ids[i] in OpenRows(t.db.outbox) && t.db.outbox[ids[i]].key == chosen[i]
  {
    hide Enabled, Apply, NextDB, Enqueue;
    var a := RunDue(job, chosen, ids, {});
    RunDueFacts(c, s, a);
    EnqueueRows(s.db.outbox, s.db.deliveries, chosen, ids, s.now);
    ApplyParts(c, s, a);
    forall i | 0 <= i < |chosen|
      ensures var es := Apply(c, s, a).db.deliveries;
              chosen[i] in es && es[chosen[i]].status.Pending? && es[chosen[i]].history == s.db.deliveries[chosen[i]].history
    {
      W.ChosenRow(c, s, a, chosen[i]);
    }
  }

  lemma RunBatch(c: Config, s: State, job: Job, k: Key) returns (chosen: seq<Key>, ids: seq<Id>, t: State)
    requires c.policy.maxAttempts >= 1 && c.promoteBatch >= 1 && WellFormed(c, s)
    requires k in Due(s.db, job, s.now, c.reconcileAfter)
    ensures Enabled(c, s, RunDue(job, chosen, ids, {})) && t == Apply(c, s, RunDue(job, chosen, ids, {}))
    ensures Leads(c, s, t) && WellFormed(c, t)
    ensures k in chosen ==> k in t.db.deliveries && t.db.deliveries[k].status.Pending? && t.db.deliveries[k].history == s.db.deliveries[k].history
    ensures |ids| == |chosen| && forall i :: 0 <= i < |chosen| ==> ids[i] in OpenRows(t.db.outbox) && t.db.outbox[ids[i]].key == chosen[i]
  {
    hide Leads, WellFormed, Enabled, Apply;
    chosen, ids := PickBatch(c, s, job);
    var a := RunDue(job, chosen, ids, {});
    t := Apply(c, s, a);
    LeadsStep(c, s, a);
    StepKeepsWellFormed(c, s, a);
    BatchRows(c, s, job, chosen, ids);
  }

  /** After a batch the chosen rows are no longer due. */
  lemma ChosenIsDone(db: DB, job: Job, chosen: seq<Key>, ids: seq<Id>, now: Time, after: Duration, l: Key)
    requires |ids| == |chosen| && FreshIds(db, ids)
    requires forall i :: 0 <= i < |chosen| ==> chosen[i] in db.deliveries
    requires l in Due(RunJob(db, job, chosen, ids, now), job, now, after)
    ensures l in Due(db, job, now, after) && l !in chosen
  {
    EnqueueRows(db.outbox, db.deliveries, chosen, ids, now);
  }

  /** The rows left out of a batch are still due. */
  lemma OthersStayDue(db: DB, job: Job, chosen: seq<Key>, ids: seq<Id>, now: Time, after: Duration, k: Key)
    requires |ids| == |chosen| && FreshIds(db, ids) && UniqueIds(db.deliveries)
    requires forall i :: 0 <= i < |chosen| ==> chosen[i] in db.deliveries
    requires k in Due(db, job, now, after) && k !in chosen
    ensures k in Due(RunJob(db, job, chosen, ids, now), job, now, after)
    ensures RunJob(db, job, chosen, ids, now).deliveries[k] == db.deliveries[k]
  {
    EnqueueRows(db.outbox, db.deliveries, chosen, ids, now);
  }

  lemma DueShrinks(c: Config, s: State, job: Job, chosen: seq<Key>, ids: seq<Id>, k: Key)
    requires WellFormed(c, s) && c.promoteBatch >= 1
    requires Enabled(c, s, RunDue(job, chosen, ids, {}))
    requires k in Due(s.db, job, s.now, c.reconcileAfter) && k !in chosen
    ensures var u := Apply(c, s, RunDue(job, chosen, ids, {}));
            && k in Due(u.db, job, u.now, c.reconcileAfter) && u.db.deliveries[k] == s.db.deliveries[k]
            && |Due(u.db, job, u.now, c.reconcileAfter)| < |Due(s.db, job, s.now, c.reconcileAfter)|
  {
    var next := RunJob(s.db, job, chosen, ids, s.now);
    var due, left := Due(s.db, job, s.now, c.reconcileAfter), Due(next, job, s.now, c.reconcileAfter);
    assert due - {} == due && chosen[0] in due;
    assert forall i :: 0 <= i < |chosen| ==> chosen[i] in due;
    forall l | l in left ensures l in due && l !in chosen {
      ChosenIsDone(s.db, job, chosen, ids, s.now, c.reconcileAfter, l);
    }
    OthersStayDue(s.db, job, chosen, ids, s.now, c.reconcileAfter, k);
    assert left < due;
    Smaller(left, due);
  }

  // ---- From every open status ----

  lemma Wait(c: Config, s: State, until: Time) returns (t: State)
    requires c.policy.maxAttempts >= 1 && WellFormed(c, s)
    ensures Leads(c, s, t) && WellFormed(c, t) && t.db == s.db && t.now >= until
  {
    hide Leads;
    var to := if until > s.now then until else s.now;
    t := Apply(c, s, Tick(to));
    LeadsStep(c, s, Tick(to));
    StepKeepsWellFormed(c, s, Tick(to));
    NoMoves(s.db);
  }

  lemma DueReachesClaim(c: Config, s: State, job: Job, k: Key) returns (t: State)
    requires c.policy.maxAttempts >= 1 && c.promoteBatch >= 1 && c.outboxBatch >= 1 && WellFormed(c, s)
    requires k in Due(s.db, job, s.now, c.reconcileAfter)
    ensures Leads(c, s, t) && k in t.db.deliveries && t.db.deliveries[k].status.Processing?
    ensures t.db.deliveries[k].history.claims == s.db.deliveries[k].history.claims + 1
  {
    hide Leads;
    var u, o := DueReachesOutbox(c, s, job, k);
    LeadsKeepsWellFormed(c, s, u);
    t := OpenRowReachesClaim(c, u, o, k);
    LeadsOn(c, s, u, t);
  }

  lemma PendingReachesClaim(c: Config, s: State, k: Key) returns (t: State)
    requires c.policy.maxAttempts >= 1 && c.promoteBatch >= 1 && c.outboxBatch >= 1 && WellFormed(c, s)
    requires k in s.db.deliveries && s.db.deliveries[k].status.Pending?
    ensures Leads(c, s, t) && k in t.db.deliveries && t.db.deliveries[k].status.Processing?
    ensures t.db.deliveries[k].history.claims == s.db.deliveries[k].history.claims + 1
  {
    hide Leads;
    if HasOpenOutboxRow(s.db.outbox, k.id) {
      var o :| o in s.db.outbox && s.db.outbox[o].key.id == k.id && s.db.outbox[o].publishedAt.None?;
      assert Genuine(s.db.deliveries, s.db.outbox[o].stream, s.db.outbox[o].message);
      t := OpenRowReachesClaim(c, s, o, k);
    } else {
      var u := Wait(c, s, s.db.deliveries[k].updatedAt + c.reconcileAfter + 1);
      t := DueReachesClaim(c, u, ReconcileJob, k);
      LeadsOn(c, s, u, t);
    }
  }

  lemma ProcessingReachesRetry(c: Config, s: State, k: Key) returns (t: State)
    requires c.policy.maxAttempts >= 1 && WellFormed(c, s)
    requires k in s.db.deliveries && s.db.deliveries[k].status.Processing?
    ensures Leads(c, s, t) && WellFormed(c, t) && k in Due(t.db, SweepJob, t.now, c.reconcileAfter)
    ensures t.db.deliveries[k].history.claims == s.db.deliveries[k].history.claims
  {
    hide Leads;
    assert RowOk(c, s.db.deliveries[k]);
    var u := Wait(c, s, s.db.deliveries[k].lockedUntil.value + 1);
    t := Apply(c, u, ReapStuck);
    LeadsStep(c, u, ReapStuck);
    StepKeepsWellFormed(c, u, ReapStuck);
    StepRow(c, u, ReapStuck, k);
    LeadsOn(c, s, u, t);
  }

  /** Once faults stop, any open delivery gets claimed again, with no help from what was in memory or in the streams. */
  lemma OpenDeliveryGetsClaimed(c: Config, s: State, k: Key) returns (t: State)
    requires c.policy.maxAttempts >= 1 && c.promoteBatch >= 1 && c.outboxBatch >= 1 && WellFormed(c, s)
    requires k in s.db.deliveries && !s.db.deliveries[k].status.IsTerminal()
    ensures Leads(c, s, t) && k in t.db.deliveries && t.db.deliveries[k].status.Processing?
    ensures t.db.deliveries[k].history.claims == s.db.deliveries[k].history.claims + 1
  {
    hide Leads;
    var d := s.db.deliveries[k];
    assert RowOk(c, d);
    match d.status
    case Scheduled =>
      var u := Wait(c, s, d.sendAt.value);
      t := DueReachesClaim(c, u, PromoteJob, k);
      LeadsOn(c, s, u, t);
    case Retrying =>
      var u := Wait(c, s, d.nextRetryAt.value);
      t := DueReachesClaim(c, u, SweepJob, k);
      LeadsOn(c, s, u, t);
    case Pending =>
      t := PendingReachesClaim(c, s, k);
    case Processing =>
      var u := ProcessingReachesRetry(c, s, k);
      t := DueReachesClaim(c, u, SweepJob, k);
      LeadsOn(c, s, u, t);
    case _ =>
      assert false;
      t := s;
  }

  /** No lost work: after any run at all, crashes, lost claims, failed publishes and lost streams included. */
  lemma NoLostWork(c: Config, s: State, acts: seq<Action>, m: State, k: Key)
    requires c.policy.maxAttempts >= 1 && c.promoteBatch >= 1 && c.outboxBatch >= 1
    requires WellFormed(c, s) && Run(c, s, acts, m)
    requires k in m.db.deliveries && !m.db.deliveries[k].status.IsTerminal()
    ensures exists t :: Leads(c, m, t) && k in t.db.deliveries && t.db.deliveries[k].status.Processing?
                        && t.db.deliveries[k].history.claims == m.db.deliveries[k].history.claims + 1
  {
    RunKeepsWellFormed(c, s, acts, m);
    var t := OpenDeliveryGetsClaimed(c, m, k);
  }
}
