/** The delivery protocol as a transition system: API, scheduler, relays, workers and faults. */
module Lifecycle {
  import opened Domain
  import opened Database
  import Retry

  datatype Config = Config(
    leaseTTL: Duration, rateWaitStep: Duration, rateWaitMax: Duration, providerTimeout: Duration,
    policy: Retry.Policy, promoteBatch: int, outboxBatch: int, reconcileAfter: Duration)

  /** A worker goroutine busy with one message: before its claim, or holding what the claim returned. */
  datatype Worker =
    | Holding(msg: Message)
    | InFlight(key: Key, requestId: Id, attempts: int, lease: Time, startedAt: Time, sendingSince: Option<Time>)

  /** An outbox row as the relay fetched it. */
  datatype Entry = Entry(id: Id, stream: Stream, message: Message)

  /** A relay pass: its fetched batch, the position reached, and what it published. */
  datatype Relay = Relay(entries: seq<Entry>, next: nat, published: set<Id>)

  /** `appended` records every successful publish. No step reads it. */
  datatype State = State(
    now: Time, db: DB, streams: map<Stream, seq<Message>>, workers: map<Id, Worker>, relays: map<Id, Relay>,
    appended: set<Entry>)

  datatype Action =
    | Tick(to: Time)
    | Create(item: NewItem)
    | CreateMany(batchId: Id, userId: string, idemKey: Option<string>, items: seq<NewItem>)
    // `spared` holds rows that left PROCESSING between the cancel's UPDATE and its commit, so they were claimed before
    | CancelRequest(requestId: Id, spared: set<Key>, at: Time)
    | Read(w: Id, stream: Stream)
    | ClaimMessage(w: Id, startedAt: Time)
    // the claim committed, its answer was lost, the message is acknowledged
    | ClaimLost(w: Id, startedAt: Time)
    | StartSend(w: Id)
    | RequeueDelivery(w: Id)
    | MarkRetrying(w: Id, perr: Option<Retry.ProviderError>, u: Retry.Draw)
    | MarkFailed(w: Id, perr: Option<Retry.ProviderError>, u: Retry.Draw, at: Time)
    | MarkSent(w: Id, at: Time)
    // process death, or any step whose error return leaves the row untouched
    | Crash(w: Id)
    // `skipped` holds rows locked by other transactions
    | RunDue(job: Job, chosen: seq<Key>, ids: seq<Id>, skipped: set<Key>)
    | ReapStuck
    | Fetch(r: Id, fetched: seq<Id>, locked: set<Id>)
    | Publish(r: Id)
    | PublishFail(r: Id)
    | MarkBatch(r: Id)
    | RelayCrash(r: Id)
    | Purge(before: Time)
    | LoseStreams

  function QueueOf(s: State, st: Stream): seq<Message>
  {
    if st in s.streams then s.streams[st] else []
  }

  predicate IsFlying(s: State, w: Id)
  {
    w in s.workers && s.workers[w].InFlight?
  }

  predicate IsSending(s: State, w: Id)
  {
    IsFlying(s, w) && s.workers[w].sendingSince.Some?
  }

  /** Identifiers are drawn afresh. */
  ghost predicate FreshItem(db: DB, item: NewItem, now: Time)
  {
    && item.requestId !in db.requests
    && item.outboxId !in db.outbox
    && (forall k :: k in db.deliveries ==> k.id != item.key.id)
    && item.key.createdAt <= now
  }

  ghost predicate FreshItems(db: DB, items: seq<NewItem>, now: Time)
  {
    && (forall i :: 0 <= i < |items| ==> FreshItem(db, items[i], now))
    && (forall i, j :: 0 <= i < j < |items| ==>
          items[i].requestId != items[j].requestId && items[i].outboxId != items[j].outboxId && items[i].key.id != items[j].key.id)
  }

  ghost predicate BatchConflicts(batches: map<Id, Batch>, userId: string, idemKey: Option<string>)
  {
    idemKey.Some? && exists b :: b in batches && batches[b].userId == userId && batches[b].idemKey == idemKey
  }

  function OpenRows(outbox: map<Id, OutboxRow>): set<Id>
  {
    set o | o in outbox && outbox[o].publishedAt.None?
  }

  function CreationTimes(outbox: map<Id, OutboxRow>): map<Id, Time>
  {
    map o | o in outbox :: outbox[o].createdAt
  }

  /** Every outbox identifier that has been drawn and may still be referred to. */
  function SeenIds(s: State): set<Id>
  {
    s.db.outbox.Keys
    + (set r, i | r in s.relays && 0 <= i < |s.relays[r].entries| :: s.relays[r].entries[i].id)
    + (set e | e in s.appended :: e.id)
  }

  ghost predicate FreshIds(db: DB, ids: seq<Id>)
  {
    Distinct(ids) && forall i :: 0 <= i < |ids| ==> ids[i] !in db.outbox
  }

  /** Whether the row a worker marks is a row of a stored request, so that its transaction can commit. */
  predicate HasRequest(s: State, w: Id)
    requires IsFlying(s, w)
  {
    s.workers[w].requestId in s.db.requests
  }

  ghost predicate Enabled(c: Config, s: State, a: Action)
  {
    match a
    case Tick(to) => s.now <= to
    case Create(item) =>
      FreshItem(s.db, item, s.now) && item.outboxId !in SeenIds(s) && !Conflicts(s.db.requests, item.userId, item.idemKey)
    case CreateMany(batchId, userId, idemKey, items) =>
      && batchId !in s.db.batches && FreshItems(s.db, items, s.now)
      && (forall i :: 0 <= i < |items| ==> items[i].userId == userId && items[i].outboxId !in SeenIds(s))
      && !BatchConflicts(s.db.batches, userId, idemKey)
    case CancelRequest(requestId, spared, at) =>
      && requestId in s.db.requests && at <= s.now && spared < Cancellable(s.db.deliveries, requestId)
      && forall k :: k in spared ==> s.db.deliveries[k].history.claims > 0
    case Read(w, stream) => w !in s.workers && QueueOf(s, stream) != []
    case ClaimMessage(w, startedAt) => w in s.workers && s.workers[w].Holding? && startedAt <= s.now
    case ClaimLost(w, startedAt) => w in s.workers && s.workers[w].Holding? && startedAt <= s.now
    case StartSend(w) => IsFlying(s, w) && s.workers[w].sendingSince.None?
    case RequeueDelivery(w) => IsFlying(s, w)
    case MarkRetrying(w, perr, u) => IsSending(s, w) && s.workers[w].attempts >= 0 && FailureOf(c, s, w, perr, u).RetryAt?
    case MarkFailed(w, perr, u, at) =>
      IsSending(s, w) && s.workers[w].attempts >= 0 && HasRequest(s, w) && at <= s.now && FailureOf(c, s, w, perr, u).GiveUp?
    case MarkSent(w, at) => IsSending(s, w) && HasRequest(s, w) && at <= s.now
    case Crash(w) => w in s.workers
    case RunDue(job, chosen, ids, skipped) =>
      && Picked(Due(s.db, job, s.now, c.reconcileAfter) - skipped, Ranks(s.db.deliveries, job), c.promoteBatch, chosen)
      && |ids| == |chosen| && FreshIds(s.db, ids) && (forall i :: 0 <= i < |ids| ==> ids[i] !in SeenIds(s))
    case ReapStuck => true
    case Fetch(r, fetched, locked) =>
      r !in s.relays && Picked(OpenRows(s.db.outbox) - locked, CreationTimes(s.db.outbox), c.outboxBatch, fetched)
    case Publish(r) => r in s.relays && s.relays[r].next < |s.relays[r].entries|
    case PublishFail(r) => r in s.relays && s.relays[r].next < |s.relays[r].entries|
    case MarkBatch(r) => r in s.relays && s.relays[r].next >= |s.relays[r].entries|
    case RelayCrash(r) => r in s.relays
    case Purge(before) => true
    case LoseStreams => true
  }

  function FailureOf(c: Config, s: State, w: Id, perr: Option<Retry.ProviderError>, u: Retry.Draw): Retry.Outcome
    requires IsFlying(s, w) && s.workers[w].attempts >= 0
  {
    Retry.Evaluate(c.policy, s.now, s.workers[w].attempts, perr, u)
  }

  /** The update of a claim, guarded by status. */
  function ClaimMoves(c: Config, s: State, w: Id, startedAt: Time): map<Key, Move>
    requires w in s.workers && s.workers[w].Holding?
  {
    var k := s.workers[w].msg.key;
    if k in s.db.deliveries && s.db.deliveries[k].status.IsClaimable()
    then map[k := Claim(startedAt + c.leaseTTL, s.now)] else map[]
  }

  /** The delivery rows an action updates. */
  function Moves(c: Config, s: State, a: Action): map<Key, Move>
    requires Enabled(c, s, a)
  {
    match a
    case CancelRequest(requestId, spared, at) => map k | k in Cancellable(s.db.deliveries, requestId) - spared :: Cancel(at)
    case ClaimMessage(w, startedAt) => ClaimMoves(c, s, w, startedAt)
    case ClaimLost(w, startedAt) => ClaimMoves(c, s, w, startedAt)
    case RequeueDelivery(w) => map[s.workers[w].key := Requeue(s.workers[w].attempts, s.now + c.rateWaitStep, s.now)]
    case MarkRetrying(w, perr, u) =>
      var o := FailureOf(c, s, w, perr, u);
      map[s.workers[w].key := Retry(o.attempts, o.next, s.now)]
    case MarkFailed(w, perr, u, at) => map[s.workers[w].key := Fail(FailureOf(c, s, w, perr, u).attempts, at)]
    case MarkSent(w, at) => map[s.workers[w].key := Send(at)]
    case RunDue(job, chosen, ids, skipped) => JobMoves(job, chosen, s.now)
    case ReapStuck => ReapMoves(s.db.deliveries, s.now)
    case _ => map[]
  }

  ghost function NextDB(c: Config, s: State, a: Action): DB
    requires Enabled(c, s, a)
  {
    var moved := s.db.(deliveries := ApplyMoves(s.db.deliveries, Moves(c, s, a)));
    match a
    case Create(item) => Insert(s.db, item, None, s.now)
    case CreateMany(batchId, userId, idemKey, items) => CreateBatch(s.db, batchId, userId, idemKey, items, s.now)
    case CancelRequest(requestId, spared, at) => Recompute(moved, requestId)
    case MarkFailed(w, perr, u, at) => Recompute(moved, s.workers[w].requestId)
    case MarkSent(w, at) => Recompute(moved, s.workers[w].requestId)
    case RunDue(job, chosen, ids, skipped) => RunJob(s.db, job, chosen, ids, s.now)
    case MarkBatch(r) => s.db.(outbox := MarkPublished(s.db.outbox, s.relays[r].published, s.now))
    case Purge(before) => s.db.(outbox := PurgePublished(s.db.outbox, before))
    case _ => moved
  }

  function NextWorkers(c: Config, s: State, a: Action): map<Id, Worker>
    requires Enabled(c, s, a)
  {
    match a
    case Read(w, stream) => s.workers[w := Holding(QueueOf(s, stream)[0])]
    case ClaimMessage(w, startedAt) =>
      var k := s.workers[w].msg.key;
      if k in s.db.deliveries && s.db.deliveries[k].status.IsClaimable() then
        var d := s.db.deliveries[k];
        s.workers[w := InFlight(k, d.requestId, d.attempts, startedAt + c.leaseTTL, startedAt, None)]
      else s.workers - {w}
    case StartSend(w) => s.workers[w := s.workers[w].(sendingSince := Some(s.now))]
    case ClaimLost(w, startedAt) => s.workers - {w}
    case RequeueDelivery(w) => s.workers - {w}
    case MarkRetrying(w, perr, u) => s.workers - {w}
    case MarkFailed(w, perr, u, at) => s.workers - {w}
    case MarkSent(w, at) => s.workers - {w}
    case Crash(w) => s.workers - {w}
    case _ => s.workers
  }

  function NextStreams(c: Config, s: State, a: Action): map<Stream, seq<Message>>
    requires Enabled(c, s, a)
  {
    match a
    case Read(w, stream) => s.streams[stream := QueueOf(s, stream)[1..]]
    case Publish(r) =>
      var e := s.relays[r].entries[s.relays[r].next];
      s.streams[e.stream := QueueOf(s, e.stream) + [e.message]]
    case LoseStreams => map[]
    case _ => s.streams
  }

  function EntriesFor(outbox: map<Id, OutboxRow>, chosen: seq<Id>): (r: seq<Entry>)
    requires forall i :: 0 <= i < |chosen| ==> chosen[i] in outbox
    ensures |r| == |chosen|
    ensures forall i :: 0 <= i < |chosen| ==> r[i] == Entry(chosen[i], outbox[chosen[i]].stream, outbox[chosen[i]].message)
  {
    if chosen == [] then []
    else [Entry(chosen[0], outbox[chosen[0]].stream, outbox[chosen[0]].message)] + EntriesFor(outbox, chosen[1..])
  }

  function NextRelays(c: Config, s: State, a: Action): map<Id, Relay>
    requires Enabled(c, s, a)
  {
    match a
    case Fetch(r, fetched, locked) => s.relays[r := Relay(EntriesFor(s.db.outbox, fetched), 0, {})]
    case Publish(r) =>
      var x := s.relays[r];
      s.relays[r := x.(next := x.next + 1, published := x.published + {x.entries[x.next].id})]
    case PublishFail(r) => s.relays[r := s.relays[r].(next := s.relays[r].next + 1)]
    case MarkBatch(r) => s.relays - {r}
    case RelayCrash(r) => s.relays - {r}
    case _ => s.relays
  }

  ghost function Apply(c: Config, s: State, a: Action): State
    requires Enabled(c, s, a)
  {
    State(if a.Tick? then a.to else s.now,
          NextDB(c, s, a), NextStreams(c, s, a), NextWorkers(c, s, a), NextRelays(c, s, a),
          s.appended + if a.Publish? then {s.relays[a.r].entries[s.relays[a.r].next]} else {})
  }

  lemma ApplyParts(c: Config, s: State, a: Action)
    requires Enabled(c, s, a)
    ensures var u := Apply(c, s, a); u.db == NextDB(c, s, a) && u.workers == NextWorkers(c, s, a) && s.now <= u.now
  {
    hide NextDB, NextStreams, NextWorkers, NextRelays;
  }

  /** A run: the actions happen in turn and lead from s to t. */
  ghost predicate Run(c: Config, s: State, acts: seq<Action>, t: State)
    decreases |acts|
  {
    if acts == [] then t == s
    else Enabled(c, s, acts[0]) && Run(c, Apply(c, s, acts[0]), acts[1..], t)
  }

  lemma {:induction false} RunConcat(c: Config, s: State, first: seq<Action>, m: State, second: seq<Action>, t: State)
    requires Run(c, s, first, m) && Run(c, m, second, t)
    ensures Run(c, s, first + second, t)
    decreases |first|
  {
    if first == [] {
      assert first + second == second;
    } else {
      RunConcat(c, Apply(c, s, first[0]), first[1..], m, second, t);
      assert (first + second)[1..] == first[1..] + second;
    }
  }

  // ---- Runs of one kind of step ----

  /** Some run of allowed steps leads from s to t. */
  ghost predicate Via(c: Config, allowed: Action -> bool, s: State, t: State)
  {
    exists acts :: Run(c, s, acts, t) && forall i :: 0 <= i < |acts| ==> allowed(acts[i])
  }

  lemma ViaNothing(c: Config, allowed: Action -> bool, s: State)
    ensures Via(c, allowed, s, s)
  {
    assert Run(c, s, [], s);
  }

  lemma ViaStep(c: Config, allowed: Action -> bool, s: State, a: Action)
    requires Enabled(c, s, a) && allowed(a)
    ensures Via(c, allowed, s, Apply(c, s, a))
  {
    hide Enabled, Apply;
    assert Run(c, Apply(c, s, a), [], Apply(c, s, a));
    assert [a][1..] == [];
    assert Run(c, s, [a], Apply(c, s, a));
  }

  lemma ViaOn(c: Config, allowed: Action -> bool, s: State, m: State, t: State)
    requires Via(c, allowed, s, m) && Via(c, allowed, m, t)
    ensures Via(c, allowed, s, t)
  {
    hide Run;
    var first :| Run(c, s, first, m) && forall i :: 0 <= i < |first| ==> allowed(first[i]);
    var second :| Run(c, m, second, t) && forall i :: 0 <= i < |second| ==> allowed(second[i]);
    RunConcat(c, s, first, m, second, t);
    var acts := first + second;
    forall i | 0 <= i < |acts| ensures allowed(acts[i]) {
      assert acts[i] == if i < |first| then first[i] else second[i - |first|];
    }
  }

  lemma ViaMore(c: Config, allowed: Action -> bool, more: Action -> bool, s: State, t: State)
    requires Via(c, allowed, s, t) && forall a :: allowed(a) ==> more(a)
    ensures Via(c, more, s, t)
  {
    hide Run;
    var acts :| Run(c, s, acts, t) && forall i :: 0 <= i < |acts| ==> allowed(acts[i]);
  }
}
