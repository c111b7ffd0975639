/** Liveness: in every endless run that loses no message and starves nobody, open deliveries keep moving. */
module Liveness {
  import opened Domain
  import opened Database
  import opened Lifecycle
  import opened Integrity
  import opened Leases
  import opened Relays
  import opened Waiting
  import Recovery

  // ---- Endless runs ----

  /** The states of an endless run, and the step taken in each. */
  datatype Behaviour = Behaviour(states: nat -> State, steps: nat -> Action)

  /** One step: timely, losing no message, and storing notifications soon after they were built. */
  ghost predicate IsStep(c: Config, lag: nat, b: Behaviour, i: nat)
  {
    var s, a := b.states(i), b.steps(i);
    Enabled(c, s, a) && b.states(i + 1) == Apply(c, s, a) && Timely(s, a) && LosesNothing(s, a) && StoredInTime(a, s.now, lag)
  }

  /** What someone has to do again and again. */
  datatype Duty =
    | OnJob(job: Job)
    | OnLeases
    | OnOutbox
    | OnRelay(r: Id)
    | OnStream(stream: Stream)
    | OnHolder(w: Id)

  /** The jobs, the reaper and the outbox poll recur; a pass, a stream and a worker call only while there is work. */
  predicate Calls(s: State, d: Duty)
  {
    match d
    case OnRelay(r) => r in s.relays
    case OnStream(st) => QueueOf(s, st) != []
    case OnHolder(w) => w in s.workers && s.workers[w].Holding?
    case _ => true
  }

  /** A job or a poll counts when no other transaction keeps it from a row. */
  predicate Fulfils(a: Action, d: Duty)
  {
    match d
    case OnJob(job) => a.RunDue? && a.job == job && a.skipped == {}
    case OnLeases => a.ReapStuck?
    case OnOutbox => a.Fetch? && a.locked == {}
    case OnRelay(r) => IsRelayStep(a, r)
    case OnStream(st) => a.Read? && a.stream == st
    case OnHolder(w) => (a.ClaimMessage? || a.ClaimLost?) && a.w == w
  }

  ghost predicate IsMet(b: Behaviour, i: nat, d: Duty)
  {
    Calls(b.states(i), d) ==> exists j: nat :: i <= j && Fulfils(b.steps(j), d)
  }

  ghost predicate IsReached(b: Behaviour, t: Time)
  {
    exists i: nat :: b.states(i).now >= t
  }

  /** Every call is answered in the end, and time does not stop. */
  ghost predicate IsFair(c: Config, lag: nat, b: Behaviour)
  {
    && (forall i: nat :: IsStep(c, lag, b, i))
    && (forall i: nat, d: Duty :: IsMet(b, i, d))
    && (forall t: Time :: IsReached(b, t))
  }

  predicate CanWork(c: Config)
  {
    c.policy.maxAttempts >= 1 && c.promoteBatch >= 1 && c.outboxBatch >= 1 && WaitsForward(c)
  }

  ghost predicate IsSound(c: Config, s: State)
  {
    WellFormed(c, s) && Exclusive(s, {}) && Traced(s)
  }

  /** A configuration that can do its work, and a fair run of it from a sound state. */
  ghost predicate Proceeds(c: Config, lag: nat, b: Behaviour)
  {
    CanWork(c) && IsSound(c, b.states(0)) && IsFair(c, lag, b)
  }

  // ---- Single steps ----

  /** What is known at every point. */
  ghost predicate IsGood(c: Config, lag: nat, b: Behaviour, i: nat)
  {
    IsSound(c, b.states(i)) && IsStep(c, lag, b, i) && Disciplined(b.states(i), b.steps(i))
  }

  lemma StepStaysSound(c: Config, s: State, a: Action)
    requires c.policy.maxAttempts >= 1 && IsSound(c, s) && Enabled(c, s, a) && Timely(s, a)
    ensures IsSound(c, Apply(c, s, a)) && Disciplined(s, a)
  {
    var t := Apply(c, s, a);
    assert Run(c, t, [], t) && TimelyRun(c, t, []);
    assert [a][1..] == [];
    assert Run(c, s, [a], t) && TimelyRun(c, s, [a]);
    hide WellFormed, Enabled, Apply, Disciplined, Timely, Traced;
    LeaseExclusivity(c, s, [a], t);
    RunKeepsWellFormed(c, s, [a], t);
    RelayIsAtLeastOnce(c, s, [a], t);
  }

  lemma {:induction false} AllGood(c: Config, lag: nat, b: Behaviour, i: nat)
    requires Proceeds(c, lag, b)
    ensures IsGood(c, lag, b, i) && IsSound(c, b.states(i + 1))
  {
    hide IsSound, Enabled, Apply, Timely, Disciplined, LosesNothing, StoredInTime, WaitsForward;
    assert IsStep(c, lag, b, i);
    if i > 0 {
      AllGood(c, lag, b, i - 1);
    }
    StepStaysSound(c, b.states(i), b.steps(i));
  }

  lemma NowGrows(c: Config, lag: nat, b: Behaviour, i: nat, j: nat)
    requires Proceeds(c, lag, b) && i <= j
    ensures b.states(i).now <= b.states(j).now
  {
    hide Enabled, Apply, CanWork, IsSound;
    var m := i;
    while m < j
      invariant i <= m <= j && b.states(i).now <= b.states(m).now
    {
      assert IsStep(c, lag, b, m);
      ApplyParts(c, b.states(m), b.steps(m));
      m := m + 1;
    }
  }

  lemma TimeComes(c: Config, lag: nat, b: Behaviour, i: nat, t: Time) returns (j: nat)
    requires Proceeds(c, lag, b)
    ensures i <= j && b.states(j).now > t
  {
    hide IsStep, IsMet, CanWork, IsSound;
    assert IsReached(b, t + 1);
    var m: nat :| b.states(m).now >= t + 1;
    if m < i {
      NowGrows(c, lag, b, m, i);
      j := i;
    } else {
      j := m;
    }
  }

  /** The first answer to a call. */
  lemma NextAnswer(c: Config, lag: nat, b: Behaviour, i: nat, d: Duty) returns (j: nat)
    requires Proceeds(c, lag, b) && Calls(b.states(i), d)
    ensures i <= j && Fulfils(b.steps(j), d) && forall m: nat :: i <= m < j ==> !Fulfils(b.steps(m), d)
  {
    hide IsStep, IsReached, CanWork, IsSound, Fulfils, Calls;
    assert IsMet(b, i, d);
    var last: nat :| i <= last && Fulfils(b.steps(last), d);
    j := i;
    while !Fulfils(b.steps(j), d)
      invariant i <= j <= last && forall m: nat :: i <= m < j ==> !Fulfils(b.steps(m), d)
      decreases last - j
    {
      j := j + 1;
    }
  }

  // ---- What lasts ----

  lemma ReadyLasts(c: Config, lag: nat, b: Behaviour, i: nat, j: nat, k: Key, claims: nat)
    requires Proceeds(c, lag, b) && i <= j && Ready(b.states(i).db.deliveries, k, claims)
    ensures Ready(b.states(j).db.deliveries, k, claims)
  {
    hide Proceeds, Ready, WellFormed, Enabled, Apply, Disciplined, Exclusive, Traced;
    var m := i;
    while m < j
      invariant i <= m <= j && Ready(b.states(m).db.deliveries, k, claims)
    {
      AllGood(c, lag, b, m);
      ReadyStep(c, b.states(m), b.steps(m), k, claims);
      m := m + 1;
    }
  }

  lemma AheadLasts(c: Config, lag: nat, b: Behaviour, i: nat, j: nat, job: Job, n: Time)
    requires Proceeds(c, lag, b) && i <= j && b.states(i).now > n + lag
    ensures Ahead(b.states(j).db.deliveries, job, n) <= Ahead(b.states(i).db.deliveries, job, n)
  {
    hide IsFair, IsSound, Ahead, WellFormed, Enabled, Apply, Disciplined, Exclusive, Traced, WaitsForward;
    var m := i;
    while m < j
      invariant i <= m <= j && Ahead(b.states(m).db.deliveries, job, n) <= Ahead(b.states(i).db.deliveries, job, n)
    {
      AllGood(c, lag, b, m);
      NowGrows(c, lag, b, i, m);
      SoundIsWellFormed(c, b.states(m));
      AheadShrinks(c, b.states(m), b.steps(m), lag, job, n);
      m := m + 1;
    }
  }

  lemma SoundIsWellFormed(c: Config, s: State)
    requires IsSound(c, s)
    ensures WellFormed(c, s)
  {
  }

  lemma OlderLasts(c: Config, lag: nat, b: Behaviour, i: nat, j: nat, n: Time)
    requires Proceeds(c, lag, b) && i <= j && b.states(i).now > n
    ensures Older(b.states(j).db.outbox, n) <= Older(b.states(i).db.outbox, n)
  {
    hide Proceeds, IsSound, Older, Enabled, Apply, Disciplined;
    var m := i;
    while m < j
      invariant i <= m <= j && Older(b.states(m).db.outbox, n) <= Older(b.states(i).db.outbox, n)
    {
      AllGood(c, lag, b, m);
      NowGrows(c, lag, b, i, m);
      OlderShrinks(c, b.states(m), b.steps(m), n);
      m := m + 1;
    }
  }

  /** A stream grows at its end while nobody reads it. */
  lemma QueueLasts(c: Config, lag: nat, b: Behaviour, i: nat, j: nat, st: Stream)
    requires Proceeds(c, lag, b) && i <= j && forall m: nat :: i <= m < j ==> !Fulfils(b.steps(m), OnStream(st))
    ensures QueueOf(b.states(i), st) <= QueueOf(b.states(j), st)
  {
    hide Proceeds, IsSound, QueueOf, Enabled, Apply, Disciplined, LosesNothing;
    var m := i;
    while m < j
      invariant i <= m <= j && QueueOf(b.states(i), st) <= QueueOf(b.states(m), st)
    {
      AllGood(c, lag, b, m);
      assert !Fulfils(b.steps(m), OnStream(st));
      QueueStep(c, b.states(m), b.steps(m), st);
      m := m + 1;
    }
  }

  lemma HolderLasts(c: Config, lag: nat, b: Behaviour, i: nat, j: nat, w: Id)
    requires Proceeds(c, lag, b) && i <= j && Calls(b.states(i), OnHolder(w))
    requires forall m: nat :: i <= m < j ==> !Fulfils(b.steps(m), OnHolder(w))
    ensures w in b.states(j).workers && b.states(j).workers[w] == b.states(i).workers[w]
  {
    hide Proceeds, IsSound, Enabled, Apply, Disciplined, LosesNothing;
    var m := i;
    while m < j
      invariant i <= m <= j && w in b.states(m).workers && b.states(m).workers[w] == b.states(i).workers[w]
    {
      AllGood(c, lag, b, m);
      assert !Fulfils(b.steps(m), OnHolder(w));
      HolderStep(c, b.states(m), b.steps(m), w);
      m := m + 1;
    }
  }

  lemma RelayLasts(c: Config, lag: nat, b: Behaviour, i: nat, j: nat, r: Id)
    requires Proceeds(c, lag, b) && i <= j && r in b.states(i).relays
    requires forall m: nat :: i <= m < j ==> !Fulfils(b.steps(m), OnRelay(r))
    ensures r in b.states(j).relays && b.states(j).relays[r] == b.states(i).relays[r]
  {
    hide Proceeds, IsSound, Enabled, Apply, Disciplined, LosesNothing;
    var m := i;
    while m < j
      invariant i <= m <= j && r in b.states(m).relays && b.states(m).relays[r] == b.states(i).relays[r]
    {
      AllGood(c, lag, b, m);
      assert !Fulfils(b.steps(m), OnRelay(r));
      RelayRests(c, b.states(m), b.steps(m), r);
      m := m + 1;
    }
  }

  /** An open row stays unsent up to j, or its message gets on a stream on the way. */
  lemma UnsentLasts(c: Config, lag: nat, b: Behaviour, i: nat, j: nat, o: Id, k: Key) returns (m: nat)
    requires Proceeds(c, lag, b) && i <= j && IsUnsent(b.states(i), o, k)
    ensures i <= m <= j
    ensures || IsQueued(b.states(m), k)
            || (m == j && IsUnsent(b.states(j), o, k)
                && b.states(j).db.outbox[o].createdAt == b.states(i).db.outbox[o].createdAt)
  {
    hide Proceeds, IsUnsent, IsQueued, WellFormed, Enabled, Apply, Disciplined, Exclusive, Traced, LosesNothing;
    m := i;
    UnsentIsStored(b.states(i), o, k);
    while m < j
      invariant i <= m <= j && o in b.states(i).db.outbox && IsUnsent(b.states(m), o, k)
      invariant o in b.states(m).db.outbox && b.states(m).db.outbox[o].createdAt == b.states(i).db.outbox[o].createdAt
    {
      AllGood(c, lag, b, m);
      UnsentStep(c, b.states(m), b.steps(m), o, k);
      m := m + 1;
      if IsQueued(b.states(m), k) {
        return;
      }
      UnsentIsStored(b.states(m), o, k);
    }
  }

  lemma UnsentIsStored(s: State, o: Id, k: Key)
    requires IsUnsent(s, o, k)
    ensures o in OpenRows(s.db.outbox) && s.db.outbox[o].key == k
  {
  }

  /** A delivery awaits its job up to j, or has its turn on the way. */
  lemma AwaitsLasts(c: Config, lag: nat, b: Behaviour, i: nat, j: nat, job: Job, k: Key, n: Time, claims: nat) returns (m: nat)
    requires Proceeds(c, lag, b) && i <= j && Awaits(b.states(i).db.deliveries, job, k, n, claims)
    ensures i <= m <= j
    ensures || HadTurn(b.states(m), k, claims)
            || (m == j && Awaits(b.states(j).db.deliveries, job, k, n, claims)
                && OpenFor(b.states(j).db.outbox, k) <= OpenFor(b.states(i).db.outbox, k))
  {
    hide Proceeds, Awaits, HadTurn, OpenFor, WellFormed, Enabled, Apply, Disciplined, Exclusive, Traced;
    m := i;
    while m < j
      invariant i <= m <= j && Awaits(b.states(m).db.deliveries, job, k, n, claims)
      invariant OpenFor(b.states(m).db.outbox, k) <= OpenFor(b.states(i).db.outbox, k)
    {
      AllGood(c, lag, b, m);
      AwaitsStep(c, b.states(m), b.steps(m), job, k, n, claims);
      m := m + 1;
      if HadTurn(b.states(m), k, claims) {
        return;
      }
    }
  }

  /** A claimed row stays claimed up to j, or is done with on the way. */
  lemma LockedLasts(c: Config, lag: nat, b: Behaviour, i: nat, j: nat, k: Key, until: Time, claims: nat) returns (m: nat)
    requires Proceeds(c, lag, b) && i <= j && IsLocked(b.states(i).db.deliveries, k, until, claims)
    ensures i <= m <= j
    ensures Ready(b.states(m).db.deliveries, k, claims) || (m == j && IsLocked(b.states(j).db.deliveries, k, until, claims))
  {
    hide Proceeds, IsLocked, Ready, WellFormed, Enabled, Apply, Disciplined, Exclusive, Traced;
    m := i;
    while m < j
      invariant i <= m <= j && IsLocked(b.states(m).db.deliveries, k, until, claims)
    {
      AllGood(c, lag, b, m);
      LockedStep(c, b.states(m), b.steps(m), k, until, claims);
      m := m + 1;
      if Ready(b.states(m).db.deliveries, k, claims) {
        return;
      }
    }
  }

  // ---- From message to claim ----

  lemma HolderSettles(c: Config, lag: nat, b: Behaviour, i: nat, w: Id, k: Key, claims: nat) returns (j: nat)
    requires Proceeds(c, lag, b) && Ready(b.states(i).db.deliveries, k, claims)
    requires w in b.states(i).workers && b.states(i).workers[w].Holding? && b.states(i).workers[w].msg.key == k
    ensures i <= j && Settled(b.states(j).db.deliveries, k, claims)
  {
    hide Proceeds, WellFormed, Enabled, Apply, Disciplined, Exclusive, Traced, Ready, Settled;
    var m := NextAnswer(c, lag, b, i, OnHolder(w));
    HolderLasts(c, lag, b, i, m, w);
    ReadyLasts(c, lag, b, i, m, k, claims);
    AllGood(c, lag, b, m);
    ClaimSettles(c, b.states(m), b.steps(m), k, claims);
    j := m + 1;
  }

  /** A queued message settles its delivery, however many are queued before it. */
  lemma {:induction false} StreamSettles(c: Config, lag: nat, b: Behaviour, i: nat, st: Stream, p: nat, k: Key, claims: nat)
    returns (j: nat)
    requires Proceeds(c, lag, b) && Ready(b.states(i).db.deliveries, k, claims)
    requires p < |QueueOf(b.states(i), st)| && QueueOf(b.states(i), st)[p].key == k
    ensures i <= j && Settled(b.states(j).db.deliveries, k, claims)
    decreases p
  {
    hide Proceeds, WellFormed, Enabled, Apply, Disciplined, Exclusive, Traced, Ready, Settled, QueueOf, LosesNothing;
    CallsToRead(b.states(i), st);
    var m := NextAnswer(c, lag, b, i, OnStream(st));
    QueueLasts(c, lag, b, i, m, st);
    ReadyLasts(c, lag, b, i, m + 1, k, claims);
    AllGood(c, lag, b, m);
    QueueStep(c, b.states(m), b.steps(m), st);
    if p == 0 {
      j := HolderSettles(c, lag, b, m + 1, b.steps(m).w, k, claims);
    } else {
      j := StreamSettles(c, lag, b, m + 1, st, p - 1, k, claims);
    }
  }

  lemma CallsToRead(s: State, st: Stream)
    ensures Calls(s, OnStream(st)) <==> QueueOf(s, st) != []
  {
  }

  lemma QueuedSettles(c: Config, lag: nat, b: Behaviour, i: nat, k: Key, claims: nat) returns (j: nat)
    requires Proceeds(c, lag, b) && Ready(b.states(i).db.deliveries, k, claims) && IsQueued(b.states(i), k)
    ensures i <= j && Settled(b.states(j).db.deliveries, k, claims)
  {
    hide Proceeds, Ready, Settled;
    var s := b.states(i);
    var st, p :| st in s.streams && 0 <= p < |s.streams[st]| && s.streams[st][p].key == k;
    j := StreamSettles(c, lag, b, i, st, p, k, claims);
  }

  // ---- From outbox row to message ----

  /** A pass gets to each of its entries. */
  lemma {:induction false} PassReaches(c: Config, lag: nat, b: Behaviour, i: nat, r: Id, p: nat) returns (j: nat)
    requires Proceeds(c, lag, b) && r in b.states(i).relays
    requires b.states(i).relays[r].next <= p < |b.states(i).relays[r].entries|
    ensures i <= j && IsQueued(b.states(j), b.states(i).relays[r].entries[p].message.key)
    decreases p - b.states(i).relays[r].next
  {
    hide Proceeds, IsSound, Enabled, Apply, Disciplined, QueueOf, LosesNothing;
    var x := b.states(i).relays[r];
    var m := NextAnswer(c, lag, b, i, OnRelay(r));
    RelayLasts(c, lag, b, i, m, r);
    AllGood(c, lag, b, m);
    if b.steps(m).MarkBatch? {
      MarkStep(c, b.states(m), b.steps(m));
    }
    PublishStep(c, b.states(m), b.steps(m));
    if x.next == p {
      j := m + 1;
      QueueIsStream(b.states(j), x.entries[p].stream, |QueueOf(b.states(m), x.entries[p].stream)|);
    } else {
      j := PassReaches(c, lag, b, m + 1, r, p);
    }
  }

  /** A pass ends, and then its rows are closed. */
  lemma {:induction false} PassCloses(c: Config, lag: nat, b: Behaviour, i: nat, r: Id, o: Id) returns (j: nat)
    requires Proceeds(c, lag, b) && r in b.states(i).relays
    requires var x := b.states(i).relays[r]; o in x.published || exists p :: x.next <= p < |x.entries| && x.entries[p].id == o
    ensures i < j && o !in OpenRows(b.states(j).db.outbox)
    decreases |b.states(i).relays[r].entries| - b.states(i).relays[r].next
  {
    hide Proceeds, IsSound, Enabled, Apply, Disciplined, QueueOf, LosesNothing;
    var x := b.states(i).relays[r];
    var m := NextAnswer(c, lag, b, i, OnRelay(r));
    RelayLasts(c, lag, b, i, m, r);
    AllGood(c, lag, b, m);
    if b.steps(m).MarkBatch? {
      MarkStep(c, b.states(m), b.steps(m));
      j := m + 1;
    } else {
      PublishStep(c, b.states(m), b.steps(m));
      PublishIsInside(c, b.states(m), b.steps(m));
      j := PassCloses(c, lag, b, m + 1, r, o);
    }
  }

  lemma PublishIsInside(c: Config, s: State, a: Action)
    requires Enabled(c, s, a) && a.Publish?
    ensures s.relays[a.r].next < |s.relays[a.r].entries|
  {
  }

  /** A fetch that takes the row brings its message on a stream. */
  lemma FetchedIsQueued(c: Config, lag: nat, b: Behaviour, i: nat, o: Id, k: Key) returns (j: nat)
    requires Proceeds(c, lag, b) && IsUnsent(b.states(i), o, k)
    requires b.steps(i).Fetch? && b.steps(i).locked == {} && o in b.steps(i).fetched
    ensures i <= j && IsQueued(b.states(j), k)
  {
    hide IsFair, IsSound, WellFormed, Enabled, Apply, Disciplined, Exclusive, IsQueued, WaitsForward;
    AllGood(c, lag, b, i);
    SoundIsWellFormed(c, b.states(i));
    FetchStep(c, b.states(i), b.steps(i), o);
    var p :| 0 <= p < |b.steps(i).fetched| && b.steps(i).fetched[p] == o;
    FetchIsStored(c, b.states(i), b.steps(i));
    OutboxKey(c, b.states(i), o);
    j := PassReaches(c, lag, b, i + 1, b.steps(i).r, p);
  }

  /** A fetch that leaves the row out closes one at least as old. */
  lemma FetchClosesOlder(c: Config, lag: nat, b: Behaviour, i: nat, o: Id) returns (j: nat, x: Id)
    requires Proceeds(c, lag, b) && o in OpenRows(b.states(i).db.outbox)
    requires b.steps(i).Fetch? && b.steps(i).locked == {} && o !in b.steps(i).fetched
    ensures i < j && x in Older(b.states(i).db.outbox, b.states(i).db.outbox[o].createdAt)
    ensures x !in OpenRows(b.states(j).db.outbox)
  {
    hide IsFair, IsSound, WellFormed, Enabled, Apply, Disciplined, Exclusive, WaitsForward;
    AllGood(c, lag, b, i);
    FetchStep(c, b.states(i), b.steps(i), o);
    FetchIsStored(c, b.states(i), b.steps(i));
    x := b.steps(i).fetched[0];
    j := PassCloses(c, lag, b, i + 1, b.steps(i).r, x);
  }

  /** An unsent open row settles its delivery: each fetch takes it, or closes a row at least as old. */
  lemma {:induction false} OldRowSettles(c: Config, lag: nat, b: Behaviour, i: nat, o: Id, k: Key, claims: nat) returns (j: nat)
    requires Proceeds(c, lag, b) && IsUnsent(b.states(i), o, k) && Ready(b.states(i).db.deliveries, k, claims)
    requires b.states(i).now > b.states(i).db.outbox[o].createdAt
    ensures i <= j && Settled(b.states(j).db.deliveries, k, claims)
    decreases |Older(b.states(i).db.outbox, b.states(i).db.outbox[o].createdAt)|
  {
    hide Proceeds, Ready, Settled, IsQueued, IsUnsent, Older;
    UnsentIsStored(b.states(i), o, k);
    var n := b.states(i).db.outbox[o].createdAt;
    var m := NextAnswer(c, lag, b, i, OnOutbox);
    var u := UnsentLasts(c, lag, b, i, m, o, k);
    var x := 0;
    if !IsQueued(b.states(u), k) {
      if o in b.steps(m).fetched {
        u := FetchedIsQueued(c, lag, b, m, o, k);
      } else {
        UnsentIsStored(b.states(m), o, k);
        var next;
        next, x := FetchClosesOlder(c, lag, b, m, o);
        u := UnsentLasts(c, lag, b, m, next, o, k);
      }
    }
    ReadyLasts(c, lag, b, i, u, k, claims);
    if IsQueued(b.states(u), k) {
      j := QueuedSettles(c, lag, b, u, k, claims);
    } else {
      OlderLasts(c, lag, b, i, m, n);
      NowGrows(c, lag, b, i, m);
      NowGrows(c, lag, b, i, u);
      OlderLasts(c, lag, b, m, u, n);
      OneOlderLess(b.states(i).db.outbox, b.states(u).db.outbox, n, x);
      j := OldRowSettles(c, lag, b, u, o, k, claims);
    }
  }

  lemma OneOlderLess(before: map<Id, OutboxRow>, after: map<Id, OutboxRow>, n: Time, x: Id)
    requires Older(after, n) <= Older(before, n) && x in Older(before, n) && x !in OpenRows(after)
    ensures |Older(after, n)| < |Older(before, n)|
  {
    Recovery.Smaller(Older(after, n), Older(before, n));
  }

  lemma TurnSettles(c: Config, lag: nat, b: Behaviour, i: nat, k: Key, claims: nat) returns (j: nat)
    requires Proceeds(c, lag, b) && HadTurn(b.states(i), k, claims)
    ensures i <= j && Settled(b.states(j).db.deliveries, k, claims)
  {
    hide Proceeds, Ready, Settled, IsQueued, IsUnsent;
    if Settled(b.states(i).db.deliveries, k, claims) {
      return i;
    }
    var o :| IsUnsent(b.states(i), o, k);
    UnsentIsStored(b.states(i), o, k);
    var m := TimeComes(c, lag, b, i, b.states(i).db.outbox[o].createdAt);
    var u := UnsentLasts(c, lag, b, i, m, o, k);
    ReadyLasts(c, lag, b, i, u, k, claims);
    if IsQueued(b.states(u), k) {
      j := QueuedSettles(c, lag, b, u, k, claims);
    } else {
      UnsentIsStored(b.states(m), o, k);
      j := OldRowSettles(c, lag, b, m, o, k, claims);
    }
  }

  // ---- From job to outbox row ----

  /** A row taken by a job is out of the way in the end. */
  lemma ChosenLeaves(c: Config, lag: nat, b: Behaviour, i: nat, k: Key, n: Time) returns (j: nat)
    requires Proceeds(c, lag, b) && b.steps(i).RunDue? && k in b.steps(i).chosen && b.states(i).now > n + lag
    requires k in Ahead(b.states(i).db.deliveries, b.steps(i).job, n)
    ensures i < j && k !in Ahead(b.states(j).db.deliveries, b.steps(i).job, n)
  {
    hide IsFair, IsSound, WellFormed, Enabled, Apply, Disciplined, Exclusive, Traced, HadTurn;
    AllGood(c, lag, b, i);
    ChosenRow(c, b.states(i), b.steps(i), k);
    j := i + 1;
    if b.steps(i).job == ReconcileJob {
      var claims := b.states(i).db.deliveries[k].history.claims;
      SoundParts(c, b.states(i));
      ChosenHadTurn(c, b.states(i), b.steps(i), k, claims);
      j := TurnSettles(c, lag, b, i + 1, k, claims);
      SettledIsNotAhead(c, lag, b, i, j, k, n, claims);
    }
  }

  lemma SoundParts(c: Config, s: State)
    requires IsSound(c, s)
    ensures WellFormed(c, s) && Traced(s)
  {
  }

  /** A pending row that has been claimed since, or is final, has a later date or another status. */
  lemma SettledIsNotAhead(c: Config, lag: nat, b: Behaviour, i: nat, j: nat, k: Key, n: Time, claims: nat)
    requires Proceeds(c, lag, b) && i <= j && b.states(i).now > n + lag
    requires k in b.states(i).db.deliveries && b.states(i).db.deliveries[k].history.claims == claims
    requires Settled(b.states(j).db.deliveries, k, claims)
    ensures k !in Ahead(b.states(j).db.deliveries, ReconcileJob, n)
  {
    hide IsFair, IsSound, WellFormed, Enabled, Apply, Disciplined, Exclusive, Traced, WaitsForward;
    var m := i;
    while m < j
      invariant i <= m <= j
      invariant k in Ahead(b.states(m).db.deliveries, ReconcileJob, n) ==> b.states(m).db.deliveries[k].history.claims == claims
    {
      AllGood(c, lag, b, m);
      NowGrows(c, lag, b, i, m);
      SoundParts(c, b.states(m));
      if k in Ahead(b.states(m + 1).db.deliveries, ReconcileJob, n) {
        AheadKeepsClaims(c, b.states(m), b.steps(m), lag, k, n);
      }
      m := m + 1;
    }
  }

  /** Late enough for a job to see a row ranked n, and for nobody to get ahead of it any more. */
  predicate IsPast(c: Config, lag: nat, now: Time, job: Job, n: Time)
  {
    now > n + lag && (job == ReconcileJob ==> now > n + c.reconcileAfter)
  }

  /** A pending row with an open row is not due; either that row is unsent, or the relay that sent it will close it. */
  lemma OpenRowHelps(c: Config, lag: nat, b: Behaviour, i: nat, k: Key, n: Time, claims: nat) returns (j: nat)
    requires Proceeds(c, lag, b) && Awaits(b.states(i).db.deliveries, ReconcileJob, k, n, claims)
    requires OpenFor(b.states(i).db.outbox, k) != {}
    ensures i <= j
    ensures || HadTurn(b.states(j), k, claims)
            || (Awaits(b.states(j).db.deliveries, ReconcileJob, k, n, claims)
                && OpenFor(b.states(j).db.outbox, k) < OpenFor(b.states(i).db.outbox, k))
  {
    hide Proceeds;
    var o :| o in OpenFor(b.states(i).db.outbox, k);
    if IsUnsent(b.states(i), o, k) {
      j := i;
    } else {
      var r :| r in b.states(i).relays && o in b.states(i).relays[r].published;
      var m := PassCloses(c, lag, b, i, r, o);
      j := AwaitsLasts(c, lag, b, i, m, ReconcileJob, k, n, claims);
    }
  }

  /** A due row is chosen, or a row that is ahead of it is, and leaves. */
  lemma JobHelps(c: Config, lag: nat, b: Behaviour, i: nat, k: Key, n: Time, claims: nat) returns (j: nat)
    requires Proceeds(c, lag, b) && b.steps(i).RunDue? && b.steps(i).skipped == {}
    requires Awaits(b.states(i).db.deliveries, b.steps(i).job, k, n, claims)
    requires k in Due(b.states(i).db, b.steps(i).job, b.states(i).now, c.reconcileAfter) && b.states(i).now > n + lag
    ensures i <= j
    ensures var job := b.steps(i).job;
            || HadTurn(b.states(j), k, claims)
            || (Awaits(b.states(j).db.deliveries, job, k, n, claims)
                && OpenFor(b.states(j).db.outbox, k) <= OpenFor(b.states(i).db.outbox, k)
                && |Ahead(b.states(j).db.deliveries, job, n)| < |Ahead(b.states(i).db.deliveries, job, n)|)
  {
    hide IsFair, IsSound, WellFormed, Enabled, Apply, Disciplined, Exclusive, Traced, HadTurn, Due, WaitsForward;
    var job, s := b.steps(i).job, b.states(i);
    AllGood(c, lag, b, i);
    SoundParts(c, s);
    if k in b.steps(i).chosen {
      ChosenHadTurn(c, s, b.steps(i), k, claims);
      j := i + 1;
    } else {
      BatchTakesAhead(c, s, b.steps(i), k);
      var x := b.steps(i).chosen[0];
      var next := ChosenLeaves(c, lag, b, i, x, n);
      j := AwaitsLasts(c, lag, b, i, next, job, k, n, claims);
      if !HadTurn(b.states(j), k, claims) {
        AheadLasts(c, lag, b, i, j, job, n);
        Recovery.Smaller(Ahead(b.states(j).db.deliveries, job, n), Ahead(s.db.deliveries, job, n));
      }
    }
  }

  /** A late enough delivery without open rows is due. */
  lemma AwaitsIsDue(c: Config, lag: nat, s: State, job: Job, k: Key, n: Time, claims: nat)
    requires IsSound(c, s) && Awaits(s.db.deliveries, job, k, n, claims) && IsPast(c, lag, s.now, job, n)
    requires job == ReconcileJob ==> OpenFor(s.db.outbox, k) == {}
    ensures k in Due(s.db, job, s.now, c.reconcileAfter)
  {
    hide IsSound;
    if job == ReconcileJob {
      OpenRowIsFor(c, s, k);
    }
  }

  lemma OpenRowIsFor(c: Config, s: State, k: Key)
    requires IsSound(c, s) && k in s.db.deliveries
    ensures HasOpenOutboxRow(s.db.outbox, k.id) ==> OpenFor(s.db.outbox, k) != {}
  {
    if HasOpenOutboxRow(s.db.outbox, k.id) {
      var o :| o in s.db.outbox && s.db.outbox[o].key.id == k.id && s.db.outbox[o].publishedAt.None?;
      assert Genuine(s.db.deliveries, s.db.outbox[o].stream, s.db.outbox[o].message);
      assert o in OpenFor(s.db.outbox, k);
    }
  }

  /** The job gets to every delivery that waits for it: each run takes it, or one of the finitely many that are ahead. */
  lemma {:induction false} GetsTurn(c: Config, lag: nat, b: Behaviour, i: nat, job: Job, k: Key, n: Time, claims: nat)
    returns (j: nat)
    requires Proceeds(c, lag, b) && Awaits(b.states(i).db.deliveries, job, k, n, claims)
    requires IsPast(c, lag, b.states(i).now, job, n)
    ensures i <= j && HadTurn(b.states(j), k, claims)
    decreases |Ahead(b.states(i).db.deliveries, job, n)|, |OpenFor(b.states(i).db.outbox, k)|
  {
    hide Proceeds, IsSound, HadTurn, Awaits, Ahead, OpenFor, Due;
    var m := NextAnswer(c, lag, b, i, OnJob(job));
    var u := AwaitsLasts(c, lag, b, i, m, job, k, n, claims);
    if !HadTurn(b.states(u), k, claims) {
      NowGrows(c, lag, b, i, m);
      AheadLasts(c, lag, b, i, m, job, n);
      if job == ReconcileJob && OpenFor(b.states(m).db.outbox, k) != {} {
        u := OpenRowHelps(c, lag, b, m, k, n, claims);
      } else {
        AllGood(c, lag, b, m);
        AwaitsIsDue(c, lag, b.states(m), job, k, n, claims);
        u := JobHelps(c, lag, b, m, k, n, claims);
      }
    }
    if HadTurn(b.states(u), k, claims) {
      j := u;
    } else {
      NowGrows(c, lag, b, m, u);
      AheadLasts(c, lag, b, m, u, job, n);
      SizeGrows(Ahead(b.states(u).db.deliveries, job, n), Ahead(b.states(m).db.deliveries, job, n));
      SizeGrows(Ahead(b.states(m).db.deliveries, job, n), Ahead(b.states(i).db.deliveries, job, n));
      SizeGrows(OpenFor(b.states(u).db.outbox, k), OpenFor(b.states(m).db.outbox, k));
      SizeGrows(OpenFor(b.states(m).db.outbox, k), OpenFor(b.states(i).db.outbox, k));
      j := GetsTurn(c, lag, b, u, job, k, n, claims);
    }
  }

  lemma SizeGrows<T>(a: set<T>, b: set<T>)
    requires a <= b
    ensures |a| <= |b| && (a != b ==> |a| < |b|)
  {
    if a != b {
      Recovery.Smaller(a, b);
    }
  }

  // ---- From every open status ----

  lemma AwaitingSettles(c: Config, lag: nat, b: Behaviour, i: nat, job: Job, k: Key, n: Time, claims: nat) returns (j: nat)
    requires Proceeds(c, lag, b) && Awaits(b.states(i).db.deliveries, job, k, n, claims)
    ensures i <= j && Settled(b.states(j).db.deliveries, k, claims)
  {
    hide Proceeds, HadTurn, Awaits, OpenFor, Settled;
    var m := TimeComes(c, lag, b, i, n + lag + if c.reconcileAfter >= 0 then c.reconcileAfter else 0);
    var u := AwaitsLasts(c, lag, b, i, m, job, k, n, claims);
    if !HadTurn(b.states(u), k, claims) {
      u := GetsTurn(c, lag, b, m, job, k, n, claims);
    }
    j := TurnSettles(c, lag, b, u, k, claims);
  }

  lemma ReadySettles(c: Config, lag: nat, b: Behaviour, i: nat, k: Key, claims: nat) returns (j: nat)
    requires Proceeds(c, lag, b) && Ready(b.states(i).db.deliveries, k, claims)
    ensures i <= j && Settled(b.states(j).db.deliveries, k, claims)
  {
    hide Proceeds;
    var d := b.states(i).db.deliveries[k];
    AllGood(c, lag, b, i);
    RowIsOk(c, b.states(i), k);
    if Settled(b.states(i).db.deliveries, k, claims) {
      j := i;
    } else if d.status.Retrying? {
      j := AwaitingSettles(c, lag, b, i, SweepJob, k, d.nextRetryAt.value, claims);
    } else {
      j := AwaitingSettles(c, lag, b, i, ReconcileJob, k, d.updatedAt, claims);
    }
  }

  lemma RowIsOk(c: Config, s: State, k: Key)
    requires IsSound(c, s) && k in s.db.deliveries
    ensures RowOk(c, s.db.deliveries[k])
  {
  }

  lemma LockedSettles(c: Config, lag: nat, b: Behaviour, i: nat, k: Key, until: Time, claims: nat) returns (j: nat)
    requires Proceeds(c, lag, b) && IsLocked(b.states(i).db.deliveries, k, until, claims)
    ensures i <= j && Settled(b.states(j).db.deliveries, k, claims)
  {
    hide Proceeds, IsLocked, Ready, Settled, WellFormed, Enabled, Apply, Disciplined, Exclusive, Traced;
    var m := TimeComes(c, lag, b, i, until);
    var n := NextAnswer(c, lag, b, m, OnLeases);
    var u := LockedLasts(c, lag, b, i, n, k, until, claims);
    if !Ready(b.states(u).db.deliveries, k, claims) {
      AllGood(c, lag, b, n);
      NowGrows(c, lag, b, m, n);
      LockedStep(c, b.states(n), b.steps(n), k, until, claims);
      u := n + 1;
    }
    j := ReadySettles(c, lag, b, u, k, claims);
  }

  /** Every open delivery is claimed again, or becomes final, in the end. */
  lemma OpenSettles(c: Config, lag: nat, b: Behaviour, i: nat, k: Key) returns (j: nat)
    requires Proceeds(c, lag, b) && k in b.states(i).db.deliveries
    ensures i <= j && Settled(b.states(j).db.deliveries, k, b.states(i).db.deliveries[k].history.claims)
  {
    hide Proceeds;
    var d := b.states(i).db.deliveries[k];
    AllGood(c, lag, b, i);
    RowIsOk(c, b.states(i), k);
    match d.status
    case Scheduled => j := AwaitingSettles(c, lag, b, i, PromoteJob, k, d.sendAt.value, d.history.claims);
    case Processing => j := LockedSettles(c, lag, b, i, k, d.lockedUntil.value, d.history.claims);
    case _ => j := ReadySettles(c, lag, b, i, k, d.history.claims);
  }

  // ---- Final, or held up for ever ----

  /** What the steps count for a delivery only goes up. */
  lemma HistoryStep(c: Config, s: State, a: Action, k: Key)
    requires Enabled(c, s, a) && k in s.db.deliveries
    ensures k in Apply(c, s, a).db.deliveries
    ensures var h, g := s.db.deliveries[k].history, Apply(c, s, a).db.deliveries[k].history; HeldUp(h) <= HeldUp(g)
  {
    hide Enabled, Moves, Apply;
    StepRow(c, s, a, k);
  }

  /** How often a claim came to nothing without using up an attempt. */
  function HeldUp(h: History): nat
  {
    h.requeues + h.reaps
  }

  lemma HistoryGrows(c: Config, lag: nat, b: Behaviour, i: nat, j: nat, k: Key)
    requires Proceeds(c, lag, b) && i <= j && k in b.states(i).db.deliveries
    ensures k in b.states(j).db.deliveries
    ensures HeldUp(b.states(i).db.deliveries[k].history) <= HeldUp(b.states(j).db.deliveries[k].history)
  {
    hide Proceeds, IsSound, HeldUp, Enabled, Apply, Disciplined;
    var m := i;
    while m < j
      invariant i <= m <= j && k in b.states(m).db.deliveries
      invariant HeldUp(b.states(i).db.deliveries[k].history) <= HeldUp(b.states(m).db.deliveries[k].history)
    {
      AllGood(c, lag, b, m);
      HistoryStep(c, b.states(m), b.steps(m), k);
      m := m + 1;
    }
  }

  lemma FinalLasts(c: Config, lag: nat, b: Behaviour, i: nat, j: nat, k: Key)
    requires Proceeds(c, lag, b) && i <= j && k in b.states(i).db.deliveries && b.states(i).db.deliveries[k].status.IsTerminal()
    ensures k in b.states(j).db.deliveries && b.states(j).db.deliveries[k] == b.states(i).db.deliveries[k]
  {
    hide Proceeds, WellFormed, Enabled, Apply, Disciplined, Exclusive, Traced;
    var m := i;
    while m < j
      invariant i <= m <= j && k in b.states(m).db.deliveries && b.states(m).db.deliveries[k] == b.states(i).db.deliveries[k]
    {
      AllGood(c, lag, b, m);
      StepKeepsTerminalRow(c, b.states(m), b.steps(m), k);
      m := m + 1;
    }
  }

  lemma {:induction false} AccountsLast(c: Config, lag: nat, b: Behaviour, i: nat)
    requires Proceeds(c, lag, b) && AllAccounted(c, b.states(0).db.deliveries)
    ensures AllAccounted(c, b.states(i).db.deliveries)
  {
    hide IsFair, WellFormed, Enabled, Apply, Disciplined, Exclusive, Traced, AllAccounted, WaitsForward;
    if i > 0 {
      AccountsLast(c, lag, b, i - 1);
      AllGood(c, lag, b, i - 1);
      StepKeepsAccounts(c, b.states(i - 1), b.steps(i - 1));
    }
  }

  /** The delivery becomes final. */
  ghost predicate Ends(b: Behaviour, k: Key)
  {
    exists i: nat :: IsFinalAt(b, i, k)
  }

  predicate IsFinalAt(b: Behaviour, i: nat, k: Key)
  {
    k in b.states(i).db.deliveries && b.states(i).db.deliveries[k].status.IsTerminal()
  }

  /** Requeued without an attempt, or reaped, at most so often. */
  predicate IsHeldUpAtMost(b: Behaviour, i: nat, k: Key, n: nat)
  {
    k in b.states(i).db.deliveries ==> HeldUp(b.states(i).db.deliveries[k].history) <= n
  }

  ghost predicate IsHeldUpSeldom(b: Behaviour, k: Key, n: nat)
  {
    forall i: nat :: IsHeldUpAtMost(b, i, k, n)
  }

  /** A delivery is claimed as often as one likes, or becomes final. */
  lemma {:induction false} ClaimedOften(c: Config, lag: nat, b: Behaviour, i: nat, k: Key, claims: nat) returns (j: nat)
    requires Proceeds(c, lag, b) && k in b.states(i).db.deliveries
    ensures i <= j && Settled(b.states(j).db.deliveries, k, claims)
    decreases claims + 1 - b.states(i).db.deliveries[k].history.claims
  {
    hide Proceeds;
    if Settled(b.states(i).db.deliveries, k, claims) {
      j := i;
    } else {
      j := OpenSettles(c, lag, b, i, k);
      if !Settled(b.states(j).db.deliveries, k, claims) {
        j := ClaimedOften(c, lag, b, j, k, claims);
      }
    }
  }

  /** A claim that is not held up uses an attempt or ends the delivery, so the claims are few. */
  lemma FewClaims(c: Config, d: Delivery, n: nat)
    requires Accounted(c, d) && HeldUp(d.history) <= n
    ensures d.history.claims <= c.policy.maxAttempts + n + 2
  {
  }

  /**
   * In every fair run that loses no message, each delivery becomes final if and only if it is not held up for ever:
   * requeued for want of a token or a closed breaker, or reaped after its worker died.
   */
  lemma EndsIff(c: Config, lag: nat, b: Behaviour, i: nat, k: Key)
    requires Proceeds(c, lag, b) && AllAccounted(c, b.states(0).db.deliveries) && k in b.states(i).db.deliveries
    ensures Ends(b, k) <==> exists n: nat :: IsHeldUpSeldom(b, k, n)
  {
    hide Proceeds, HeldUp;
    if Ends(b, k) {
      var m: nat :| IsFinalAt(b, m, k);
      var n := HeldUp(b.states(m).db.deliveries[k].history);
      forall j: nat ensures IsHeldUpAtMost(b, j, k, n) {
        if k in b.states(j).db.deliveries {
          if j <= m {
            HistoryGrows(c, lag, b, j, m, k);
          } else {
            FinalLasts(c, lag, b, m, j, k);
          }
        }
      }
      assert IsHeldUpSeldom(b, k, n);
    }
    if n: nat :| IsHeldUpSeldom(b, k, n) {
      var claims := if c.policy.maxAttempts >= 0 then c.policy.maxAttempts + n + 2 else n + 2;
      var m := ClaimedOften(c, lag, b, i, k, claims);
      AccountsLast(c, lag, b, m);
      assert IsHeldUpAtMost(b, m, k, n);
      FewClaims(c, b.states(m).db.deliveries[k], n);
      assert IsFinalAt(b, m, k);
    }
  }

  // ---- Fair runs exist ----

  /** Nothing left to do. */
  ghost predicate IsIdle(s: State)
  {
    && (forall st :: QueueOf(s, st) == []) && (forall w :: w in s.workers ==> !s.workers[w].Holding?)
    && s.relays == map[] && OpenRows(s.db.outbox) == {}
    && (forall k :: k in s.db.deliveries ==> s.db.deliveries[k].status.IsTerminal())
  }

  /** Seven steps to a round: the clock, the three jobs, the reaper, and an empty relay pass. */
  function Round(i: nat): nat
  {
    (i + 6) / 7
  }

  lemma NextRound(i: nat)
    ensures Round(i + 1) == Round(i) + (if i % 7 == 0 then 1 else 0) && (i + 1) % 7 == if i % 7 == 6 then 0 else i % 7 + 1
  {
  }

  lemma InRound(i: nat, r: nat)
    requires r < 7
    ensures (7 * i + r) % 7 == r && (r == 0 ==> Round(7 * i + r) == i)
  {
  }

  function IdleState(s: State, i: nat): State
  {
    s.(now := s.now + Round(i), relays := if i % 7 == 6 then map[0 := Relay([], 0, {})] else map[])
  }

  function IdleStep(s: State, i: nat): Action
  {
    match i % 7
    case 0 => Tick(s.now + Round(i) + 1)
    case 1 => RunDue(PromoteJob, [], [], {})
    case 2 => RunDue(SweepJob, [], [], {})
    case 3 => RunDue(ReconcileJob, [], [], {})
    case 4 => ReapStuck
    case 5 => Fetch(0, [], {})
    case _ => MarkBatch(0)
  }

  function Idling(s: State): Behaviour
  {
    Behaviour((i: nat) => IdleState(s, i), (i: nat) => IdleStep(s, i))
  }

  lemma IdleJob(c: Config, s: State, job: Job)
    requires CanWork(c) && IsIdle(s)
    ensures var a := RunDue(job, [], [], {}); Enabled(c, s, a) && Apply(c, s, a) == s
  {
    assert Due(s.db, job, s.now, c.reconcileAfter) == {};
    assert ApplyMoves(s.db.deliveries, map[]) == s.db.deliveries;
  }

  lemma IdlePass(c: Config, s: State)
    requires CanWork(c) && IsIdle(s)
    ensures Enabled(c, s, Fetch(0, [], {})) && Apply(c, s, Fetch(0, [], {})) == s.(relays := map[0 := Relay([], 0, {})])
    ensures var u := s.(relays := map[0 := Relay([], 0, {})]); Enabled(c, u, MarkBatch(0)) && Apply(c, u, MarkBatch(0)) == s
  {
    assert ApplyMoves(s.db.deliveries, map[]) == s.db.deliveries;
  }

  lemma IdleReap(c: Config, s: State)
    requires CanWork(c) && IsIdle(s)
    ensures Enabled(c, s, ReapStuck) && Apply(c, s, ReapStuck) == s
  {
    assert ReapMoves(s.db.deliveries, s.now) == map[];
    assert ApplyMoves(s.db.deliveries, map[]) == s.db.deliveries;
  }

  lemma IdleTick(c: Config, s: State)
    ensures Enabled(c, s, Tick(s.now + 1)) && Apply(c, s, Tick(s.now + 1)) == s.(now := s.now + 1)
  {
    assert ApplyMoves(s.db.deliveries, map[]) == s.db.deliveries;
  }

  lemma IdleLater(s: State, now: Time)
    requires IsIdle(s)
    ensures IsIdle(s.(now := now)) && s.relays == map[]
  {
    assert forall st :: QueueOf(s.(now := now), st) == QueueOf(s, st);
  }

  lemma IdleStepIsStep(c: Config, lag: nat, s: State, i: nat)
    requires CanWork(c) && IsIdle(s)
    ensures IsStep(c, lag, Idling(s), i)
  {
    hide CanWork, Apply, Enabled, IsIdle, Round;
    var u := s.(now := s.now + Round(i));
    IdleLater(s, u.now);
    NextRound(i);
    match i % 7
    case 0 => IdleTick(c, u);
    case 1 => IdleJob(c, u, PromoteJob);
    case 2 => IdleJob(c, u, SweepJob);
    case 3 => IdleJob(c, u, ReconcileJob);
    case 4 => IdleReap(c, u);
    case _ => IdlePass(c, u);
  }

  /** Where in a round a duty is done. */
  function Place(d: Duty): (r: nat)
    ensures r < 7
  {
    match d
    case OnJob(PromoteJob) => 1
    case OnJob(SweepJob) => 2
    case OnJob(ReconcileJob) => 3
    case OnLeases => 4
    case OnOutbox => 5
    case _ => 6
  }

  lemma IdleStepsRecur(s: State, i: nat, d: Duty)
    requires IsIdle(s)
    ensures IsMet(Idling(s), i, d)
  {
    var b, j := Idling(s), 7 * i + Place(d);
    InRound(i, Place(d));
    match d
    case OnRelay(r) => assert Calls(b.states(i), d) ==> Fulfils(b.steps(i), d);
    case OnStream(st) => assert QueueOf(b.states(i), st) == QueueOf(s, st);
    case OnHolder(w) =>
    case _ => assert Fulfils(b.steps(j), d);
  }

  lemma IdlingIsFair(c: Config, lag: nat, s: State)
    requires CanWork(c) && IsIdle(s)
    ensures IsFair(c, lag, Idling(s)) && Idling(s).states(0) == s
  {
    hide CanWork, IsStep, IsMet;
    var b := Idling(s);
    forall i: nat ensures IsStep(c, lag, b, i) {
      IdleStepIsStep(c, lag, s, i);
    }
    forall i: nat, d: Duty ensures IsMet(b, i, d) {
      IdleStepsRecur(s, i, d);
    }
    forall t: Time ensures IsReached(b, t) {
      var i: nat := if t > s.now then t - s.now else 0;
      InRound(i, 0);
      assert b.states(7 * i).now >= t;
    }
    assert b.states(0).relays == s.relays;
  }

  /** The same run, one step longer. */
  function After(s: State, a: Action, b: Behaviour): Behaviour
  {
    Behaviour((i: nat) => if i == 0 then s else b.states(i - 1), (i: nat) => if i == 0 then a else b.steps(i - 1))
  }

  /** A call that a step does not answer is still there after it. */
  lemma CallsLast(c: Config, s: State, a: Action, d: Duty)
    requires Enabled(c, s, a) && LosesNothing(s, a) && Calls(s, d) && !Fulfils(a, d)
    ensures Calls(Apply(c, s, a), d)
  {
    hide Enabled, Apply, LosesNothing;
    match d
    case OnRelay(r) => RelayRests(c, s, a, r);
    case OnStream(st) => QueueStep(c, s, a, st);
    case OnHolder(w) => HolderStep(c, s, a, w);
    case _ =>
  }

  /** A step put before a fair run makes a fair run. */
  lemma FairBefore(c: Config, lag: nat, s: State, a: Action, b: Behaviour)
    requires Enabled(c, s, a) && b.states(0) == Apply(c, s, a)
    requires Timely(s, a) && LosesNothing(s, a) && StoredInTime(a, s.now, lag) && IsFair(c, lag, b)
    ensures IsFair(c, lag, After(s, a, b))
  {
    hide Enabled, Apply, Timely, LosesNothing, StoredInTime, Fulfils, Calls;
    var e := After(s, a, b);
    forall i: nat ensures IsStep(c, lag, e, i) {
      assert i > 0 ==> IsStep(c, lag, b, i - 1);
    }
    forall i: nat, d: Duty ensures IsMet(e, i, d) {
      MetBefore(c, lag, s, a, b, i, d);
    }
    forall t: Time ensures IsReached(e, t) {
      assert IsReached(b, t);
      var i: nat :| b.states(i).now >= t;
      assert e.states(i + 1).now >= t;
    }
  }

  lemma MetBefore(c: Config, lag: nat, s: State, a: Action, b: Behaviour, i: nat, d: Duty)
    requires Enabled(c, s, a) && b.states(0) == Apply(c, s, a) && LosesNothing(s, a) && IsFair(c, lag, b)
    ensures IsMet(After(s, a, b), i, d)
  {
    hide Enabled, Apply, LosesNothing, Fulfils, Calls, IsStep, IsReached;
    var e := After(s, a, b);
    if Calls(e.states(i), d) {
      if i == 0 && Fulfils(a, d) {
        assert Fulfils(e.steps(0), d);
      } else {
        if i == 0 {
          CallsLast(c, s, a, d);
        }
        var from := if i == 0 then 0 else i - 1;
        assert IsMet(b, from, d);
        var j: nat :| from <= j && Fulfils(b.steps(j), d);
        assert Fulfils(e.steps(j + 1), d);
      }
    }
  }

  ghost predicate IsLossless(c: Config, lag: nat, s: State, acts: seq<Action>)
    decreases |acts|
  {
    acts != [] ==> Enabled(c, s, acts[0]) && Timely(s, acts[0]) && LosesNothing(s, acts[0]) && StoredInTime(acts[0], s.now, lag)
                   && IsLossless(c, lag, Apply(c, s, acts[0]), acts[1..])
  }

  /** Fair runs exist: every finite run that loses nothing and leaves nothing to do goes on as one. */
  lemma {:induction false} FairRunsExist(c: Config, lag: nat, s: State, acts: seq<Action>, t: State)
    requires CanWork(c) && Run(c, s, acts, t) && IsLossless(c, lag, s, acts) && IsIdle(t)
    ensures exists b :: IsFair(c, lag, b) && b.states(0) == s
    decreases |acts|
  {
    hide CanWork, IsIdle, IsFair, Enabled, Apply, Timely, LosesNothing, StoredInTime;
    if acts == [] {
      IdlingIsFair(c, lag, s);
    } else {
      FairRunsExist(c, lag, Apply(c, s, acts[0]), acts[1..], t);
      var b :| IsFair(c, lag, b) && b.states(0) == Apply(c, s, acts[0]);
      FairBefore(c, lag, s, acts[0], b);
      assert After(s, acts[0], b).states(0) == s;
    }
  }
}
