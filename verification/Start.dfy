/** The empty start, and how two workers come to hold the same message. */
module Start {
  import opened Domain
  import opened Database
  import opened Lifecycle
  import opened Integrity
  import opened Leases
  import opened Requests
  import opened Relays
  import opened Budget
  import opened PromptRuns
  import opened Cancels

  /** Empty tables, empty streams, no worker and no relay. */
  function Initial(now: Time): State
  {
    State(now, DB(map[], map[], map[], map[]), map[], map[], map[], {})
  }

  lemma InitialHolds(c: Config, slack: nat, now: Time)
    ensures var s := Initial(now);
            && WellFormed(c, s) && Exclusive(s, {}) && Agrees(s.db) && CountersExact(s.db) && AllAccounted(c, s.db.deliveries)
            && Traced(s) && StartedOnTime(c, slack, s) && OneDeliveryEach(s.db)
  {
  }

  // ---- One notification, and two workers with its message ----

  const FIRST := NewItem(0, Key(0, 0), 0, "", None, Sms, High, None)
  const HIGH_SMS := Stream(High, Sms)
  const FIRST_MESSAGE := Message(FIRST.key, 0, Sms, High)

  /** Steps that take no time and write no claimed row. */
  predicate IsQuiet(a: Action)
  {
    !a.Tick? && !IsWorkerWrite(a)
  }

  ghost predicate Quietly(c: Config, s: State, t: State)
  {
    Via(c, IsQuiet, s, t)
  }

  lemma QuietStep(c: Config, s: State, a: Action)
    requires Enabled(c, s, a) && IsQuiet(a)
    ensures Quietly(c, s, Apply(c, s, a))
  {
    ViaStep(c, IsQuiet, s, a);
  }

  lemma QuietlyOn(c: Config, s: State, m: State, t: State)
    requires Quietly(c, s, m) && Quietly(c, m, t)
    ensures Quietly(c, s, t)
  {
    ViaOn(c, IsQuiet, s, m, t);
  }

  /** With no worker write there is nothing to be late with. */
  lemma {:induction false} QuietRunIsPrompt(c: Config, slack: nat, s: State, acts: seq<Action>, t: State)
    requires Run(c, s, acts, t) && forall i :: 0 <= i < |acts| ==> IsQuiet(acts[i])
    ensures TimelyRun(c, s, acts) && PromptRun(c, slack, s, acts)
    decreases |acts|
  {
    hide Apply, Enabled;
    if acts != [] {
      assert forall i :: 0 <= i < |acts[1..]| ==> acts[1..][i] == acts[i + 1];
      QuietRunIsPrompt(c, slack, Apply(c, s, acts[0]), acts[1..], t);
    }
  }

  lemma QuietlyIsPrompt(c: Config, slack: nat, s: State, t: State)
    requires Quietly(c, s, t)
    ensures TimelyReaches(c, s, t) && Reaches(c, slack, s, t)
  {
    hide Run, TimelyRun, PromptRun;
    var acts :| Run(c, s, acts, t) && forall i :: 0 <= i < |acts| ==> IsQuiet(acts[i]);
    QuietRunIsPrompt(c, slack, s, acts, t);
  }

  /** The notification is stored: one pending delivery with one open outbox row. */
  ghost predicate HasFirst(s: State)
  {
    && s.now == 0 && s.db.deliveries == map[FIRST.key := BuildDelivery(FIRST)]
    && s.db.requests == map[0 := BuildRequest(FIRST, None)] && s.db.batches == map[]
    && s.db.outbox == map[0 := OutboxFor(FIRST.key, BuildDelivery(FIRST), 0)]
  }

  lemma FirstCreate(c: Config) returns (s: State)
    ensures Quietly(c, Initial(0), s) && HasFirst(s) && s.streams == map[] && s.workers == map[] && s.relays == map[]
  {
    hide Quietly;
    s := Apply(c, Initial(0), Create(FIRST));
    QuietStep(c, Initial(0), Create(FIRST));
  }

  /** A relay fetches the row. */
  lemma FetchFirst(c: Config, s: State, r: Id) returns (t: State)
    requires c.outboxBatch >= 1 && HasFirst(s) && r !in s.relays
    ensures Quietly(c, s, t) && t.db == s.db && t.now == s.now && t.streams == s.streams && t.workers == s.workers
    ensures t.relays == s.relays[r := Relay([Entry(0, HIGH_SMS, FIRST_MESSAGE)], 0, {})]
  {
    hide Quietly;
    var a := Fetch(r, [0], {});
    assert OpenRows(s.db.outbox) - {} == {0};
    assert EntriesFor(s.db.outbox, [0]) == [Entry(0, HIGH_SMS, FIRST_MESSAGE)];
    t := Apply(c, s, a);
    QuietStep(c, s, a);
    assert ApplyMoves(s.db.deliveries, map[]) == s.db.deliveries;
  }

  /** It publishes the message, and dies before it marks the row. */
  lemma PublishFirst(c: Config, s: State, r: Id) returns (t: State)
    requires r in s.relays && s.relays[r] == Relay([Entry(0, HIGH_SMS, FIRST_MESSAGE)], 0, {}) && QueueOf(s, HIGH_SMS) == []
    ensures Quietly(c, s, t) && t.db == s.db && t.now == s.now && t.workers == s.workers && t.relays == s.relays - {r}
    ensures QueueOf(t, HIGH_SMS) == [FIRST_MESSAGE]
  {
    hide Quietly;
    var m := Apply(c, s, Publish(r));
    QuietStep(c, s, Publish(r));
    assert ApplyMoves(s.db.deliveries, map[]) == s.db.deliveries;
    t := Apply(c, m, RelayCrash(r));
    QuietStep(c, m, RelayCrash(r));
    QuietlyOn(c, s, m, t);
  }

  lemma ReadFirst(c: Config, s: State, w: Id) returns (t: State)
    requires w !in s.workers && QueueOf(s, HIGH_SMS) == [FIRST_MESSAGE]
    ensures Quietly(c, s, t) && t.db == s.db && t.now == s.now && t.relays == s.relays
    ensures t.workers == s.workers[w := Holding(FIRST_MESSAGE)] && QueueOf(t, HIGH_SMS) == []
  {
    hide Quietly;
    t := Apply(c, s, Read(w, HIGH_SMS));
    QuietStep(c, s, Read(w, HIGH_SMS));
    assert ApplyMoves(s.db.deliveries, map[]) == s.db.deliveries;
  }

  /** One more worker gets the message: the row is still open, so the next relay publishes it again. */
  lemma FeedWorker(c: Config, s: State, w: Id) returns (t: State)
    requires c.outboxBatch >= 1 && HasFirst(s) && s.relays == map[] && w !in s.workers && QueueOf(s, HIGH_SMS) == []
    ensures Quietly(c, s, t) && HasFirst(t) && t.relays == map[]
    ensures t.workers == s.workers[w := Holding(FIRST_MESSAGE)] && QueueOf(t, HIGH_SMS) == []
  {
    hide Quietly, QueueOf;
    var u := FetchFirst(c, s, 0);
    QueueStays(s, u, HIGH_SMS);
    var v := PublishFirst(c, u, 0);
    t := ReadFirst(c, v, w);
    QuietlyOn(c, s, u, v);
    QuietlyOn(c, s, v, t);
  }

  lemma QueueStays(s: State, t: State, st: Stream)
    requires t.streams == s.streams
    ensures QueueOf(t, st) == QueueOf(s, st)
  {
  }

  /** Two workers hold the message of one pending delivery. */
  lemma TwoHolders(c: Config) returns (s: State)
    requires c.outboxBatch >= 1
    ensures Quietly(c, Initial(0), s) && HasFirst(s)
    ensures s.workers == map[1 := Holding(FIRST_MESSAGE), 2 := Holding(FIRST_MESSAGE)]
  {
    hide Quietly;
    var a := FirstCreate(c);
    var b := FeedWorker(c, a, 1);
    s := FeedWorker(c, b, 2);
    QuietlyOn(c, Initial(0), a, b);
    QuietlyOn(c, Initial(0), b, s);
  }
}
