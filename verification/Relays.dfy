/** The relay delivers at least once: no row is marked published before its message is on its stream. */
module Relays {
  import opened Domain
  import opened Database
  import opened Lifecycle
  import opened Integrity

  /** The row's own message has been appended to the row's own stream. */
  predicate IsAppended(s: State, o: Id)
    requires o in s.db.outbox
  {
    Entry(o, s.db.outbox[o].stream, s.db.outbox[o].message) in s.appended
  }

  ghost predicate MarkedAfterAppend(s: State)
  {
    forall o :: o in s.db.outbox && s.db.outbox[o].publishedAt.Some? ==> IsAppended(s, o)
  }

  /** A fetched entry repeats the row it was fetched from, for as long as that row exists. */
  predicate Faithful(outbox: map<Id, OutboxRow>, e: Entry)
  {
    e.id in outbox ==> e == Entry(e.id, outbox[e.id].stream, outbox[e.id].message)
  }

  ghost predicate PassOk(s: State, x: Relay)
  {
    && (forall i :: 0 <= i < |x.entries| ==> Faithful(s.db.outbox, x.entries[i]))
    && (forall id :: id in x.published ==> exists i :: 0 <= i < |x.entries| && x.entries[i].id == id && x.entries[i] in s.appended)
  }

  ghost predicate Traced(s: State)
  {
    MarkedAfterAppend(s) && forall r :: r in s.relays ==> PassOk(s, s.relays[r])
  }

  // ---- What a step does to outbox rows ----

  lemma {:induction false} InsertAllOutbox(db: DB, items: seq<NewItem>, batchId: Id, at: Time)
    requires FreshItems(db, items, at)
    ensures var box := InsertAll(db, items, batchId, at).outbox;
            && (forall o :: o in db.outbox ==> o in box && box[o] == db.outbox[o])
            && (forall o :: o in box && o !in db.outbox ==>
                              exists i :: 0 <= i < |items| && items[i].outboxId == o
                                          && box[o] == OutboxFor(items[i].key, BuildDelivery(items[i]), at))
    decreases |items|
  {
    if items != [] {
      InsertKeepsFresh(db, items, Some(batchId), at);
      assert forall i :: 0 <= i < |items[1..]| ==> items[1..][i] == items[i + 1];
      if Conflicts(db.requests, items[0].userId, items[0].idemKey) {
        InsertAllOutbox(db, items[1..], batchId, at);
      } else {
        InsertAllOutbox(Insert(db, items[0], Some(batchId), at), items[1..], batchId, at);
      }
    }
  }

  /** The delivery a new outbox row is for: a new one, or one that a job has chosen. */
  predicate IsServed(s: State, a: Action, k: Key)
  {
    k !in s.db.deliveries || (a.RunDue? && k in a.chosen)
  }

  /** Open rows stay but for a relay's mark; new rows are open, dated now, and were never seen; only a mark publishes. */
  ghost predicate IsOutboxStep(s: State, a: Action, box: map<Id, OutboxRow>)
  {
    && (forall o :: o in box && o in s.db.outbox ==>
                      && box[o].(publishedAt := None) == s.db.outbox[o].(publishedAt := None)
                      && (box[o].publishedAt.None? ==> s.db.outbox[o].publishedAt.None?))
    && (forall o :: o in OpenRows(s.db.outbox) ==> o in box && (box[o].publishedAt.Some? ==> IsMarkOf(s, a, o)))
    && (forall o :: o in box && o !in s.db.outbox ==>
                      o !in SeenIds(s) && box[o].publishedAt.None? && box[o].createdAt == s.now && IsServed(s, a, box[o].key))
    && (forall o :: o in box && box[o].publishedAt.Some? ==>
                      o in s.db.outbox && (s.db.outbox[o].publishedAt.Some? || IsMarkOf(s, a, o)))
  }

  predicate IsMarkOf(s: State, a: Action, o: Id)
  {
    a.MarkBatch? && a.r in s.relays && o in s.relays[a.r].published
  }

  lemma CreateOutbox(c: Config, s: State, a: Action)
    requires Enabled(c, s, a) && a.Create?
    ensures IsOutboxStep(s, a, NextDB(c, s, a).outbox)
  {
    hide SeenIds, Conflicts;
    assert a.item.key !in s.db.deliveries;
  }

  lemma CreateManyOutbox(c: Config, s: State, a: Action)
    requires Enabled(c, s, a) && a.CreateMany?
    ensures IsOutboxStep(s, a, NextDB(c, s, a).outbox)
  {
    hide SeenIds, InsertAll, CountCreated, IsOutboxStep;
    var empty := s.db.(batches := s.db.batches[a.batchId := Batch(a.userId, a.idemKey, 0, 0, 0, 0, 0)]);
    FreshKeys(s.db, a.items, s.now);
    InsertAllOutbox(empty, a.items, a.batchId, s.now);
    ItemsAreStep(s, a, InsertAll(empty, a.items, a.batchId, s.now).outbox);
  }

  lemma FreshKeys(db: DB, items: seq<NewItem>, now: Time)
    requires FreshItems(db, items, now)
    ensures forall i :: 0 <= i < |items| ==> items[i].key !in db.deliveries
  {
  }

  lemma ItemsAreStep(s: State, a: Action, box: map<Id, OutboxRow>)
    requires a.CreateMany? && forall i :: 0 <= i < |a.items| ==> a.items[i].key !in s.db.deliveries && a.items[i].outboxId !in SeenIds(s)
    requires forall o :: o in s.db.outbox ==> o in box && box[o] == s.db.outbox[o]
    requires forall o :: o in box && o !in s.db.outbox ==>
                           exists i :: 0 <= i < |a.items| && a.items[i].outboxId == o
                                       && box[o] == OutboxFor(a.items[i].key, BuildDelivery(a.items[i]), s.now)
    ensures IsOutboxStep(s, a, box)
  {
    hide SeenIds, BuildDelivery;
  }

  lemma RunDueFacts(c: Config, s: State, a: Action)
    requires Enabled(c, s, a) && a.RunDue?
    ensures |a.ids| == |a.chosen| && Distinct(a.ids)
    ensures forall i :: 0 <= i < |a.chosen| ==> a.chosen[i] in s.db.deliveries
    ensures forall i :: 0 <= i < |a.ids| ==> a.ids[i] !in s.db.outbox && a.ids[i] !in SeenIds(s)
    ensures NextDB(c, s, a).outbox == Enqueue(s.db.outbox, s.db.deliveries, a.chosen, a.ids, s.now)
  {
    hide SeenIds, Ranks, IsDue, Enqueue, JobMoves, ApplyMoves;
  }

  lemma JobOutbox(c: Config, s: State, a: Action)
    requires Enabled(c, s, a) && a.RunDue?
    ensures IsOutboxStep(s, a, NextDB(c, s, a).outbox)
  {
    hide SeenIds, Enabled, NextDB, Enqueue;
    RunDueFacts(c, s, a);
    EnqueueRows(s.db.outbox, s.db.deliveries, a.chosen, a.ids, s.now);
  }

  lemma RelayOutboxStep(c: Config, s: State, a: Action)
    requires Enabled(c, s, a) && (a.MarkBatch? || a.Purge?)
    ensures IsOutboxStep(s, a, NextDB(c, s, a).outbox)
  {
    hide SeenIds, NextDB, Enabled, IsMarkOf;
    RelayOutboxShape(c, s, a);
    if a.Purge? {
      PurgeIsStep(s, a, a.before);
    } else {
      MarkIsStep(s, a, s.now);
    }
  }

  lemma RelayOutboxShape(c: Config, s: State, a: Action)
    requires Enabled(c, s, a) && (a.MarkBatch? || a.Purge?)
    ensures a.Purge? ==> NextDB(c, s, a).outbox == PurgePublished(s.db.outbox, a.before)
    ensures a.MarkBatch? ==> a.r in s.relays && NextDB(c, s, a).outbox == MarkPublished(s.db.outbox, s.relays[a.r].published, s.now)
  {
    hide SeenIds, Moves, ApplyMoves, Recompute, Picked, FreshItem, MarkPublished, PurgePublished;
  }

  lemma MarkIsStep(s: State, a: Action, at: Time)
    requires a.MarkBatch? && a.r in s.relays
    ensures IsOutboxStep(s, a, MarkPublished(s.db.outbox, s.relays[a.r].published, at))
  {
    hide SeenIds;
  }

  lemma PurgeIsStep(s: State, a: Action, before: Time)
    ensures IsOutboxStep(s, a, PurgePublished(s.db.outbox, before))
  {
    hide SeenIds, IsMarkOf;
  }

  lemma RecomputeOutbox(db: DB, requestId: Id)
    requires requestId in db.requests
    ensures Recompute(db, requestId).outbox == db.outbox
  {
  }

  predicate WritesOutbox(a: Action)
  {
    a.Create? || a.CreateMany? || a.RunDue? || a.MarkBatch? || a.Purge?
  }

  lemma OtherStepsKeepOutbox(c: Config, s: State, a: Action)
    requires Enabled(c, s, a) && !WritesOutbox(a)
    ensures NextDB(c, s, a).outbox == s.db.outbox
  {
    hide SeenIds, Moves, ApplyMoves, Recompute;
    var moved := s.db.(deliveries := ApplyMoves(s.db.deliveries, Moves(c, s, a)));
    match a
    case CancelRequest(r, _, _) => RecomputeOutbox(moved, r);
    case MarkFailed(w, _, _, _) => RecomputeOutbox(moved, s.workers[w].requestId);
    case MarkSent(w, _) => RecomputeOutbox(moved, s.workers[w].requestId);
    case _ =>
  }

  lemma StepOutbox(c: Config, s: State, a: Action)
    requires Enabled(c, s, a)
    ensures IsOutboxStep(s, a, NextDB(c, s, a).outbox)
  {
    hide SeenIds, NextDB, Enabled;
    match a
    case Create(_) => CreateOutbox(c, s, a);
    case CreateMany(_, _, _, _) => CreateManyOutbox(c, s, a);
    case RunDue(_, _, _, _) => JobOutbox(c, s, a);
    case MarkBatch(_) => RelayOutboxStep(c, s, a);
    case Purge(_) => RelayOutboxStep(c, s, a);
    case _ => OtherStepsKeepOutbox(c, s, a);
  }

  /** The open rows of one delivery. */
  function OpenFor(outbox: map<Id, OutboxRow>, k: Key): set<Id>
  {
    set o | o in OpenRows(outbox) && outbox[o].key == k
  }

  /** Only a job adds an open row for an existing delivery. */
  lemma OpenForShrinks(c: Config, s: State, a: Action, k: Key)
    requires Enabled(c, s, a) && k in s.db.deliveries && (a.RunDue? ==> k !in a.chosen)
    ensures OpenFor(NextDB(c, s, a).outbox, k) <= OpenFor(s.db.outbox, k)
  {
    hide Enabled, NextDB, SeenIds;
    StepOutbox(c, s, a);
  }

  lemma EntryStaysFaithful(c: Config, s: State, a: Action, r: Id, i: nat)
    requires Enabled(c, s, a) && r in s.relays && i < |s.relays[r].entries| && Faithful(s.db.outbox, s.relays[r].entries[i])
    ensures Faithful(NextDB(c, s, a).outbox, s.relays[r].entries[i])
  {
    StepOutbox(c, s, a);
    assert s.relays[r].entries[i].id in SeenIds(s);
  }

  lemma StepKeepsMarks(c: Config, s: State, a: Action)
    requires Traced(s) && Enabled(c, s, a)
    ensures MarkedAfterAppend(Apply(c, s, a))
  {
    StepOutbox(c, s, a);
    var t := Apply(c, s, a);
    assert t.db == NextDB(c, s, a) && s.appended <= t.appended;
    hide NextDB, NextWorkers, NextStreams, NextRelays, Enabled;
    forall o | o in t.db.outbox && t.db.outbox[o].publishedAt.Some? ensures IsAppended(t, o) {
      if s.db.outbox[o].publishedAt.Some? {
        assert IsAppended(s, o);
      } else {
        assert PassOk(s, s.relays[a.r]);
        var x := s.relays[a.r];
        var i :| 0 <= i < |x.entries| && x.entries[i].id == o && x.entries[i] in s.appended;
        assert Faithful(s.db.outbox, x.entries[i]);
      }
    }
  }

  lemma RelayOrigin(c: Config, s: State, a: Action, r: Id)
    requires Enabled(c, s, a) && r in NextRelays(c, s, a)
    ensures var x := NextRelays(c, s, a)[r];
            if a.Fetch? && a.r == r then x == Relay(EntriesFor(s.db.outbox, a.fetched), 0, {})
            else r in s.relays && x.entries == s.relays[r].entries
                 && (x.published == s.relays[r].published
                     || (a.Publish? && a.r == r && x.published == s.relays[r].published + {x.entries[s.relays[r].next].id}))
  {
  }

  lemma StepKeepsPass(c: Config, s: State, a: Action, r: Id)
    requires Traced(s) && Enabled(c, s, a) && r in Apply(c, s, a).relays
    ensures PassOk(Apply(c, s, a), Apply(c, s, a).relays[r])
  {
    var t := Apply(c, s, a);
    var x := t.relays[r];
    RelayOrigin(c, s, a, r);
    assert s.appended <= t.appended && t.db == NextDB(c, s, a);
    if a.Fetch? && a.r == r {
      assert NextDB(c, s, a).outbox == s.db.outbox;
    } else {
      assert PassOk(s, s.relays[r]);
      forall i | 0 <= i < |x.entries| ensures Faithful(t.db.outbox, x.entries[i]) {
        EntryStaysFaithful(c, s, a, r, i);
      }
      if a.Publish? && a.r == r {
        assert x.entries[s.relays[r].next] in t.appended;
      }
      hide NextDB, NextWorkers, NextStreams, NextRelays, Faithful;
      forall id | id in x.published ensures exists i :: 0 <= i < |x.entries| && x.entries[i].id == id && x.entries[i] in t.appended {
        if id in s.relays[r].published {
          var i :| 0 <= i < |x.entries| && x.entries[i].id == id && x.entries[i] in s.appended;
        }
      }
    }
  }

  /** At least once, over every interleaving of relays: a row marked published has been appended to its own stream. */
  lemma {:induction false} RelayIsAtLeastOnce(c: Config, s: State, acts: seq<Action>, t: State)
    requires Traced(s) && Run(c, s, acts, t)
    ensures Traced(t)
    decreases |acts|
  {
    hide Enabled, Apply, PassOk, MarkedAfterAppend;
    if acts != [] {
      StepKeepsMarks(c, s, acts[0]);
      forall r | r in Apply(c, s, acts[0]).relays ensures PassOk(Apply(c, s, acts[0]), Apply(c, s, acts[0]).relays[r]) {
        StepKeepsPass(c, s, acts[0], r);
      }
      RelayIsAtLeastOnce(c, Apply(c, s, acts[0]), acts[1..], t);
    }
  }
}
