/** The scheduler's drain loops (internal/scheduler/jobs.go). */
module Scheduler {
  import opened Domain
  import opened Database
  import opened Lifecycle
  import S = Store

  // ---- Batches compose ----

  lemma {:induction false} EnqueueConcat(outbox: map<Id, OutboxRow>, ds: Deliveries, es: Deliveries,
                                         first: seq<Key>, second: seq<Key>, ids: seq<Id>, more: seq<Id>, at: Time)
    requires |ids| == |first| && |more| == |second|
    requires forall i :: 0 <= i < |first| ==> first[i] in ds
    requires forall i :: 0 <= i < |second| ==>
                           second[i] in ds && second[i] in es && OutboxFor(second[i], es[second[i]], at) == OutboxFor(second[i], ds[second[i]], at)
    ensures Enqueue(Enqueue(outbox, ds, first, ids, at), es, second, more, at) == Enqueue(outbox, ds, first + second, ids + more, at)
    decreases |first| + |second|
  {
    if first == [] {
      assert first + second == second && ids + more == more;
      if second != [] {
        EnqueueConcat(outbox[more[0] := OutboxFor(second[0], ds[second[0]], at)], ds, es, [], second[1..], [], more[1..], at);
        assert [] + second[1..] == second[1..] && [] + more[1..] == more[1..];
      }
    } else {
      EnqueueConcat(outbox[ids[0] := OutboxFor(first[0], ds[first[0]], at)], ds, es, first[1..], second, ids[1..], more, at);
      assert (first + second)[1..] == first[1..] + second && (ids + more)[1..] == ids[1..] + more;
    }
  }

  /** Two batches with disjoint rows are one batch. */
  lemma JobConcat(db: DB, job: Job, first: seq<Key>, second: seq<Key>, ids: seq<Id>, more: seq<Id>, at: Time)
    requires !job.ReconcileJob?
    requires |ids| == |first| && |more| == |second|
    requires forall i :: 0 <= i < |first| ==> first[i] in db.deliveries
    requires forall i :: 0 <= i < |second| ==> second[i] in db.deliveries
    requires forall k :: k in second ==> k !in first
    ensures RunJob(RunJob(db, job, first, ids, at), job, second, more, at) == RunJob(db, job, first + second, ids + more, at)
  {
    var es := RunJob(db, job, first, ids, at).deliveries;
    EnqueueConcat(db.outbox, db.deliveries, es, first, second, ids, more, at);
    assert ApplyMoves(es, JobMoves(job, second, at)) == ApplyMoves(db.deliveries, JobMoves(job, first + second, at));
  }

  /** At a fixed instant a batch takes its rows out of the due set, and no others. */
  lemma DueAfterBatch(db: DB, job: Job, chosen: seq<Key>, ids: seq<Id>, now: Time, after: Duration)
    requires !job.ReconcileJob? && |ids| == |chosen|
    requires forall i :: 0 <= i < |chosen| ==> chosen[i] in db.deliveries
    ensures Due(RunJob(db, job, chosen, ids, now), job, now, after) == Due(db, job, now, after) - (set k | k in chosen)
  {
  }

  lemma FreshSuffix(db: DB, job: Job, chosen: seq<Key>, uuids: seq<Id>, used: nat, now: Time)
    requires FreshIds(db, uuids) && used == |chosen| <= |uuids|
    requires forall i :: 0 <= i < |chosen| ==> chosen[i] in db.deliveries
    ensures FreshIds(RunJob(db, job, chosen, uuids[..used], now), uuids[used..])
  {
    EnqueueRows(db.outbox, db.deliveries, chosen, uuids[..used], now);
  }

  /** Distinct elements of a set. */
  ghost predicate IsPartOf<T(!new)>(moved: seq<T>, due: set<T>)
  {
    Distinct(moved) && forall i :: 0 <= i < |moved| ==> moved[i] in due
  }

  lemma EmptyBatch(db: DB, job: Job, now: Time)
    ensures RunJob(db, job, [], [], now) == db
  {
    assert ApplyMoves(db.deliveries, JobMoves(job, [], now)) == db.deliveries;
  }

  /** Between two batches: what is due is what is left, and the remaining identifiers are fresh and enough. */
  lemma BatchReady(db: DB, job: Job, moved: seq<Key>, uuids: seq<Id>, now: Time, after: Duration)
    requires !job.ReconcileJob? && FreshIds(db, uuids) && |Due(db, job, now, after)| <= |uuids|
    requires |moved| <= |uuids| && IsPartOf(moved, Due(db, job, now, after))
    ensures var next := RunJob(db, job, moved, uuids[..|moved|], now);
            && FreshIds(next, uuids[|moved|..])
            && Due(next, job, now, after) == Due(db, job, now, after) - (set k | k in moved)
            && |Due(next, job, now, after)| <= |uuids[|moved|..]|
  {
    DueAfterBatch(db, job, moved, uuids[..|moved|], now, after);
    FreshSuffix(db, job, moved, uuids, |moved|, now);
    RoomLeft(Due(db, job, now, after), moved, |uuids|);
  }

  /** Two batches in a row are one longer batch; a short one is the last. */
  lemma BatchExtends(db: DB, job: Job, moved: seq<Key>, chosen: seq<Key>, uuids: seq<Id>, now: Time, after: Duration, batch: int)
    requires !job.ReconcileJob? && |moved| + |chosen| <= |uuids| && IsPartOf(moved, Due(db, job, now, after))
    requires var next := RunJob(db, job, moved, uuids[..|moved|], now);
             && Due(next, job, now, after) == Due(db, job, now, after) - (set k | k in moved)
             && Picked(Due(next, job, now, after), Ranks(next.deliveries, job), batch, chosen)
    ensures IsPartOf(moved + chosen, Due(db, job, now, after))
    ensures RunJob(RunJob(db, job, moved, uuids[..|moved|], now), job, chosen, uuids[|moved|..][..|chosen|], now)
         == RunJob(db, job, moved + chosen, uuids[..|moved| + |chosen|], now)
    ensures |chosen| < batch ==> forall k :: k in Due(db, job, now, after) ==> k in moved + chosen
  {
    hide RunJob, Due, IsDue, Ranks;
    DueIsStored(db, job, now, after);
    var next := RunJob(db, job, moved, uuids[..|moved|], now);
    DueIsStored(next, job, now, after);
    PickExtends(Due(db, job, now, after), moved, Ranks(next.deliveries, job), batch, chosen);
    forall k | k in chosen ensures k !in moved {
      var i :| 0 <= i < |chosen| && chosen[i] == k;
      assert (moved + chosen)[|moved| + i] == k;
    }
    assert forall i :: 0 <= i < |chosen| ==> (moved + chosen)[|moved| + i] == chosen[i];
    JobConcat(db, job, moved, chosen, uuids[..|moved|], uuids[|moved|..][..|chosen|], now);
    assert uuids[..|moved|] + uuids[|moved|..][..|chosen|] == uuids[..|moved| + |chosen|];
  }

  lemma PickExtends(due: set<Key>, moved: seq<Key>, rank: map<Key, Time>, batch: int, chosen: seq<Key>)
    requires IsPartOf(moved, due) && due - (set k | k in moved) <= rank.Keys
    requires Picked(due - (set k | k in moved), rank, batch, chosen)
    ensures IsPartOf(moved + chosen, due)
    ensures |chosen| < batch ==> forall k :: k in due ==> k in moved + chosen
  {
    forall i | 0 <= i < |chosen| ensures chosen[i] in due && chosen[i] !in moved {
      assert chosen[i] in due - (set k | k in moved);
    }
  }

  /** The outbox rows a job added for a delivery. */
  predicate IsNewRowOf(before: map<Id, OutboxRow>, after: map<Id, OutboxRow>, o: Id, k: Key)
  {
    o in after && o !in before && after[o].key == k
  }

  /**
   * Moving all due rows at once: exactly the due rows become PENDING, each gets exactly one new outbox row, on its own
   * stream, and nothing else changes.
   */
  lemma OneShotMovesExactlyDue(db: DB, job: Job, moved: seq<Key>, ids: seq<Id>, now: Time, after: Duration)
    requires !job.ReconcileJob? && |ids| == |moved| && FreshIds(db, ids)
    requires IsPartOf(moved, Due(db, job, now, after)) && forall k :: k in Due(db, job, now, after) ==> k in moved
    ensures forall i :: 0 <= i < |moved| ==> moved[i] in db.deliveries
    ensures var r := RunJob(db, job, moved, ids, now);
            && JobWrites(db, r, job, moved, ids, now)
            && (forall k :: k in db.deliveries ==>
                              r.deliveries[k] == if IsTaken(db.deliveries[k], job, now) then db.deliveries[k].(status := Pending, updatedAt := now)
                                                 else db.deliveries[k])
            && (forall k :: k in db.deliveries && IsTaken(db.deliveries[k], job, now) ==>
                              exists o :: IsNewRowOf(db.outbox, r.outbox, o, k))
            && (forall o :: o in r.outbox && o !in db.outbox ==>
                              r.outbox[o].key in db.deliveries && IsTaken(db.deliveries[r.outbox[o].key], job, now))
            && (forall k, o, p :: IsNewRowOf(db.outbox, r.outbox, o, k) && IsNewRowOf(db.outbox, r.outbox, p, k) ==> o == p)
  {
    hide IsDue, Due, Ranks, Enqueue, JobMoves, ApplyMoves, OutboxFor, IsNewRowOf;
    DueIsStored(db, job, now, after);
    DueInColumns(db, now, after);
    OneRowEach(db.outbox, db.deliveries, moved, ids, now);
    JobRows(db, job, moved, now);
    JobInColumns(db, job, moved, ids, now);
  }

  lemma OneRowEach(outbox: map<Id, OutboxRow>, ds: Deliveries, moved: seq<Key>, ids: seq<Id>, now: Time)
    requires |ids| == |moved| && Distinct(ids) && Distinct(moved)
    requires forall i :: 0 <= i < |ids| ==> ids[i] !in outbox && moved[i] in ds
    ensures var box := Enqueue(outbox, ds, moved, ids, now);
            && (forall o :: o in outbox ==> o in box && box[o] == outbox[o])
            && (forall o :: o in box && o !in outbox ==> box[o].key in moved && box[o] == OutboxFor(box[o].key, ds[box[o].key], now))
            && (forall k :: k in moved ==> exists o :: IsNewRowOf(outbox, box, o, k))
            && (forall k, o, p :: IsNewRowOf(outbox, box, o, k) && IsNewRowOf(outbox, box, p, k) ==> o == p)
  {
    hide Enqueue;
    EnqueueRows(outbox, ds, moved, ids, now);
    var box := Enqueue(outbox, ds, moved, ids, now);
    forall k | k in moved ensures exists o :: IsNewRowOf(outbox, box, o, k) {
      var i :| 0 <= i < |moved| && moved[i] == k;
      assert IsNewRowOf(outbox, box, ids[i], k);
    }
    forall o | o in box && o !in outbox ensures box[o].key in moved && box[o] == OutboxFor(box[o].key, ds[box[o].key], now) {
      var i :| 0 <= i < |ids| && ids[i] == o;
    }
    forall k, o, p | IsNewRowOf(outbox, box, o, k) && IsNewRowOf(outbox, box, p, k) ensures o == p {
      var i :| 0 <= i < |ids| && ids[i] == o;
      var j :| 0 <= j < |ids| && ids[j] == p;
      assert moved[i] == k && moved[j] == k;
    }
  }

  lemma JobRows(db: DB, job: Job, moved: seq<Key>, now: Time)
    requires !job.ReconcileJob? && forall i :: 0 <= i < |moved| ==> moved[i] in db.deliveries
    ensures var es := ApplyMoves(db.deliveries, JobMoves(job, moved, now));
            forall k :: k in db.deliveries ==>
                          k in es && es[k] == if k in moved then db.deliveries[k].(status := Pending, updatedAt := now) else db.deliveries[k]
  {
  }

  /** What the promote and the sweep take, column by column. */
  predicate IsTaken(d: Delivery, job: Job, now: Time)
  {
    if job == PromoteJob then d.status == Scheduled && d.sendAt.Some? && d.sendAt.value <= now
    else d.status == Retrying && d.nextRetryAt.Some? && d.nextRetryAt.value <= now
  }

  /** The moved rows are rows to take; all of them, when the drain is complete. */
  ghost predicate Takes(ds: Deliveries, job: Job, moved: seq<Key>, now: Time, complete: bool)
  {
    && (forall k :: k in moved ==> k in ds && IsTaken(ds[k], job, now))
    && (complete ==> forall k :: k in ds && IsTaken(ds[k], job, now) ==> k in moved)
  }

  lemma MovedInColumns(db: DB, job: Job, moved: seq<Key>, ids: seq<Id>, now: Time, after: Duration, complete: bool)
    requires !job.ReconcileJob? && |ids| == |moved| && FreshIds(db, ids) && IsPartOf(moved, Due(db, job, now, after))
    requires complete ==> forall k :: k in Due(db, job, now, after) ==> k in moved
    ensures Takes(db.deliveries, job, moved, now, complete)
    ensures forall i :: 0 <= i < |moved| ==> moved[i] in db.deliveries
    ensures JobWrites(db, RunJob(db, job, moved, ids, now), job, moved, ids, now)
  {
    hide JobWrites, RunJob, Due;
    DueInColumns(db, now, after);
    DueIsStored(db, job, now, after);
    JobInColumns(db, job, moved, ids, now);
  }

  /** Pending, untouched for long enough, and with no open outbox row. */
  predicate IsIdle(db: DB, k: Key, now: Time, after: Duration)
    requires k in db.deliveries
  {
    && db.deliveries[k].status == Pending && db.deliveries[k].updatedAt < now - after
    && forall o :: o in db.outbox && db.outbox[o].key.id == k.id ==> db.outbox[o].publishedAt.Some?
  }

  // ---- The jobs ----

  class Scheduler {
    const store: S.Store
    var streams: map<Stream, seq<Message>>

    constructor (store: S.Store)
      ensures this.store == store && streams == map[]
    {
      this.store, streams := store, map[];
    }

    /**
     * The promote and sweep loops: batch after batch until one comes back short. `errAt` is the iteration whose statement
     * fails, if any; with a negative batch the first one does. The whole drain is one batch: with no failure, the batch of
     * all due rows. A batch of zero is excluded: the loop would not end.
     */
    method Drain(job: Job, batch: int, now: Time, after: Duration, uuids: seq<Id>, errAt: Option<nat>) returns (ghost moved: seq<Key>)
      requires batch != 0 && !job.ReconcileJob?
      requires FreshIds(store.Rows(), uuids) && |Due(store.Rows(), job, now, after)| <= |uuids|
      modifies store
      ensures IsPartOf(moved, Due(old(store.Rows()), job, now, after)) && |moved| <= |uuids|
      ensures errAt.None? && batch > 0 ==> forall k :: k in Due(old(store.Rows()), job, now, after) ==> k in moved
      ensures batch < 0 ==> moved == []
      ensures store.Rows() == RunJob(old(store.Rows()), job, moved, uuids[..|moved|], now)
      ensures Takes(old(store.deliveries), job, moved, now, errAt.None? && batch > 0)
      ensures JobWrites(old(store.Rows()), store.Rows(), job, moved, uuids[..|moved|], now)
    {
      hide RunJob, IsDue, Picked, JobWrites, Takes, JobMoves, ApplyMoves;
      ghost var db := store.Rows();
      moved := [];
      var used, i := 0, 0;
      EmptyBatch(db, job, now);
      while true
        invariant used == |moved| <= |uuids| && IsPartOf(moved, Due(db, job, now, after))
        invariant batch < 0 ==> moved == []
        invariant store.Rows() == RunJob(db, job, moved, uuids[..used], now)
        decreases |Due(db, job, now, after)| - |moved|
      {
        S.FitsIn(moved, Due(db, job, now, after));
        if errAt == Some(i) {
          MovedInColumns(db, job, moved, uuids[..used], now, after, false);
          return;
        }
        BatchReady(db, job, moved, uuids, now, after);
        var r, chosen := store.TransitionAndEnqueue(job, batch, now, after, uuids[used..]);
        if r.Err? {
          MovedInColumns(db, job, moved, uuids[..used], now, after, false);
          return;
        }
        var n := r.value;
        BatchExtends(db, job, moved, chosen, uuids, now, after, batch);
        moved, used, i := moved + chosen, used + n, i + 1;
        S.FitsIn(moved, Due(db, job, now, after));
        if n < batch {
          MovedInColumns(db, job, moved, uuids[..used], now, after, errAt.None? && batch > 0);
          return;
        }
      }
    }

    /** Releases every delivery whose lease has expired; nothing else changes. */
    method ReapStuck(now: Time) returns (n: nat)
      modifies store
      ensures store.Rows() == old(store.Rows()).(deliveries := store.deliveries) && store.deliveries.Keys == old(store.deliveries).Keys
      ensures forall k :: k in store.deliveries ==>
                            var d, e := old(store.deliveries)[k], store.deliveries[k];
                            if d.status == Processing && d.lockedUntil.Some? && d.lockedUntil.value < now then
                              e == d.(status := Retrying, nextRetryAt := Some(now), lockedUntil := None, updatedAt := now, history := e.history)
                            else e == d
      ensures store.Rows() == old(store.Rows()).(deliveries := ApplyMoves(old(store.deliveries), ReapMoves(old(store.deliveries), now)))
    {
      n := store.ReapStuck(now);
    }

    /** One batch of idle pending deliveries goes back on the outbox; a negative batch does nothing. */
    method Reconcile(batch: int, now: Time, after: Duration, uuids: seq<Id>) returns (n: nat, ghost chosen: seq<Key>)
      requires FreshIds(store.Rows(), uuids) && |Due(store.Rows(), ReconcileJob, now, after)| <= |uuids|
      modifies store
      ensures n == |chosen| <= |uuids|
      ensures batch < 0 ==> chosen == []
      ensures batch >= 0 ==>
                Picked(Due(old(store.Rows()), ReconcileJob, now, after), Ranks(old(store.deliveries), ReconcileJob), batch, chosen)
      ensures store.Rows() == RunJob(old(store.Rows()), ReconcileJob, chosen, uuids[..n], now)
      ensures store.deliveries == old(store.deliveries)
      ensures JobWrites(old(store.Rows()), store.Rows(), ReconcileJob, chosen, uuids[..n], now)
      ensures forall k :: k in chosen ==> k in old(store.deliveries) && IsIdle(old(store.Rows()), k, now, after)
      ensures forall k :: k in old(store.deliveries) && k !in chosen && IsIdle(old(store.Rows()), k, now, after) ==>
                            batch <= |chosen| && forall l :: l in chosen ==> old(store.deliveries)[l].updatedAt <= old(store.deliveries)[k].updatedAt
    {
      hide RunJob, IsDue, Due, Ranks, JobWrites;
      ghost var db := store.Rows();
      DueInColumns(db, now, after);
      RankInColumns(db.deliveries);
      EmptyBatch(db, ReconcileJob, now);
      var r;
      r, chosen := store.TransitionAndEnqueue(ReconcileJob, batch, now, after, uuids);
      n := if r.Ok? then r.value else 0;
      JobInColumns(db, ReconcileJob, chosen, uuids[..n], now);
    }

    /**
     * The relay loop: fetch, publish each entry, mark what was published, again after a full batch. In pass i publishing an
     * entry fails exactly when its identifier is in `failing(i)`. When only finitely many full passes stall, say no more than
     * `patience`, the loop ends, after as many passes as that and the open rows allow. What is left open then failed in the
     * last pass, and every other row's message was appended once to its own stream.
     */
    method RelayOutbox(batch: int, now: Time, failing: nat -> set<Id>, ghost patience: nat) returns (ghost passes: seq<seq<Id>>)
      requires batch > 0 ==> StallsAtMost(store.outbox, failing, now, batch, patience)
      modifies this`streams, store`outbox
      ensures batch <= 0 ==> passes == []
      ensures |passes| <= |OpenRows(old(store.outbox))| + patience + 1
      ensures Distinct(SentBy(passes, failing)) && Elements(SentBy(passes, failing)) <= OpenRows(old(store.outbox))
      ensures store.outbox == BoxAfter(old(store.outbox), failing, now, passes)
      ensures streams == AppendAll(old(streams), old(store.outbox), SentBy(passes, failing))
      ensures forall st :: On(streams, st) == On(old(streams), st) + MessagesOn(old(store.outbox), SentBy(passes, failing), st)
      ensures batch > 0 ==> OpenRows(store.outbox) <= if passes == [] then {} else failing(|passes| - 1)
      ensures batch > 0 ==>
                forall f :: (forall i :: failing(i) == f) ==>
                              && Elements(SentBy(passes, failing)) == OpenRows(old(store.outbox)) - f
                              && OpenRows(store.outbox) == OpenRows(old(store.outbox)) * f
    {
      hide MarkPublished, AppendAll, Picked, OpenRows, CreationTimes, EntriesFor, GotThrough, SentBy, AllFull, StallsAtMost, Stalled, On, MessagesOn;
      ghost var box := store.outbox;
      passes := [];
      var i := 0;
      NothingSent(box, streams, failing, now, batch);
      while true
        invariant i == |passes| && (batch <= 0 ==> passes == [])
        invariant batch > 0 ==> AllFull(box, failing, now, batch, passes)
        invariant IsSent(box, SentBy(passes, failing))
        invariant store.outbox == BoxAfter(box, failing, now, passes)
        invariant streams == AppendAll(old(streams), box, SentBy(passes, failing))
        decreases |OpenRows(box)| + patience - |passes|
      {
        if batch > 0 {
          FullPassesAreBounded(box, failing, now, batch, patience, passes);
        }
        var r := store.FetchUnpublishedOutbox(batch);
        if r.Err? || |r.value| == 0 {
          if batch > 0 {
            assert S.EntryIds(r.value) == [];
            EmptyFetch(box, failing, now, batch, passes);
            FixedFailures(box, failing, now, passes);
          }
          AllInOrder(old(streams), box, SentBy(passes, failing));
          return;
        }
        var entries := r.value;
        ghost var chosen := S.EntryIds(entries);
        PassFacts(box, failing, now, batch, passes, chosen);
        var ids := PublishAll(entries, failing(i), box, chosen);
        AppendAllConcat(old(streams), box, SentBy(passes, failing), ids);
        store.MarkOutboxPublished(ids, now);
        passes, i := passes + [chosen], i + 1;
        if |entries| < batch {
          FixedFailures(box, failing, now, passes);
          AllInOrder(old(streams), box, SentBy(passes, failing));
          return;
        }
        FullPassesAreBounded(box, failing, now, batch, patience, passes);
      }
    }

    /** The inner loop of a pass: the identifiers that got through, in order. */
    method PublishAll(entries: seq<Entry>, failing: set<Id>, ghost box: map<Id, OutboxRow>, ghost chosen: seq<Id>) returns (ids: seq<Id>)
      requires |entries| == |chosen|
      requires forall i :: 0 <= i < |chosen| ==>
                             chosen[i] in box && entries[i] == Entry(chosen[i], box[chosen[i]].stream, box[chosen[i]].message)
      modifies this`streams
      ensures ids == GotThrough(chosen, failing)
      ensures streams == AppendAll(old(streams), box, ids)
      ensures forall st :: On(streams, st) == On(old(streams), st) + MessagesOn(box, ids, st)
    {
      ids := [];
      var i := 0;
      while i < |entries|
        invariant 0 <= i <= |entries|
        invariant ids == GotThrough(chosen[..i], failing)
        invariant streams == AppendAll(old(streams), box, ids)
      {
        var e := entries[i];
        assert chosen[..i + 1][..i] == chosen[..i];
        if e.id !in failing {
          streams := Append(streams, e.stream, e.message);
          assert (ids + [e.id])[..|ids|] == ids;
          ids := ids + [e.id];
        }
        i := i + 1;
      }
      assert chosen[..i] == chosen;
      AllInOrder(old(streams), box, ids);
    }
  }

  lemma AllInOrder(streams: map<Stream, seq<Message>>, box: map<Id, OutboxRow>, ids: seq<Id>)
    ensures forall st :: On(AppendAll(streams, box, ids), st) == On(streams, st) + MessagesOn(box, ids, st)
  {
    forall st ensures On(AppendAll(streams, box, ids), st) == On(streams, st) + MessagesOn(box, ids, st) {
      AppendedInOrder(streams, box, ids, st);
    }
  }

  function Append(streams: map<Stream, seq<Message>>, st: Stream, m: Message): map<Stream, seq<Message>>
  {
    streams[st := (if st in streams then streams[st] else []) + [m]]
  }

  /** The messages of the given rows, appended in order, each to its own stream. */
  function AppendAll(streams: map<Stream, seq<Message>>, box: map<Id, OutboxRow>, ids: seq<Id>): map<Stream, seq<Message>>
  {
    if ids == [] then streams
    else
      var o := ids[|ids| - 1];
      var prefix := AppendAll(streams, box, ids[..|ids| - 1]);
      if o in box then Append(prefix, box[o].stream, box[o].message) else prefix
  }

  function On(streams: map<Stream, seq<Message>>, st: Stream): seq<Message>
  {
    if st in streams then streams[st] else []
  }

  /** The messages of the given rows that belong on a stream, in the order of the rows. */
  function MessagesOn(box: map<Id, OutboxRow>, ids: seq<Id>, st: Stream): seq<Message>
  {
    if ids == [] then []
    else (if ids[0] in box && box[ids[0]].stream == st then [box[ids[0]].message] else []) + MessagesOn(box, ids[1..], st)
  }

  lemma {:induction false} OneMoreMessage(box: map<Id, OutboxRow>, ids: seq<Id>, o: Id, st: Stream)
    ensures MessagesOn(box, ids + [o], st) ==
            MessagesOn(box, ids, st) + if o in box && box[o].stream == st then [box[o].message] else []
  {
    if ids == [] {
      assert ids + [o] == [o];
    } else {
      OneMoreMessage(box, ids[1..], o, st);
      assert (ids + [o])[1..] == ids[1..] + [o];
    }
  }

  /** Every stream keeps what it had, and gets its messages behind that, in order. */
  lemma {:induction false} AppendedInOrder(streams: map<Stream, seq<Message>>, box: map<Id, OutboxRow>, ids: seq<Id>, st: Stream)
    ensures On(AppendAll(streams, box, ids), st) == On(streams, st) + MessagesOn(box, ids, st)
    decreases |ids|
  {
    if ids != [] {
      var init, o := ids[..|ids| - 1], ids[|ids| - 1];
      AppendedInOrder(streams, box, init, st);
      OneMoreMessage(box, init, o, st);
      assert ids == init + [o];
    }
  }

  /** The entries whose publish succeeds. */
  function GotThrough(chosen: seq<Id>, failing: set<Id>): seq<Id>
  {
    if chosen == [] then []
    else
      var o := chosen[|chosen| - 1];
      var prefix := GotThrough(chosen[..|chosen| - 1], failing);
      if o in failing then prefix else prefix + [o]
  }

  // ---- Facts about a pass ----

  lemma {:induction false} AppendAllConcat(streams: map<Stream, seq<Message>>, box: map<Id, OutboxRow>, first: seq<Id>, second: seq<Id>)
    ensures AppendAll(AppendAll(streams, box, first), box, second) == AppendAll(streams, box, first + second)
    decreases |second|
  {
    if second == [] {
      assert first + second == first;
    } else {
      var prefix := second[..|second| - 1];
      AppendAllConcat(streams, box, first, prefix);
      assert (first + second)[..|first + second| - 1] == first + prefix;
    }
  }

  /** What got through is the fetched batch without its failing rows. */
  lemma {:induction false} GotThroughIds(chosen: seq<Id>, failing: set<Id>)
    requires Distinct(chosen)
    ensures Elements(GotThrough(chosen, failing)) == Elements(chosen) - failing && Distinct(GotThrough(chosen, failing))
    decreases |chosen|
  {
    if chosen != [] {
      var prefix, o := chosen[..|chosen| - 1], chosen[|chosen| - 1];
      GotThroughIds(prefix, failing);
      assert chosen == prefix + [o];
      assert Elements(chosen) == Elements(prefix) + {o};
      var got := GotThrough(prefix, failing);
      assert o !in Elements(got);
      assert Elements(got + [o]) == Elements(got) + {o};
    }
  }

  lemma NothingMarked(box: map<Id, OutboxRow>, now: Time)
    ensures MarkPublished(box, Elements([]), now) == box
    ensures forall streams :: AppendAll(streams, box, []) == streams
  {
  }

  lemma OpenAfterMarks(box: map<Id, OutboxRow>, sent: seq<Id>, now: Time)
    ensures var next := MarkPublished(box, Elements(sent), now);
            && OpenRows(next) == OpenRows(box) - Elements(sent)
            && forall o :: o in box ==> o in next && next[o].message == box[o].message && next[o].stream == box[o].stream
  {
  }

  lemma MarkTwice(box: map<Id, OutboxRow>, first: seq<Id>, second: seq<Id>, now: Time)
    ensures MarkPublished(MarkPublished(box, Elements(first), now), Elements(second), now) == MarkPublished(box, Elements(first + second), now)
  {
    assert Elements(first + second) == Elements(first) + Elements(second);
  }

  // ---- The relay loop ----

  /** What the passes published, in order. */
  function SentBy(passes: seq<seq<Id>>, failing: nat -> set<Id>): seq<Id>
  {
    if passes == [] then []
    else SentBy(passes[..|passes| - 1], failing) + GotThrough(passes[|passes| - 1], failing(|passes| - 1))
  }

  /** The outbox after the passes. */
  function BoxAfter(box: map<Id, OutboxRow>, failing: nat -> set<Id>, now: Time, passes: seq<seq<Id>>): map<Id, OutboxRow>
  {
    MarkPublished(box, Elements(SentBy(passes, failing)), now)
  }

  /** What the next pass can fetch. */
  ghost predicate IsFetch(box: map<Id, OutboxRow>, failing: nat -> set<Id>, now: Time, batch: int, passes: seq<seq<Id>>, chosen: seq<Id>)
  {
    var next := BoxAfter(box, failing, now, passes); Picked(OpenRows(next), CreationTimes(next), batch, chosen)
  }

  /** The loop has gone through these passes without returning: each fetched a full batch. */
  ghost predicate AllFull(box: map<Id, OutboxRow>, failing: nat -> set<Id>, now: Time, batch: int, passes: seq<seq<Id>>)
  {
    passes != [] ==>
      var init, last := passes[..|passes| - 1], passes[|passes| - 1];
      AllFull(box, failing, now, batch, init) && IsFetch(box, failing, now, batch, init, last) && |last| >= batch
  }

  /** In whatever way the loop gets to a full pass, something of it is published. */
  ghost predicate EveryFullPassGetsThrough(box: map<Id, OutboxRow>, failing: nat -> set<Id>, now: Time, batch: int)
  {
    forall passes, chosen ::
      AllFull(box, failing, now, batch, passes) && IsFetch(box, failing, now, batch, passes, chosen) && |chosen| >= batch ==>
        GotThrough(chosen, failing(|passes|)) != []
  }

  /** How many passes published nothing. */
  function Stalled(passes: seq<seq<Id>>, failing: nat -> set<Id>): nat
  {
    if passes == [] then 0
    else
      Stalled(passes[..|passes| - 1], failing)
      + if GotThrough(passes[|passes| - 1], failing(|passes| - 1)) == [] then 1 else 0
  }

  /** However the loop goes, no more than so many full passes stall. */
  ghost predicate StallsAtMost(box: map<Id, OutboxRow>, failing: nat -> set<Id>, now: Time, batch: int, patience: nat)
  {
    forall passes :: AllFull(box, failing, now, batch, passes) ==> Stalled(passes, failing) <= patience
  }

  /** Distinct rows that were open. */
  ghost predicate IsSent(box: map<Id, OutboxRow>, sent: seq<Id>)
  {
    Distinct(sent) && Elements(sent) <= OpenRows(box)
  }

  lemma NothingSent(box: map<Id, OutboxRow>, streams: map<Stream, seq<Message>>, failing: nat -> set<Id>, now: Time, batch: int)
    ensures IsSent(box, SentBy([], failing)) && AllFull(box, failing, now, batch, [])
    ensures BoxAfter(box, failing, now, []) == box && AppendAll(streams, box, SentBy([], failing)) == streams
  {
    NothingMarked(box, now);
  }

  /** The fetched rows are open rows that were not sent yet. */
  lemma FetchIsUnsent(box: map<Id, OutboxRow>, failing: nat -> set<Id>, now: Time, batch: int, passes: seq<seq<Id>>, chosen: seq<Id>)
    requires IsFetch(box, failing, now, batch, passes, chosen)
    ensures Distinct(chosen) && Elements(chosen) <= OpenRows(box) - Elements(SentBy(passes, failing))
    ensures |chosen| < batch ==> Elements(chosen) == OpenRows(box) - Elements(SentBy(passes, failing))
  {
    hide SentBy, OpenRows, CreationTimes;
    OpenAfterMarks(box, SentBy(passes, failing), now);
    forall o | o in Elements(chosen) ensures o in OpenRows(box) - Elements(SentBy(passes, failing)) {
      var i :| 0 <= i < |chosen| && chosen[i] == o;
    }
  }

  /** A pass in one place: its entries are rows of the original outbox, and its marks extend what was sent. */
  lemma PassFacts(box: map<Id, OutboxRow>, failing: nat -> set<Id>, now: Time, batch: int, passes: seq<seq<Id>>, chosen: seq<Id>)
    requires batch > 0 && IsSent(box, SentBy(passes, failing)) && AllFull(box, failing, now, batch, passes)
    requires IsFetch(box, failing, now, batch, passes, chosen)
    ensures var next := BoxAfter(box, failing, now, passes);
            && (forall i :: 0 <= i < |chosen| ==> chosen[i] in box && chosen[i] in next)
            && |EntriesFor(next, chosen)| == |chosen|
            && forall i :: 0 <= i < |chosen| ==>
                             EntriesFor(next, chosen)[i] == Entry(chosen[i], box[chosen[i]].stream, box[chosen[i]].message)
    ensures var got, more := GotThrough(chosen, failing(|passes|)), passes + [chosen];
            && SentBy(more, failing) == SentBy(passes, failing) + got && IsSent(box, SentBy(more, failing))
            && MarkPublished(BoxAfter(box, failing, now, passes), Elements(got), now) == BoxAfter(box, failing, now, more)
            && |SentBy(more, failing)| <= |OpenRows(box)|
            && (|chosen| >= batch ==> AllFull(box, failing, now, batch, more))
            && Stalled(more, failing) == Stalled(passes, failing) + (if got == [] then 1 else 0)
            && (|chosen| < batch ==> OpenRows(BoxAfter(box, failing, now, more)) <= failing(|passes|))
  {
    hide SentBy, OpenRows, CreationTimes, AllFull, GotThrough, MarkPublished, Picked, Stalled;
    FetchEntries(box, failing, now, batch, passes, chosen);
    FetchIsUnsent(box, failing, now, batch, passes, chosen);
    GotThroughIds(chosen, failing(|passes|));
    OneMorePass(box, failing, now, batch, passes, chosen);
    var got, more := GotThrough(chosen, failing(|passes|)), passes + [chosen];
    MarkTwice(box, SentBy(passes, failing), got, now);
    SentExtends(box, SentBy(passes, failing), got);
    AtMost(box, SentBy(more, failing));
    OpenAfterMarks(box, SentBy(more, failing), now);
    assert Elements(SentBy(more, failing)) == Elements(SentBy(passes, failing)) + Elements(got);
  }

  lemma FetchEntries(box: map<Id, OutboxRow>, failing: nat -> set<Id>, now: Time, batch: int, passes: seq<seq<Id>>, chosen: seq<Id>)
    requires IsFetch(box, failing, now, batch, passes, chosen)
    ensures var next := BoxAfter(box, failing, now, passes);
            && (forall i :: 0 <= i < |chosen| ==> chosen[i] in box && chosen[i] in next)
            && |EntriesFor(next, chosen)| == |chosen|
            && forall i :: 0 <= i < |chosen| ==>
                             EntriesFor(next, chosen)[i] == Entry(chosen[i], box[chosen[i]].stream, box[chosen[i]].message)
  {
    hide SentBy;
    OpenAfterMarks(box, SentBy(passes, failing), now);
    FetchIsUnsent(box, failing, now, batch, passes, chosen);
    forall i | 0 <= i < |chosen| ensures chosen[i] in box {
      assert chosen[i] in Elements(chosen);
    }
  }

  lemma OneMorePass(box: map<Id, OutboxRow>, failing: nat -> set<Id>, now: Time, batch: int, passes: seq<seq<Id>>, chosen: seq<Id>)
    ensures var more := passes + [chosen];
            && SentBy(more, failing) == SentBy(passes, failing) + GotThrough(chosen, failing(|passes|))
            && Stalled(more, failing) == Stalled(passes, failing) + (if GotThrough(chosen, failing(|passes|)) == [] then 1 else 0)
            && (AllFull(box, failing, now, batch, more) <==>
                AllFull(box, failing, now, batch, passes) && IsFetch(box, failing, now, batch, passes, chosen) && |chosen| >= batch)
  {
    hide GotThrough, IsFetch;
    assert (passes + [chosen])[..|passes|] == passes;
  }

  lemma SentExtends(box: map<Id, OutboxRow>, sent: seq<Id>, got: seq<Id>)
    requires IsSent(box, sent) && Distinct(got) && Elements(got) <= OpenRows(box) - Elements(sent)
    ensures IsSent(box, sent + got)
  {
    hide OpenRows;
    assert Elements(sent + got) == Elements(sent) + Elements(got);
    forall i | 0 <= i < |got| ensures got[i] !in Elements(sent) {
      assert got[i] in Elements(got);
    }
    forall i | 0 <= i < |sent| ensures sent[i] in Elements(sent) {
    }
  }

  lemma AtMost(box: map<Id, OutboxRow>, sent: seq<Id>)
    requires IsSent(box, sent)
    ensures |sent| <= |OpenRows(box)|
  {
    hide OpenRows;
    forall i | 0 <= i < |sent| ensures sent[i] in OpenRows(box) {
      assert sent[i] in Elements(sent);
    }
    S.FitsIn(sent, OpenRows(box));
  }

  lemma EmptyFetch(box: map<Id, OutboxRow>, failing: nat -> set<Id>, now: Time, batch: int, passes: seq<seq<Id>>)
    requires batch > 0 && IsFetch(box, failing, now, batch, passes, [])
    ensures OpenRows(BoxAfter(box, failing, now, passes)) == {}
  {
    hide SentBy;
    FetchIsUnsent(box, failing, now, batch, passes, []);
    OpenAfterMarks(box, SentBy(passes, failing), now);
  }

  lemma {:induction false} NotThrough(chosen: seq<Id>, failing: set<Id>)
    ensures Elements(GotThrough(chosen, failing)) !! failing
    decreases |chosen|
  {
    if chosen != [] {
      NotThrough(chosen[..|chosen| - 1], failing);
    }
  }

  /** With the same failures in every pass, a failing row is never sent. */
  lemma {:induction false} FailingStayOut(passes: seq<seq<Id>>, failing: nat -> set<Id>, f: set<Id>)
    requires forall i :: failing(i) == f
    ensures Elements(SentBy(passes, failing)) !! f
    decreases |passes|
  {
    hide GotThrough;
    if passes != [] {
      var init, last := passes[..|passes| - 1], passes[|passes| - 1];
      FailingStayOut(init, failing, f);
      NotThrough(last, f);
      assert failing(|passes| - 1) == f;
      assert Elements(SentBy(passes, failing)) == Elements(SentBy(init, failing)) + Elements(GotThrough(last, f));
    }
  }

  lemma FixedFailures(box: map<Id, OutboxRow>, failing: nat -> set<Id>, now: Time, passes: seq<seq<Id>>)
    requires IsSent(box, SentBy(passes, failing))
    requires OpenRows(BoxAfter(box, failing, now, passes)) <= if passes == [] then {} else failing(|passes| - 1)
    ensures forall f :: (forall i :: failing(i) == f) ==>
                          && Elements(SentBy(passes, failing)) == OpenRows(box) - f
                          && OpenRows(BoxAfter(box, failing, now, passes)) == OpenRows(box) * f
  {
    hide OpenRows, SentBy, MarkPublished, Distinct;
    OpenAfterMarks(box, SentBy(passes, failing), now);
    forall f | forall i :: failing(i) == f
      ensures Elements(SentBy(passes, failing)) == OpenRows(box) - f
      ensures OpenRows(BoxAfter(box, failing, now, passes)) == OpenRows(box) * f
    {
      FailingStayOut(passes, failing, f);
      assert OpenRows(BoxAfter(box, failing, now, passes)) <= f;
    }
  }

  // ---- When the relay loop ends ----

  function Always(f: set<Id>): nat -> set<Id>
  {
    (i: nat) => f
  }

  /** Some execution comes to a pass that fetches less than a full batch, and so returns. */
  ghost predicate CanReturn(box: map<Id, OutboxRow>, failing: nat -> set<Id>, now: Time, batch: int)
  {
    exists passes, last ::
      AllFull(box, failing, now, batch, passes) && IsFetch(box, failing, now, batch, passes, last) && |last| < batch
  }

  /** With few enough failing rows in every pass, every full pass gets something through. */
  lemma FewFailuresGetThrough(box: map<Id, OutboxRow>, failing: nat -> set<Id>, now: Time, batch: int)
    requires forall i :: |OpenRows(box) * failing(i)| < batch
    ensures EveryFullPassGetsThrough(box, failing, now, batch)
  {
    hide AllFull, OpenRows, GotThrough;
    forall passes: seq<seq<Id>>, chosen: seq<Id>
      | AllFull(box, failing, now, batch, passes) && IsFetch(box, failing, now, batch, passes, chosen) && |chosen| >= batch
      ensures GotThrough(chosen, failing(|passes|)) != []
    {
      FetchIsUnsent(box, failing, now, batch, passes, chosen);
      forall o | o in chosen && o in failing(|passes|) ensures o in OpenRows(box) * failing(|passes|) {
        assert o in Elements(chosen);
      }
      SomeGotThrough(chosen, OpenRows(box) * failing(|passes|), failing(|passes|));
    }
  }

  /** A full batch with fewer failing rows than its size gets something through. */
  lemma SomeGotThrough(chosen: seq<Id>, bad: set<Id>, failing: set<Id>)
    requires Distinct(chosen) && |bad| < |chosen| && forall o :: o in chosen && o in failing ==> o in bad
    ensures |GotThrough(chosen, failing)| > 0
  {
    GotThroughIds(chosen, failing);
    if GotThrough(chosen, failing) == [] {
      assert Elements(chosen) - failing == {};
      forall i | 0 <= i < |chosen| ensures chosen[i] in bad {
        assert chosen[i] in Elements(chosen) && chosen[i] !in Elements(chosen) - failing;
      }
      S.FitsIn(chosen, bad);
    }
  }

  /** A full pass that does not stall shrinks the open rows, so there are no more of them than open rows. */
  lemma {:induction false} FullPassesAreFew(box: map<Id, OutboxRow>, failing: nat -> set<Id>, now: Time, batch: int, passes: seq<seq<Id>>)
    requires batch > 0 && AllFull(box, failing, now, batch, passes)
    ensures IsSent(box, SentBy(passes, failing))
    ensures |passes| <= |SentBy(passes, failing)| + Stalled(passes, failing) <= |OpenRows(box)| + Stalled(passes, failing)
    decreases |passes|
  {
    hide OpenRows, IsFetch, GotThrough, IsSent;
    if passes == [] {
      NothingSent(box, map[], failing, now, batch);
    } else {
      var init, last := passes[..|passes| - 1], passes[|passes| - 1];
      FullPassesAreFew(box, failing, now, batch, init);
      assert passes == init + [last];
      PassFacts(box, failing, now, batch, init, last);
    }
  }

  lemma FullPassesAreBounded(box: map<Id, OutboxRow>, failing: nat -> set<Id>, now: Time, batch: int, patience: nat, passes: seq<seq<Id>>)
    requires batch > 0 && StallsAtMost(box, failing, now, batch, patience) && AllFull(box, failing, now, batch, passes)
    ensures IsSent(box, SentBy(passes, failing)) && |passes| <= |OpenRows(box)| + patience
  {
    hide OpenRows, AllFull, SentBy, Stalled;
    FullPassesAreFew(box, failing, now, batch, passes);
  }

  lemma {:induction false} NoStalls(box: map<Id, OutboxRow>, failing: nat -> set<Id>, now: Time, batch: int, passes: seq<seq<Id>>)
    requires EveryFullPassGetsThrough(box, failing, now, batch) && AllFull(box, failing, now, batch, passes)
    ensures Stalled(passes, failing) == 0
    decreases |passes|
  {
    hide IsFetch, GotThrough;
    if passes != [] {
      NoStalls(box, failing, now, batch, passes[..|passes| - 1]);
    }
  }

  /** Getting something through every time is stalling never. */
  lemma ProgressIsPatience(box: map<Id, OutboxRow>, failing: nat -> set<Id>, now: Time, batch: int)
    requires EveryFullPassGetsThrough(box, failing, now, batch)
    ensures StallsAtMost(box, failing, now, batch, 0)
  {
    hide AllFull, Stalled, EveryFullPassGetsThrough;
    forall passes | AllFull(box, failing, now, batch, passes) ensures Stalled(passes, failing) == 0 {
      NoStalls(box, failing, now, batch, passes);
    }
  }

  lemma {:induction false} StallsEarly(box: map<Id, OutboxRow>, failing: nat -> set<Id>, now: Time, batch: int, from: nat, passes: seq<seq<Id>>)
    requires batch > 0 && AllFull(box, failing, now, batch, passes)
    requires forall i :: i >= from ==> |OpenRows(box) * failing(i)| < batch
    ensures Stalled(passes, failing) <= from && Stalled(passes, failing) <= |passes|
    decreases |passes|
  {
    hide OpenRows, IsFetch, GotThrough;
    if passes != [] {
      var init, last := passes[..|passes| - 1], passes[|passes| - 1];
      StallsEarly(box, failing, now, batch, from, init);
      if |init| >= from {
        FetchIsUnsent(box, failing, now, batch, init, last);
        forall o | o in last && o in failing(|init|) ensures o in OpenRows(box) * failing(|init|) {
          assert o in Elements(last);
        }
        SomeGotThrough(last, OpenRows(box) * failing(|init|), failing(|init|));
      }
    }
  }

  /** An outage of any kind that ends: from some pass on fewer open rows fail than a batch holds. */
  lemma OutageEnds(box: map<Id, OutboxRow>, failing: nat -> set<Id>, now: Time, batch: int, from: nat)
    requires batch > 0 && forall i :: i >= from ==> |OpenRows(box) * failing(i)| < batch
    ensures StallsAtMost(box, failing, now, batch, from)
  {
    hide AllFull, Stalled, OpenRows;
    forall passes | AllFull(box, failing, now, batch, passes) ensures Stalled(passes, failing) <= from {
      StallsEarly(box, failing, now, batch, from, passes);
    }
  }

  lemma {:induction false} StallsAreFew(passes: seq<seq<Id>>, failing: nat -> set<Id>)
    ensures Stalled(passes, failing) <= |passes|
    decreases |passes|
  {
    if passes != [] {
      StallsAreFew(passes[..|passes| - 1], failing);
    }
  }

  ghost predicate PassesAtMost(box: map<Id, OutboxRow>, failing: nat -> set<Id>, now: Time, batch: int, n: nat)
  {
    forall passes :: AllFull(box, failing, now, batch, passes) ==> |passes| <= n
  }

  /** The executions of the loop are bounded if and only if their stalled full passes are. */
  lemma RelayBoundedIff(box: map<Id, OutboxRow>, failing: nat -> set<Id>, now: Time, batch: int)
    requires batch > 0
    ensures (exists n :: PassesAtMost(box, failing, now, batch, n)) <==> (exists p :: StallsAtMost(box, failing, now, batch, p))
  {
    hide AllFull, Stalled, OpenRows;
    if n: nat :| PassesAtMost(box, failing, now, batch, n) {
      forall passes | AllFull(box, failing, now, batch, passes) ensures Stalled(passes, failing) <= n {
        StallsAreFew(passes, failing);
      }
      assert StallsAtMost(box, failing, now, batch, n);
    }
    if p: nat :| StallsAtMost(box, failing, now, batch, p) {
      forall passes | AllFull(box, failing, now, batch, passes) ensures |passes| <= |OpenRows(box)| + p {
        FullPassesAreBounded(box, failing, now, batch, p, passes);
      }
      assert PassesAtMost(box, failing, now, batch, |OpenRows(box)| + p);
    }
  }

  /** A failing row that is open stays open, so with a batch of them or more every fetch is a full one. */
  lemma ManyFailuresFillBatches(box: map<Id, OutboxRow>, f: set<Id>, now: Time, batch: int, passes: seq<seq<Id>>, chosen: seq<Id>)
    requires |OpenRows(box) * f| >= batch && IsFetch(box, Always(f), now, batch, passes, chosen)
    ensures |chosen| >= batch
  {
    hide OpenRows, SentBy, IsFetch;
    FailingStayOut(passes, Always(f), f);
    FetchIsUnsent(box, Always(f), now, batch, passes, chosen);
    if |chosen| < batch {
      assert OpenRows(box) * f <= Elements(chosen);
      ElementsAreFew(chosen);
      Fewer(OpenRows(box) * f, Elements(chosen));
    }
  }

  lemma {:induction false} ElementsAreFew<T>(s: seq<T>)
    ensures |Elements(s)| <= |s|
  {
    if s != [] {
      ElementsAreFew(s[1..]);
      assert Elements(s) == Elements(s[1..]) + {s[0]};
    }
  }

  lemma Fewer<T>(a: set<T>, b: set<T>)
    requires a <= b
    ensures |a| <= |b|
  {
    assert b == a + (b - a);
  }

  /** The loop goes on as long as it gets full batches, and gets to the end of them. */
  lemma LoopReturns(box: map<Id, OutboxRow>, failing: nat -> set<Id>, now: Time, batch: int, patience: nat, passes: seq<seq<Id>>)
    requires batch > 0 && StallsAtMost(box, failing, now, batch, patience) && AllFull(box, failing, now, batch, passes)
    ensures CanReturn(box, failing, now, batch)
    decreases |OpenRows(box)| + patience - |passes|
  {
    hide OpenRows, StallsAtMost, GotThrough, AllFull;
    FullPassesAreBounded(box, failing, now, batch, patience, passes);
    var next := BoxAfter(box, failing, now, passes);
    OpenHaveTimes(next);
    var chosen := Pick(OpenRows(next), CreationTimes(next), batch);
    if |chosen| >= batch {
      OneMorePass(box, failing, now, batch, passes, chosen);
      FullPassesAreBounded(box, failing, now, batch, patience, passes + [chosen]);
      LoopReturns(box, failing, now, batch, patience, passes + [chosen]);
    }
  }

  lemma OpenHaveTimes(box: map<Id, OutboxRow>)
    ensures OpenRows(box) <= CreationTimes(box).Keys
  {
  }

  /**
   * Publishing that fails for fixed rows: some execution of the relay loop returns if and only if every one does, within as
   * many full passes as there are open rows, if and only if fewer of the open rows fail than a batch holds.
   */
  lemma RelayEndsIff(box: map<Id, OutboxRow>, f: set<Id>, now: Time, batch: int)
    requires batch > 0
    ensures CanReturn(box, Always(f), now, batch) <==> |OpenRows(box) * f| < batch
    ensures (forall passes :: AllFull(box, Always(f), now, batch, passes) ==> |passes| <= |OpenRows(box)|) <==> |OpenRows(box) * f| < batch
    ensures EveryFullPassGetsThrough(box, Always(f), now, batch) <==> |OpenRows(box) * f| < batch
  {
    hide OpenRows, SentBy, AllFull, IsFetch, EveryFullPassGetsThrough, Always, StallsAtMost, Stalled;
    AlwaysIs(f);
    if |OpenRows(box) * f| < batch {
      FewFailuresGetThrough(box, Always(f), now, batch);
      ProgressIsPatience(box, Always(f), now, batch);
      NothingSent(box, map[], Always(f), now, batch);
      LoopReturns(box, Always(f), now, batch, 0, []);
      forall passes | AllFull(box, Always(f), now, batch, passes) ensures |passes| <= |OpenRows(box)| {
        FullPassesAreBounded(box, Always(f), now, batch, 0, passes);
      }
    } else {
      forall passes, last | AllFull(box, Always(f), now, batch, passes) && IsFetch(box, Always(f), now, batch, passes, last)
        ensures |last| >= batch
      {
        ManyFailuresFillBatches(box, f, now, batch, passes, last);
      }
      var passes := EndlessRun(box, f, now, batch, |OpenRows(box)| + 1);
      if EveryFullPassGetsThrough(box, Always(f), now, batch) {
        ProgressIsPatience(box, Always(f), now, batch);
        FullPassesAreBounded(box, Always(f), now, batch, 0, passes);
      }
    }
  }

  lemma AlwaysIs(f: set<Id>)
    ensures forall i :: Always(f)(i) == f
  {
  }

  /** With a batch of failing rows or more there are executions of any length. */
  lemma {:induction false} EndlessRun(box: map<Id, OutboxRow>, f: set<Id>, now: Time, batch: int, n: nat) returns (passes: seq<seq<Id>>)
    requires batch > 0 && |OpenRows(box) * f| >= batch
    ensures AllFull(box, Always(f), now, batch, passes) && |passes| == n
  {
    hide OpenRows, SentBy, AllFull, GotThrough, Always;
    if n == 0 {
      NothingSent(box, map[], Always(f), now, batch);
      return [];
    }
    var init := EndlessRun(box, f, now, batch, n - 1);
    var next := BoxAfter(box, Always(f), now, init);
    OpenHaveTimes(next);
    var chosen := Pick(OpenRows(next), CreationTimes(next), batch);
    ManyFailuresFillBatches(box, f, now, batch, init, chosen);
    OneMorePass(box, Always(f), now, batch, init, chosen);
    passes := init + [chosen];
  }

  lemma NoIds(ids: seq<Id>)
    ensures Elements(ids) == {} <==> ids == []
  {
    if ids != [] {
      assert ids[0] in Elements(ids);
    }
  }

  /** A full batch in which nothing gets through changes nothing. */
  lemma PassStallsIff(box: map<Id, OutboxRow>, streams: map<Stream, seq<Message>>, chosen: seq<Id>, failing: set<Id>, now: Time)
    requires Distinct(chosen) && forall o :: o in chosen ==> o in OpenRows(box)
    ensures var got := GotThrough(chosen, failing);
            (MarkPublished(box, Elements(got), now) == box && AppendAll(streams, box, got) == streams) <==> forall o :: o in chosen ==> o in failing
  {
    GotThroughIds(chosen, failing);
    var got := GotThrough(chosen, failing);
    if forall o :: o in chosen ==> o in failing {
      assert Elements(got) == {};
      NoIds(got);
      NothingMarked(box, now);
    } else {
      var o :| o in chosen && o !in failing;
      assert o in Elements(got) && MarkPublished(box, Elements(got), now)[o].publishedAt == Some(now);
      assert box[o].publishedAt.None?;
    }
  }

  /** With a batch size of zero the drain loop takes nothing and never sees a short batch. */
  lemma ZeroBatchNeverEnds(db: DB, job: Job, chosen: seq<Key>, ids: seq<Id>, now: Time, after: Duration)
    requires !job.ReconcileJob? && |ids| == |chosen|
    requires Picked(Due(db, job, now, after), Ranks(db.deliveries, job), 0, chosen)
    ensures RunJob(db, job, chosen, ids, now) == db && !(|chosen| < 0)
  {
    assert chosen == [];
    assert ApplyMoves(db.deliveries, JobMoves(job, [], now)) == db.deliveries;
  }

  lemma {:induction false} RoomLeft(due: set<Key>, moved: seq<Key>, room: nat)
    requires Distinct(moved) && |due| <= room && forall i :: 0 <= i < |moved| ==> moved[i] in due
    ensures |due - (set k | k in moved)| <= room - |moved|
    decreases |moved|
  {
    if moved == [] {
      assert due - (set k | k in moved) == due;
    } else {
      var last, init := moved[|moved| - 1], moved[..|moved| - 1];
      RoomLeft(due, init, room);
      assert moved == init + [last];
      var left := due - (set k | k in init);
      assert last in left;
      assert due - (set k | k in moved) == left - {last};
    }
  }
}
