/** The application service: create with an idempotency key, cancel by the owner (internal/notification). */
module Notification {
  import opened Domain
  import opened Database
  import opened Lifecycle
  import opened Integrity
  import S = Store
  import Tpl = Template

  // ---- Building rows ----

  /** A validated create input; its template is as the template table answers. */
  datatype Draft = Draft(
    userId: string, idemKey: Option<string>, channel: Channel, priority: Priority, sendAt: Option<Time>,
    template: Option<TemplateUse>)

  datatype TemplateUse = TemplateUse(stored: Option<Tpl.Template>, variables: map<string, string>)

  /** The identifiers and the instant drawn while building. */
  datatype Drawn = Drawn(requestId: Id, deliveryId: Id, outboxId: Id, at: Time)

  datatype ServiceError = NotRendered(render: Tpl.RenderError) | NotStored(store: S.StoreError)

  function ItemOf(d: Draft, x: Drawn): NewItem
  {
    NewItem(x.requestId, Key(x.deliveryId, x.at), x.outboxId, d.userId, d.idemKey, d.channel, d.priority, d.sendAt)
  }

  /** The template, if one is named, exists, fits the channel, and has its variables. */
  predicate Renders(d: Draft)
  {
    d.template.Some? ==>
      && d.template.value.stored.Some?
      && var t := d.template.value.stored.value;
         t.channel == d.channel && forall key :: key in t.required ==> !Tpl.IsMissing(key, d.template.value.variables)
  }

  // ---- The service on its own ----

  datatype CreateResult = CreateResult(requestId: Id, request: Request, duplicate: bool)

  datatype BatchCreateResult = BatchCreateResult(batchId: Id, batch: Batch, duplicate: bool, created: nat, duplicates: nat)

  /** A batch another caller commits between the check and the insert. */
  datatype Rival = Rival(batchId: Id, userId: string, idemKey: Option<string>, items: seq<NewItem>)

  class Service {
    const store: S.Store

    constructor (store: S.Store)
      ensures this.store == store
    {
      this.store := store;
    }

    method FindByKey(userId: string, idemKey: Option<string>) returns (found: Option<Id>)
      requires idemKey.Some?
      ensures found.None? <==> !Conflicts(store.requests, userId, idemKey)
      ensures found.Some? ==> HoldsKey(store.requests, found.value, userId, idemKey)
    {
      var holders := set r | r in store.requests && store.requests[r].userId == userId && store.requests[r].idemKey == idemKey;
      if holders == {} {
        assert forall r :: r in store.requests && store.requests[r].userId == userId && store.requests[r].idemKey == idemKey ==> r in holders;
        return None;
      }
      var r :| r in holders;
      return Some(r);
    }

    method FindBatchByKey(userId: string, idemKey: Option<string>) returns (found: Option<Id>)
      requires idemKey.Some?
      ensures found.None? <==> !BatchConflicts(store.batches, userId, idemKey)
      ensures found.Some? ==> HoldsBatchKey(store.batches, found.value, userId, idemKey)
    {
      var holders := set b | b in store.batches && store.batches[b].userId == userId && store.batches[b].idemKey == idemKey;
      if holders == {} {
        assert forall b :: b in store.batches && store.batches[b].userId == userId && store.batches[b].idemKey == idemKey ==> b in holders;
        return None;
      }
      var b :| b in holders;
      return Some(b);
    }

    method Build(d: Draft, x: Drawn) returns (r: Result<NewItem, ServiceError>)
      ensures r.Ok? <==> Renders(d)
      ensures r.Ok? ==> r.value == ItemOf(d, x)
      ensures r.Err? ==> r.error.NotRendered?
    {
      if d.template.Some? {
        var rendered := Tpl.Render(d.template.value.stored, d.channel, d.template.value.variables);
        if rendered.Err? {
          return Err(NotRendered(rendered.error));
        }
      }
      return Ok(ItemOf(d, x));
    }

    /**
     * A replay returns the stored notification and writes nothing; anything else is stored as built. `rival` is what
     * another writer commits between the check and the insert, if anything; a lost race returns the winner.
     */
    method Create(draft: Draft, x: Drawn, at: Time, rival: Option<NewItem>) returns (r: Result<CreateResult, ServiceError>)
      modifies store
      ensures var before, item := old(store.Rows()), ItemOf(draft, x);
              if Conflicts(before.requests, item.userId, item.idemKey) then r.Ok? && r.value.duplicate && store.Rows() == before
              else if !Renders(draft) then r.Err? && store.Rows() == before
              else
                var raced := if rival.Some? then Settle(before, rival.value, at).0 else before;
                && r.Ok? && (r.value.requestId == item.requestId || r.value.duplicate)
                && store.Rows() == Settle(raced, item, at).0 && r.value.duplicate == Settle(raced, item, at).1
      ensures r.Ok? ==> r.value.requestId in store.requests && r.value.request == store.requests[r.value.requestId]
      ensures r.Ok? && r.value.duplicate ==> HoldsKey(store.requests, r.value.requestId, draft.userId, draft.idemKey)
      ensures r.Ok? && !r.value.duplicate ==> r.value.requestId == x.requestId
      ensures r.Ok? && !r.value.duplicate ==>
                HasRows(store.Rows(),
                        NewItem(requestId := x.requestId, key := Key(id := x.deliveryId, createdAt := x.at), outboxId := x.outboxId,
                                userId := draft.userId, idemKey := draft.idemKey, channel := draft.channel,
                                priority := draft.priority, sendAt := draft.sendAt), None, at)
    {
      if draft.idemKey.Some? {
        var existing := FindByKey(draft.userId, draft.idemKey);
        if existing.Some? {
          return Ok(CreateResult(existing.value, store.requests[existing.value], true));
        }
      }
      var built := Build(draft, x);
      if built.Err? {
        return Err(built.error);
      }
      var item := built.value;
      if rival.Some? {
        var _ := store.CreateNotification(rival.value, at);
      }
      var stored := store.CreateNotification(item, at);
      if stored.Err? {
        var existing := FindByKey(item.userId, item.idemKey);
        return Ok(CreateResult(existing.value, store.requests[existing.value], true));
      }
      return Ok(CreateResult(item.requestId, BuildRequest(item, None), false));
    }

    /**
     * The same for a batch under one key: a replay or a lost race returns the stored batch; a draft that does not render,
     * or a database failure at item `failAt`, stores nothing; otherwise every draft is stored or counted as a duplicate.
     */
    method CreateBatch(
        userId: string, idemKey: Option<string>, drafts: seq<Draft>, batchId: Id, draws: seq<Drawn>, at: Time,
        rival: Option<Rival>, failAt: Option<nat>)
      returns (r: Result<BatchCreateResult, ServiceError>)
      requires |draws| == |drafts| && batchId !in store.batches
      requires rival.Some? ==> rival.value.batchId !in store.batches && rival.value.batchId != batchId
      modifies store
      ensures var before := old(store.Rows());
              if BatchConflicts(before.batches, userId, idemKey) then r.Ok? && r.value.duplicate && store.Rows() == before
              else if !RenderAll(userId, drafts) then r.Err? && r.error.NotRendered? && store.Rows() == before
              else
                var raced := if rival.Some? then Yield(before, rival.value, at) else before;
                if BatchConflicts(raced.batches, userId, idemKey) then r.Ok? && r.value.duplicate && store.Rows() == raced
                else if failAt.Some? && failAt.value < |drafts| then r == Err(NotStored(S.Failure)) && store.Rows() == raced
                else
                  && r.Ok? && !r.value.duplicate && r.value.batchId == batchId
                  && store.Rows() == Database.CreateBatch(raced, batchId, userId, idemKey, ItemsOf(userId, drafts, draws), at)
                  && r.value.created == r.value.batch.total && r.value.created + r.value.duplicates == |drafts|
      ensures r.Ok? ==> HoldsBatchKey(store.batches, r.value.batchId, userId, idemKey) && r.value.batch == store.batches[r.value.batchId]
    {
      if idemKey.Some? {
        var existing := FindBatchByKey(userId, idemKey);
        if existing.Some? {
          return Ok(BatchCreateResult(existing.value, store.batches[existing.value], true, 0, 0));
        }
      }
      var items: seq<NewItem> := [];
      var i := 0;
      while i < |drafts|
        invariant 0 <= i <= |drafts| && |items| == i && store.Rows() == old(store.Rows())
        invariant forall j :: 0 <= j < i ==> Renders(drafts[j].(userId := userId))
        invariant forall j :: 0 <= j < i ==> items[j] == ItemOf(drafts[j].(userId := userId), draws[j])
      {
        var built := Build(drafts[i].(userId := userId), draws[i]);
        if built.Err? {
          return Err(built.error);
        }
        items := items + [built.value];
        i := i + 1;
      }
      assert items == ItemsOf(userId, drafts, draws);
      if rival.Some? {
        YieldAddsOneBatch(store.Rows(), rival.value, at);
        var _ := store.CreateBatch(rival.value.batchId, rival.value.userId, rival.value.idemKey, rival.value.items, at, None);
      }
      YieldAddsOneBatch(store.Rows(), Rival(batchId, userId, idemKey, items), at);
      var stored := store.CreateBatch(batchId, userId, idemKey, items, at, failAt);
      if stored.Err? {
        if stored.error.Conflict? {
          var existing := FindBatchByKey(userId, idemKey);
          return Ok(BatchCreateResult(existing.value, store.batches[existing.value], true, 0, 0));
        }
        return Err(NotStored(stored.error));
      }
      return Ok(BatchCreateResult(batchId, store.batches[batchId], false, stored.value.0, stored.value.1));
    }

    /** Another user's notification looks absent, and stays as it is. */
    method Cancel(userId: string, id: Id, at: Time) returns (r: Result<Request, S.StoreError>)
      modifies store
      ensures r == Err(S.NotFound) <==> id !in old(store.requests) || old(store.requests)[id].userId != userId
      ensures r.Err? ==> store.Rows() == old(store.Rows())
      ensures r.Ok? ==>
                && id in store.requests && r.value == store.requests[id]
                && store.Rows() == Recompute(old(store.Rows()).(deliveries := ApplyMoves(old(store.deliveries),
                                               (map k | k in Cancellable(old(store.deliveries), id) :: Database.Cancel(at)))), id)
    {
      if id !in store.requests || store.requests[id].userId != userId {
        return Err(S.NotFound);
      }
      r := store.CancelRequest(id, at);
    }
  }

  /** What one create transaction leaves, and whether the unique index rejected it. */
  ghost function Settle(db: DB, item: NewItem, at: Time): (DB, bool)
  {
    if Conflicts(db.requests, item.userId, item.idemKey) then (db, true) else (Insert(db, item, None, at), false)
  }

  predicate RenderAll(userId: string, drafts: seq<Draft>)
  {
    forall i :: 0 <= i < |drafts| ==> Renders(drafts[i].(userId := userId))
  }

  /** Batch items belong to the batch's user, whatever they say. */
  function ItemsOf(userId: string, drafts: seq<Draft>, draws: seq<Drawn>): (items: seq<NewItem>)
    requires |draws| == |drafts|
    ensures |items| == |drafts|
    ensures forall i :: 0 <= i < |items| ==>
                          items[i] ==
                          NewItem(requestId := draws[i].requestId, key := Key(id := draws[i].deliveryId, createdAt := draws[i].at),
                                  outboxId := draws[i].outboxId, userId := userId, idemKey := drafts[i].idemKey,
                                  channel := drafts[i].channel, priority := drafts[i].priority, sendAt := drafts[i].sendAt)
  {
    seq(|drafts|, i requires 0 <= i < |drafts| => ItemOf(drafts[i].(userId := userId), draws[i]))
  }

  /** What a rival batch leaves. */
  ghost function Yield(db: DB, rival: Rival, at: Time): DB
  {
    if BatchConflicts(db.batches, rival.userId, rival.idemKey) then db
    else Database.CreateBatch(db, rival.batchId, rival.userId, rival.idemKey, rival.items, at)
  }

  lemma YieldAddsOneBatch(db: DB, rival: Rival, at: Time)
    ensures var next := Database.CreateBatch(db, rival.batchId, rival.userId, rival.idemKey, rival.items, at);
            && next.batches.Keys == db.batches.Keys + {rival.batchId}
            && next.batches[rival.batchId].userId == rival.userId && next.batches[rival.batchId].idemKey == rival.idemKey
  {
    var empty := db.(batches := db.batches[rival.batchId := Batch(rival.userId, rival.idemKey, 0, 0, 0, 0, 0)]);
    InsertAllKeepsBatches(empty, rival.items, rival.batchId, at);
  }

  predicate HoldsBatchKey(batches: map<Id, Batch>, b: Id, userId: string, idemKey: Option<string>)
  {
    b in batches && batches[b].userId == userId && batches[b].idemKey == idemKey
  }

  predicate HoldsKey(requests: map<Id, Request>, r: Id, userId: string, idemKey: Option<string>)
  {
    r in requests && requests[r].userId == userId && requests[r].idemKey == idemKey
  }

  // ---- Any number of callers at once ----

  /** How far a caller of Create has got; a caller whose insert committed without an answer is Broken too. */
  datatype Phase = Started | Unseen | Lost | Done(requestId: Id, duplicate: bool) | Broken

  datatype Caller = Caller(item: NewItem, phase: Phase)

  /** Who stored a request. No step reads it. */
  datatype Origin = Elsewhere | ByCaller(caller: Id) | Unanswered(caller: Id)

  datatype Desk = Desk(requests: map<Id, Request>, callers: map<Id, Caller>, origin: map<Id, Origin>)

  datatype Step =
    | Call(c: Id, item: NewItem)
    | Check(c: Id, found: Option<Id>)
    | InsertRow(c: Id, answered: bool)
    | Conflicted(c: Id)
    | Resolve(c: Id, holder: Id)
    | Abort(c: Id)
    // another writer, such as a batch, stores a request
    | Foreign(item: NewItem)

  predicate IsNew(d: Desk, item: NewItem)
  {
    item.requestId !in d.requests && forall c :: c in d.callers ==> d.callers[c].item.requestId != item.requestId
  }

  ghost predicate CanStep(d: Desk, st: Step)
  {
    match st
    case Call(c, item) => c !in d.callers && IsNew(d, item)
    case Check(c, found) =>
      && c in d.callers && d.callers[c].phase.Started?
      && var i := d.callers[c].item;
         if found.Some? then i.idemKey.Some? && HoldsKey(d.requests, found.value, i.userId, i.idemKey)
         else !Conflicts(d.requests, i.userId, i.idemKey)
    case InsertRow(c, answered) =>
      && c in d.callers && d.callers[c].phase.Unseen?
      && !Conflicts(d.requests, d.callers[c].item.userId, d.callers[c].item.idemKey)
    case Conflicted(c) =>
      && c in d.callers && d.callers[c].phase.Unseen?
      && Conflicts(d.requests, d.callers[c].item.userId, d.callers[c].item.idemKey)
    case Resolve(c, holder) =>
      && c in d.callers && d.callers[c].phase.Lost?
      && HoldsKey(d.requests, holder, d.callers[c].item.userId, d.callers[c].item.idemKey)
    case Abort(c) => c in d.callers && !d.callers[c].phase.Done?
    case Foreign(item) => IsNew(d, item) && !Conflicts(d.requests, item.userId, item.idemKey)
  }

  function SetPhase(d: Desk, c: Id, p: Phase): map<Id, Caller>
    requires c in d.callers
  {
    d.callers[c := d.callers[c].(phase := p)]
  }

  ghost function After(d: Desk, st: Step): Desk
    requires CanStep(d, st)
  {
    match st
    case Call(c, item) => d.(callers := d.callers[c := Caller(item, Started)])
    case Check(c, found) => d.(callers := SetPhase(d, c, if found.Some? then Done(found.value, true) else Unseen))
    case InsertRow(c, answered) =>
      var i := d.callers[c].item;
      Desk(d.requests[i.requestId := BuildRequest(i, None)],
           SetPhase(d, c, if answered then Done(i.requestId, false) else Broken),
           d.origin[i.requestId := if answered then ByCaller(c) else Unanswered(c)])
    case Conflicted(c) => d.(callers := SetPhase(d, c, Lost))
    case Resolve(c, holder) => d.(callers := SetPhase(d, c, Done(holder, true)))
    case Abort(c) => d.(callers := SetPhase(d, c, Broken))
    case Foreign(item) =>
      d.(requests := d.requests[item.requestId := BuildRequest(item, None)], origin := d.origin[item.requestId := Elsewhere])
  }

  ghost predicate DeskRun(d: Desk, sts: seq<Step>, e: Desk)
    decreases |sts|
  {
    if sts == [] then e == d else CanStep(d, sts[0]) && DeskRun(After(d, sts[0]), sts[1..], e)
  }

  ghost predicate CallerOk(d: Desk, c: Id)
    requires c in d.callers
  {
    var x := d.callers[c];
    match x.phase
    case Done(r, duplicate) =>
      && HoldsKey(d.requests, r, x.item.userId, x.item.idemKey)
      && (if duplicate then x.item.idemKey.Some? else r == x.item.requestId && r in d.origin && d.origin[r] == ByCaller(c))
    case Lost => x.item.requestId !in d.requests && Conflicts(d.requests, x.item.userId, x.item.idemKey)
    case Broken => true
    case _ => x.item.requestId !in d.requests
  }

  ghost predicate DeskOk(d: Desk)
  {
    && UniqueKeys(d.requests)
    && (forall c :: c in d.callers ==> CallerOk(d, c))
    && (forall c, e :: c in d.callers && e in d.callers && c != e ==> d.callers[c].item.requestId != d.callers[e].item.requestId)
    && (forall r :: r in d.requests && r in d.origin && d.origin[r].ByCaller? ==>
                      d.origin[r].caller in d.callers && d.callers[d.origin[r].caller].phase == Done(r, false))
  }

  /** Requests are only added, so a key that is taken stays taken. */
  lemma TakenStaysTaken(d: Desk, st: Step, userId: string, idemKey: Option<string>)
    requires DeskOk(d) && CanStep(d, st) && Conflicts(d.requests, userId, idemKey)
    ensures Conflicts(After(d, st).requests, userId, idemKey)
  {
    hide UniqueKeys;
    var r :| r in d.requests && d.requests[r].userId == userId && d.requests[r].idemKey == idemKey;
    if st.InsertRow? {
      assert CallerOk(d, st.c);
    }
    assert r in After(d, st).requests && After(d, st).requests[r] == d.requests[r];
  }

  lemma StepKeepsCaller(d: Desk, st: Step, c: Id)
    requires DeskOk(d) && CanStep(d, st) && c in After(d, st).callers
    ensures CallerOk(After(d, st), c)
  {
    hide UniqueKeys;
    if c in d.callers {
      assert CallerOk(d, c);
      if d.callers[c].phase.Lost? {
        TakenStaysTaken(d, st, d.callers[c].item.userId, d.callers[c].item.idemKey);
      }
    }
  }

  lemma StepKeepsDesk(d: Desk, st: Step)
    requires DeskOk(d) && CanStep(d, st)
    ensures DeskOk(After(d, st))
  {
    hide UniqueKeys, Conflicts;
    var e := After(d, st);
    if st.InsertRow? {
      assert CallerOk(d, st.c);
      InsertKeepsKeysUnique(d.requests, d.callers[st.c].item, None);
    } else if st.Foreign? {
      InsertKeepsKeysUnique(d.requests, st.item, None);
    }
    forall c | c in e.callers ensures CallerOk(e, c) {
      StepKeepsCaller(d, st, c);
    }
  }

  lemma {:induction false} RunKeepsDesk(d: Desk, sts: seq<Step>, e: Desk)
    requires DeskOk(d) && DeskRun(d, sts, e)
    ensures DeskOk(e)
    decreases |sts|
  {
    if sts != [] {
      StepKeepsDesk(d, sts[0]);
      RunKeepsDesk(After(d, sts[0]), sts[1..], e);
    }
  }

  /** A caller that lost the race always finds the winner: the not-found answer after a conflict cannot occur. */
  lemma LostCallerResolves(d: Desk, sts: seq<Step>, e: Desk, c: Id) returns (holder: Id)
    requires DeskOk(d) && DeskRun(d, sts, e) && c in e.callers && e.callers[c].phase.Lost?
    ensures CanStep(e, Resolve(c, holder))
    ensures forall q :: HoldsKey(e.requests, q, e.callers[c].item.userId, e.callers[c].item.idemKey) <==> q == holder
  {
    RunKeepsDesk(d, sts, e);
    assert CallerOk(e, c);
    var i := e.callers[c].item;
    holder :| holder in e.requests && e.requests[holder].userId == i.userId && e.requests[holder].idemKey == i.idemKey;
    assert forall q :: HoldsKey(e.requests, q, i.userId, i.idemKey) ==> SameKey(e.requests[q], e.requests[holder]);
  }

  /** The callers that were told they created the request with this key. */
  function Creators(d: Desk, userId: string, idemKey: Option<string>): set<Id>
  {
    set c | c in d.callers && d.callers[c].item.userId == userId && d.callers[c].item.idemKey == idemKey
            && d.callers[c].phase.Done? && !d.callers[c].phase.duplicate
  }

  /**
   * Idempotent create, for any interleaving: callers with one key end with one request, at most one of them created it,
   * and exactly one did if and only if the row came from a caller that got its answer.
   */
  lemma CreateIsIdempotent(d: Desk, sts: seq<Step>, e: Desk, a: Id, b: Id)
    requires DeskOk(d) && DeskRun(d, sts, e)
    requires a in e.callers && e.callers[a].phase.Done? && e.callers[a].item.idemKey.Some?
    requires b in e.callers && e.callers[b].phase.Done?
    requires e.callers[b].item.userId == e.callers[a].item.userId && e.callers[b].item.idemKey == e.callers[a].item.idemKey
    ensures var r := e.callers[a].phase.requestId;
            var creators := Creators(e, e.callers[a].item.userId, e.callers[a].item.idemKey);
            && e.callers[b].phase.requestId == r
            && (forall q :: HoldsKey(e.requests, q, e.callers[a].item.userId, e.callers[a].item.idemKey) <==> q == r)
            && |creators| <= 1
            && (|creators| == 1 <==> r in e.origin && e.origin[r].ByCaller?)
  {
    RunKeepsDesk(d, sts, e);
    assert CallerOk(e, a) && CallerOk(e, b);
    var r := e.callers[a].phase.requestId;
    var creators := Creators(e, e.callers[a].item.userId, e.callers[a].item.idemKey);
    assert forall q :: HoldsKey(e.requests, q, e.callers[a].item.userId, e.callers[a].item.idemKey) ==> SameKey(e.requests[q], e.requests[r]);
    forall c | c in creators ensures r in e.origin && e.origin[r] == ByCaller(c) {
      assert CallerOk(e, c);
    }
    if r in e.origin && e.origin[r].ByCaller? {
      assert creators == {e.origin[r].caller};
    } else {
      assert creators == {};
    }
  }
}
