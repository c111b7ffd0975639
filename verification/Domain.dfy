/** Statuses, routing and the derived request status (internal/domain). */
module Domain {

  type Id = nat
  type Time = int       // an instant, in nanoseconds
  type Duration = int   // in nanoseconds; may be negative, as time.Duration may

  datatype Option<+T> = None | Some(value: T)

  datatype Result<+T, +E> = Ok(value: T) | Err(error: E)

  datatype Channel = Sms | Email | Push

  datatype Priority = High | Normal | Low

  /** One Redis stream per (priority, channel) pair. */
  datatype Stream = Stream(priority: Priority, channel: Channel)

  datatype DeliveryStatus = Scheduled | Pending | Processing | Retrying | Sent | Failed | Cancelled
  {
    predicate IsTerminal() { Sent? || Failed? || Cancelled? }

    /** The statuses a claim accepts. */
    predicate IsClaimable() { Pending? || Retrying? }

    /** The statuses a cancel accepts. */
    predicate IsCancellable() { Scheduled? || Pending? || Retrying? }
  }

  datatype RequestStatus = RequestPending | RequestPartial | RequestSent | RequestFailed | RequestCancelled

  /** The documented aggregation rules, on the set of statuses that occur. */
  function Aggregate(present: set<DeliveryStatus>): (r: RequestStatus)
  {
    if present == {} || exists s :: s in present && !s.IsTerminal() then RequestPending
    else if present == {Sent} then RequestSent
    else if present == {Cancelled} then RequestCancelled
    else if Sent !in present then RequestFailed
    else RequestPartial
  }

  function Elements<T(==)>(s: seq<T>): set<T>
  {
    set x | x in s
  }

  /** The counting loop computes the rules. */
  method AggregateRequestStatus(deliveries: seq<DeliveryStatus>) returns (r: RequestStatus)
    ensures r == Aggregate(Elements(deliveries))
  {
    if |deliveries| == 0 {
      return RequestPending;
    }
    var sent, failed, cancelled := 0, 0, 0;
    for i := 0 to |deliveries|
      invariant forall j :: 0 <= j < i ==> deliveries[j].IsTerminal()
      invariant 0 <= sent && 0 <= failed && 0 <= cancelled && sent + failed + cancelled == i
      invariant sent > 0 <==> Sent in Elements(deliveries[..i])
      invariant failed > 0 <==> Failed in Elements(deliveries[..i])
      invariant cancelled > 0 <==> Cancelled in Elements(deliveries[..i])
    {
      if !deliveries[i].IsTerminal() {
        assert deliveries[i] in Elements(deliveries);
        return RequestPending;
      }
      match deliveries[i] {
        case Sent => sent := sent + 1;
        case Failed => failed := failed + 1;
        case Cancelled => cancelled := cancelled + 1;
        case _ =>
      }
      assert deliveries[..i + 1] == deliveries[..i] + [deliveries[i]];
      assert Elements(deliveries[..i + 1]) == Elements(deliveries[..i]) + {deliveries[i]};
    }
    var total := |deliveries|;
    assert deliveries[..total] == deliveries;
    assert deliveries[0] in Elements(deliveries);
    assert forall s :: s in Elements(deliveries) ==> s.IsTerminal();
    assert Elements(deliveries) == {Sent} <==> Failed !in Elements(deliveries) && Cancelled !in Elements(deliveries);
    assert Elements(deliveries) == {Cancelled} <==> Failed !in Elements(deliveries) && Sent !in Elements(deliveries);
    if sent == total {
      return RequestSent;
    } else if cancelled == total {
      return RequestCancelled;
    } else if sent == 0 && failed > 0 {
      return RequestFailed;
    }
    return RequestPartial;
  }

  /** The result in counts: it depends on the multiset of statuses only. */
  lemma AggregateByCounts(deliveries: seq<DeliveryStatus>)
    ensures var m := multiset(deliveries);
            var r := Aggregate(Elements(deliveries));
            var open := m[Scheduled] + m[Pending] + m[Processing] + m[Retrying] > 0;
            && (r == RequestPending <==> |m| == 0 || open)
            && (r == RequestSent <==> !open && 0 < m[Sent] == |m|)
            && (r == RequestCancelled <==> !open && 0 < m[Cancelled] == |m|)
            && (r == RequestFailed <==> !open && m[Sent] == 0 && 0 < m[Failed])
            && (r == RequestPartial <==> !open && 0 < m[Sent] < |m|)
  {
    var m := multiset(deliveries);
    assert forall s :: s in m <==> s in Elements(deliveries);
    assert m[Scheduled] + m[Pending] + m[Processing] + m[Retrying] > 0 <==> exists s :: s in m && !s.IsTerminal();
    Uniform(deliveries, Sent);
    Uniform(deliveries, Cancelled);
  }

  /** A status fills the whole sequence exactly when it is the only one present. */
  lemma {:induction false} Uniform(deliveries: seq<DeliveryStatus>, s: DeliveryStatus)
    ensures multiset(deliveries)[s] <= |deliveries|
    ensures multiset(deliveries)[s] == |deliveries| <==> Elements(deliveries) <= {s}
  {
    if deliveries != [] {
      Uniform(deliveries[1..], s);
      assert deliveries == [deliveries[0]] + deliveries[1..];
      assert Elements(deliveries) == {deliveries[0]} + Elements(deliveries[1..]);
    }
  }

  /** Replacing one non-terminal status by another never changes the result. */
  lemma AggregateIgnoresPhase(rest: set<DeliveryStatus>, a: DeliveryStatus, b: DeliveryStatus)
    requires !a.IsTerminal() && !b.IsTerminal()
    ensures Aggregate(rest + {a}) == Aggregate(rest + {b})
  {
    assert a in rest + {a} && b in rest + {b};
  }
}
