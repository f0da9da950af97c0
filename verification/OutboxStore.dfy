/** The in-memory outbox and the dispatcher as objects that update in place. */
module OutboxStore {
  import opened Common
  import opened Outbox

  /** Where the insertion point is. */
  lemma InsertedIsSorted(events: map<EventId, Event>, order: seq<EventId>, i: nat, e: EventId)
    requires Sorted(events, order) && e in events && e !in order && i <= |order|
    requires forall j | 0 <= j < i :: Before(events, order[j], e)
    requires i < |order| ==> !Before(events, order[i], e)
    ensures Sorted(events, order[..i] + [e] + order[i..])
  {
    forall j | i <= j < |order| ensures Before(events, e, order[j]) {
      assert order[i] != e && (j > i ==> Before(events, order[i], order[j]));
    }
    hide Before;
  }

  /** Insert one id into a sorted sequence. */
  method InsertSorted(events: map<EventId, Event>, order: seq<EventId>, e: EventId) returns (longer: seq<EventId>)
    requires Sorted(events, order) && e in events && e !in order
    ensures Sorted(events, longer) && forall x :: x in longer <==> x in order || x == e
  {
    var i := 0;
    while i < |order| && Before(events, order[i], e)
      invariant 0 <= i <= |order|
      invariant forall j | 0 <= j < i :: Before(events, order[j], e)
    {
      i := i + 1;
    }
    longer := order[..i] + [e] + order[i..];
    assert order == order[..i] + order[i..];
    InsertedIsSorted(events, order, i, e);
    hide Sorted, Before;
  }

  method SortedIds(events: map<EventId, Event>, ids: set<EventId>) returns (order: seq<EventId>)
    requires ids <= events.Keys
    ensures Sorted(events, order) && forall e :: e in order <==> e in ids
  {
    order := [];
    var rest := ids;
    while rest != {}
      invariant rest <= ids && Sorted(events, order) && forall e :: e in order <==> e in ids && e !in rest
      decreases rest
    {
      var e :| e in rest;
      order := InsertSorted(events, order, e);
      rest := rest - {e};
    }
  }

  function Chosen(deliveries: seq<EventId>): set<EventId> { set e | e in deliveries }

  /** The eligible ones among the first `i` ids are selected. */
  ghost predicate Picked(order: seq<EventId>, i: nat, eligible: set<EventId>, selected: seq<EventId>) {
    i <= |order| && forall e :: e in selected <==> e in order[..i] && e in eligible
  }

  /** The next pending id extends the selection in order, or is passed over. */
  lemma TakeNext(events: map<EventId, Event>, order: seq<EventId>, i: nat, selected: seq<EventId>,
                 eligible: set<EventId>)
    requires Sorted(events, order) && i < |order| && Sorted(events, selected)
    requires Picked(order, i, eligible, selected)
    ensures order[i] !in selected && Sorted(events, selected + [order[i]])
    ensures Picked(order, i + 1, eligible, if order[i] in eligible then selected + [order[i]] else selected)
  {
    assert order[..i + 1] == order[..i] + [order[i]];
    forall e | e in selected ensures Before(events, e, order[i]) {
      var j :| 0 <= j < i && order[j] == e;
    }
  }

  lemma DeliveriesGrow(s: Store, selected: seq<EventId>, e: EventId, worker: Worker, seconds: nat, now: Time)
    requires e !in selected
    ensures var leases := s.leases + Deliveries(s, Chosen(selected), worker, seconds, now);
            && (e in leases <==> e in s.leases) && (e in leases ==> leases[e] == s.leases[e])
            && s.leases + Deliveries(s, Chosen(selected + [e]), worker, seconds, now)
               == leases[e := NextDelivery(s, e, worker, seconds, now)]
  {
    assert Chosen(selected + [e]) == Chosen(selected) + {e};
  }

  lemma NothingClaimed(s: Store, now: Time, order: seq<EventId>, worker: Worker, seconds: nat)
    requires forall e :: e in order <==> e in s.entries && !s.entries[e].published
    ensures forall e :: e in Eligible(s, now) <==> e in order && !(e in s.leases && s.leases[e].until > now)
    ensures s.leases == s.leases + Deliveries(s, Chosen([]), worker, seconds, now)
  {}

  class OutboxStore {
    var entries: map<EventId, Entry>
    var leases: map<EventId, Delivery>

    constructor ()
      ensures Value() == Store(map[], map[])
    {
      entries, leases := map[], map[];
    }

    function Value(): Store
      reads this
    {
      Store(entries, leases)
    }

    method AppendEvent(id: EventId, event: Event) returns (tx: Tx<Store, (), OutboxError>)
      modifies this`entries
      ensures tx == Append(old(Value()), id, event)
      ensures Value() == if tx.Commit? then tx.db else old(Value())
    {
      if id in entries {
        if entries[id] != Entry(event, false) {
          return Raise(IdCollision);
        }
        return Commit(Value(), ());
      }
      entries := entries[id := Entry(event, false)];
      tx := Commit(Value(), ());
    }

    /** The loop over the sorted pending events leases exactly the first `limit` eligible ones, in order,
        and leaves everything else alone. */
    method ClaimPending(worker: Worker, seconds: nat, now: Time, limit: nat) returns (selected: seq<EventId>)
      requires limit >= 1
      modifies this`leases
      ensures Value() == Claim(old(Value()), worker, seconds, now, limit)
      ensures Chosen(selected) == Selected(old(Value()), now, limit) && Sorted(Events(Value()), selected)
    {
      var store := Value();
      var pending := set e | e in entries && !entries[e].published;
      var order := SortedIds(Events(store), pending);
      selected := [];
      var i := 0;
      ghost var eligible := Eligible(store, now);
      NothingClaimed(store, now, order, worker, seconds);
      assert Sorted(Events(store), selected) && Picked(order, 0, eligible, selected);
      assert forall j | 0 <= j < |order| :: order[j] in order;
      hide Sorted, Deliveries, Chosen, First, Eligible, Picked;
      while i < |order| && |selected| < limit
        invariant 0 <= i <= |order| && |selected| <= limit && entries == store.entries
        invariant Sorted(Events(store), selected)
        invariant Picked(order, i, eligible, selected)
        invariant leases == store.leases + Deliveries(store, Chosen(selected), worker, seconds, now)
      {
        var e := order[i];
        TakeNext(Events(store), order, i, selected, eligible);
        DeliveriesGrow(store, selected, e, worker, seconds, now);
        i := i + 1;
        if e in leases && leases[e].until > now {
          continue;
        }
        var attempt := if e in leases then leases[e].attempt + 1 else 1;
        leases := leases[e := Delivery(attempt, worker, now + seconds)];
        selected := selected + [e];
      }
      ChosenIsFirst(store, order, i, selected, now, limit);
    }

    method MarkPublished(id: EventId, worker: Worker, now: Time) returns (tx: Tx<Store, Event, OutboxError>)
      modifies this
      ensures tx == Outbox.MarkPublished(old(Value()), id, worker, now)
      ensures Value() == if tx.Commit? then tx.db else old(Value())
    {
      if id !in leases || id !in entries || leases[id].worker != worker {
        return Raise(WrongWorker);
      }
      if leases[id].until <= now {
        return Raise(LeaseExpired);
      }
      entries := entries[id := entries[id].(published := true)];
      leases := leases - {id};
      tx := Commit(Value(), entries[id].event);
    }
  }

  lemma ChosenIsFirst(s: Store, order: seq<EventId>, i: nat, selected: seq<EventId>, now: Time, limit: nat)
    requires Sorted(Events(s), order) && i <= |order| && |selected| <= limit && (i == |order| || |selected| == limit)
    requires forall e | e in Eligible(s, now) :: e in order
    requires Sorted(Events(s), selected) && Picked(order, i, Eligible(s, now), selected)
    ensures Chosen(selected) == Selected(s, now, limit)
  {
    var eligible := Eligible(s, now);
    SortedCard(Events(s), selected);
    if |selected| == limit {
      forall x, y | x in Chosen(selected) && y in eligible && y !in Chosen(selected) ensures Before(Events(s), x, y) {
        var a :| 0 <= a < i && order[a] == x;
        var b :| 0 <= b < |order| && order[b] == y;
        assert b >= i;
      }
      PrefixIsFirst(Events(s), eligible, Chosen(selected), limit);
    } else {
      assert order[..i] == order;
      assert Chosen(selected) == eligible;
      FirstCard(Events(s), eligible, limit);
    }
  }

  lemma {:induction false} SortedCard(events: map<EventId, Event>, order: seq<EventId>)
    requires Sorted(events, order)
    ensures |Chosen(order)| == |order|
  {
    if order != [] {
      var n := |order| - 1;
      SortedCard(events, order[..n]);
      assert order[n] !in order[..n];
      assert Chosen(order) == Chosen(order[..n]) + {order[n]};
    }
  }

  /** The external publisher; `refuses` are the events on which it raises. */
  class OutboxPublisher {
    var delivered: set<(EventId, Event)>
    const refuses: set<EventId>

    constructor (refuses: set<EventId>)
      ensures delivered == {} && this.refuses == refuses
    {
      delivered, this.refuses := {}, refuses;
    }

    method PublishEvent(id: EventId, event: Event) returns (ok: bool)
      modifies this
      ensures ok == (id !in refuses)
      ensures delivered == if ok then old(delivered) + {(id, event)} else old(delivered)
    {
      if id in refuses {
        return false;
      }
      delivered := delivered + {(id, event)};
      ok := true;
    }
  }

  /** What a dispatcher does for the deliveries it has claimed. */
  function DispatchOps(worker: Worker, ids: seq<EventId>, now: Time): seq<Op> {
    if ids == [] then []
    else
      var last := ids[|ids| - 1];
      DispatchOps(worker, ids[..|ids| - 1], now) + [HandOver(worker, last), Publish(worker, last, now)]
  }

  lemma {:induction false} RunAppends(w: World, ops: seq<Op>, more: seq<Op>)
    ensures Run(w, ops + more) == Run(Run(w, ops), more)
    decreases |ops|
  {
    if ops == [] {
      assert ops + more == more;
    } else {
      assert (ops + more)[1..] == ops[1..] + more;
      RunAppends(Step(w, ops[0]), ops[1..], more);
    }
  }

  lemma DispatchOneMore(w: World, worker: Worker, ids: seq<EventId>, e: EventId, now: Time)
    ensures Run(w, DispatchOps(worker, ids + [e], now))
         == DispatchOne(Run(w, DispatchOps(worker, ids, now)), worker, e, now)
  {
    var ops := [HandOver(worker, e), Publish(worker, e, now)];
    assert (ids + [e])[..|ids|] == ids;
    RunAppends(w, DispatchOps(worker, ids, now), ops);
    var mid := Run(w, DispatchOps(worker, ids, now));
    hide StepHandOver, StepPublish;
    assert Run(mid, ops) == Run(Step(mid, ops[0]), ops[1..]);
    assert ops[1..] == [Publish(worker, e, now)];
  }

  function DispatchOne(w: World, worker: Worker, e: EventId, now: Time): World {
    StepPublish(StepHandOver(w, worker, e), worker, e, now)
  }

  lemma DispatchOneTouches(w: World, worker: Worker, e: EventId, now: Time)
    requires (worker, e) in w.held && e in w.store.entries
    ensures var w' := DispatchOne(w, worker, e, now);
            && w'.store.entries.Keys == w.store.entries.Keys && (forall x | x in w.held && x.1 != e :: x in w'.held)
            && |w'.publications| == |w.publications| + if MarkPublished(w.store, e, worker, now).Commit? then 1 else 0
  {}

  /** A dispatcher holds what it has just claimed. */
  lemma ClaimHolds(w: World, worker: Worker, seconds: nat, now: Time, limit: nat)
    requires seconds >= 1 && limit >= 1
    ensures var w' := StepClaim(w, worker, seconds, now, limit);
            && w'.store == Claim(w.store, worker, seconds, now, limit) && w'.delivered == w.delivered
               && w'.publications == w.publications
            && forall e | e in Selected(w.store, now, limit) :: (worker, e) in w'.held && e in w'.store.entries
  {
    hide First;
    assert Selected(w.store, now, limit) <= w.store.entries.Keys by { SelectedIsEligible(w.store, now, limit); }
    hide Selected;
  }

  class OutboxDispatcher {
    method DeliverOne(ghost w: World, store: OutboxStore, publisher: OutboxPublisher, worker: Worker, e: EventId,
                      now: Time)
      returns (handed: bool, marked: bool)
      requires w.store == store.Value() && w.delivered == publisher.delivered && (worker, e) in w.held
               && e in w.store.entries
      modifies store, publisher
      ensures var w' := if handed then DispatchOne(w, worker, e, now) else w;
              store.Value() == w'.store && publisher.delivered == w'.delivered
      ensures marked == (handed && MarkPublished(w.store, e, worker, now).Commit?)
    {
      handed := publisher.PublishEvent(e, store.entries[e].event);
      if !handed {
        return false, false;
      }
      var tx := store.MarkPublished(e, worker, now);
      marked := tx.Commit?;
    }

    /** Hand over and mark the claimed deliveries in order; `ok` is false when the publisher or a mark
        raised, which ends the loop. */
    method DispatchClaimed(ghost w: World, store: OutboxStore, publisher: OutboxPublisher, worker: Worker,
                           deliveries: seq<EventId>, now: Time)
      returns (ok: bool, published: nat, done: nat, ghost w': World)
      requires w.store == store.Value() && w.delivered == publisher.delivered
      requires forall j | 0 <= j < |deliveries| :: (worker, deliveries[j]) in w.held && deliveries[j] in w.store.entries
      requires forall i, j | 0 <= i < j < |deliveries| :: deliveries[i] != deliveries[j]
      modifies store, publisher
      ensures done <= |deliveries| && w' == Run(w, DispatchOps(worker, deliveries[..done], now))
      ensures store.Value() == w'.store && publisher.delivered == w'.delivered
      ensures if ok then published == done == |deliveries| else published == done || published + 1 == done
      ensures |w'.publications| == |w.publications| + published
    {
      w', ok, published, done := w, true, 0, 0;
      assert DispatchOps(worker, deliveries[..0], now) == [] && Run(w, []) == w;
      hide Run, DispatchOps, DispatchOne, MarkPublished;
      while done < |deliveries| && ok
        invariant 0 <= done <= |deliveries|
        invariant if ok then published == done else published == done || published + 1 == done
        invariant w' == Run(w, DispatchOps(worker, deliveries[..done], now))
        invariant store.Value() == w'.store && publisher.delivered == w'.delivered
        invariant forall j | done <= j < |deliveries| ::
                    (worker, deliveries[j]) in w'.held
                    && deliveries[j] in w'.store.entries
        invariant |w'.publications| == |w.publications| + published
        decreases |deliveries| - done, ok
      {
        var e := deliveries[done];
        assert deliveries[..done + 1] == deliveries[..done] + [e];
        DispatchOneMore(w, worker, deliveries[..done], e, now);
        DispatchOneTouches(w', worker, e, now);
        var handed, marked := DeliverOne(w', store, publisher, worker, e, now);
        if handed {
          w' := DispatchOne(w', worker, e, now);
          done := done + 1;
        }
        published := if marked then published + 1 else published;
        ok := marked;
      }
    }

    /** One dispatch: store and publisher are left where the protocol's run of the claim and of the first
        `done` deliveries leaves them, and `published` of these have been marked. */
    method DispatchPending(ghost w: World, store: OutboxStore, publisher: OutboxPublisher, worker: Worker,
                           seconds: nat, now: Time, later: Time, limit: nat)
      returns (ok: bool, published: nat, done: nat, deliveries: seq<EventId>, ghost w': World)
      requires w.store == store.Value() && w.delivered == publisher.delivered && seconds >= 1 && limit >= 1
      modifies store, publisher
      ensures Chosen(deliveries) == Selected(w.store, now, limit) && done <= |deliveries|
      ensures w' == Run(StepClaim(w, worker, seconds, now, limit), DispatchOps(worker, deliveries[..done], later))
      ensures store.Value() == w'.store && publisher.delivered == w'.delivered
      ensures if ok then published == done == |deliveries| else published == done || published + 1 == done
      ensures |w'.publications| == |w.publications| + published
    {
      hide Selected, StepClaim, Claim, Run, DispatchOps;
      ClaimHolds(w, worker, seconds, now, limit);
      deliveries := store.ClaimPending(worker, seconds, now, limit);
      forall j | 0 <= j < |deliveries| ensures deliveries[j] in Selected(w.store, now, limit) {
        assert deliveries[j] in Chosen(deliveries);
      }
      hide Chosen;
      ok, published, done, w' := DispatchClaimed(StepClaim(w, worker, seconds, now, limit), store, publisher, worker,
                                                 deliveries, later);
    }
  }
}
