/** The transactional outbox: the in-memory reference and the database table, what their claims select,
    when they agree, and what every run of workers over the reference keeps. */
module Outbox {
  import opened Common

  /** Event ids stand for their rank in the id order. */
  type EventId = nat
  type Worker = string
  type Time = int

  datatype Event = Event(kind: string, aggregate: string, payload: string, at: Time)
  datatype OutboxError = IdCollision | WrongWorker | LeaseExpired

  // ----- selection -----

  predicate Before(events: map<EventId, Event>, x: EventId, y: EventId)
    requires x in events && y in events
  {
    events[x].at < events[y].at || (events[x].at == events[y].at && x < y)
  }

  /** The members of `s` that come before `e`. */
  function Earlier(events: map<EventId, Event>, s: set<EventId>, e: EventId): set<EventId>
    requires s <= events.Keys && e in events
  {
    set x | x in s && Before(events, x, e)
  }

  function Rank(events: map<EventId, Event>, s: set<EventId>, e: EventId): nat
    requires s <= events.Keys && e in events
  {
    |Earlier(events, s, e)|
  }

  /** The first `limit` members of `s` in (occurrence, id) order. */
  function First(events: map<EventId, Event>, s: set<EventId>, limit: nat): set<EventId>
    requires s <= events.Keys
  {
    set e | e in s && Rank(events, s, e) < limit
  }

  /** Some member comes before all others. */
  lemma Earliest(events: map<EventId, Event>, s: set<EventId>) returns (m: EventId)
    requires s <= events.Keys && s != {}
    ensures m in s && forall x | x in s && x != m :: Before(events, m, x)
    decreases s
  {
    m :| m in s;
    var rest := s - {m};
    if rest == {} {
      forall x | x in s ensures x == m { assert x !in rest; }
    } else {
      var r := Earliest(events, rest);
      forall x | x in s && x != m ensures x in rest {}
      if Before(events, r, m) { m := r; }
    }
  }

  lemma RankWithoutFirst(events: map<EventId, Event>, s: set<EventId>, m: EventId, e: EventId)
    requires s <= events.Keys && m in s && e in s && e != m && Before(events, m, e)
    ensures Rank(events, s, e) == Rank(events, s - {m}, e) + 1
  {
    assert Earlier(events, s, e) == Earlier(events, s - {m}, e) + {m};
  }

  lemma FirstStep(events: map<EventId, Event>, s: set<EventId>, m: EventId, limit: nat)
    requires s <= events.Keys && m in s && limit > 0 && forall x | x in s && x != m :: Before(events, m, x)
    ensures First(events, s, limit) == First(events, s - {m}, limit - 1) + {m}
  {
    assert Earlier(events, s, m) == {};
    forall e | e in s && e != m ensures Rank(events, s, e) == Rank(events, s - {m}, e) + 1 {
      RankWithoutFirst(events, s, m, e);
    }
    assert Rank(events, s, m) == 0;
    hide Rank, Before;
  }

  lemma FirstIsSubset(events: map<EventId, Event>, s: set<EventId>, limit: nat)
    requires s <= events.Keys
    ensures First(events, s, limit) <= s && (limit == 0 ==> First(events, s, limit) == {})
  {}

  /** `First` takes as many as there are, up to the limit. */
  lemma {:induction false} FirstCard(events: map<EventId, Event>, s: set<EventId>, limit: nat)
    requires s <= events.Keys
    ensures |First(events, s, limit)| == if |s| <= limit then |s| else limit
    ensures |s| <= limit ==> First(events, s, limit) == s
    decreases limit
  {
    hide First, Rank, Before;
    FirstIsSubset(events, s, limit);
    if s != {} && limit > 0 {
      var m := Earliest(events, s);
      var rest := First(events, s - {m}, limit - 1);
      FirstStep(events, s, m, limit);
      FirstCard(events, s - {m}, limit - 1);
      FirstIsSubset(events, s - {m}, limit - 1);
      assert |rest + {m}| == |rest| + 1;
      assert s == s - {m} + {m};
    }
  }

  /** The members of `s` that have occurred. */
  function Occurred(events: map<EventId, Event>, s: set<EventId>, now: Time): set<EventId>
    requires s <= events.Keys
  {
    set e | e in s && events[e].at <= now
  }

  lemma RankAmongOccurred(events: map<EventId, Event>, s: set<EventId>, now: Time, e: EventId)
    requires s <= events.Keys && e in s
    ensures var p := Occurred(events, s, now);
            && (e in p ==> Rank(events, s, e) == Rank(events, p, e))
            && (e !in p ==> Rank(events, s, e) >= |p|)
            && (e !in p && (forall x | x in s && x !in p && x != e :: Before(events, e, x))
                ==> Rank(events, s, e) == |p|)
  {
    var p := Occurred(events, s, now);
    if e in p {
      assert Earlier(events, s, e) == Earlier(events, p, e);
    } else {
      SubsetCard(p, Earlier(events, s, e));
      if forall x | x in s && x !in p && x != e :: Before(events, e, x) {
        assert Earlier(events, s, e) == p;
      }
    }
  }

  /** Restricting the choice to what has occurred makes no difference exactly when everything has
      occurred, or enough has. */
  lemma FirstOfOccurred(events: map<EventId, Event>, s: set<EventId>, now: Time, limit: nat)
    requires s <= events.Keys
    ensures var p := Occurred(events, s, now);
            First(events, s, limit) == First(events, p, limit) <==> (s == p || |p| >= limit)
  {
    var p := Occurred(events, s, now);
    assert p <= s;
    forall e | e in s
      ensures e in p ==> Rank(events, s, e) == Rank(events, p, e)
      ensures e !in p ==> Rank(events, s, e) >= |p|
    {
      RankAmongOccurred(events, s, now, e);
    }
    if s != p && |p| < limit {
      SubsetCard(p, s);
      var f := Earliest(events, s - p);
      assert forall x | x in s && x !in p :: x in s - p;
      RankAmongOccurred(events, s, now, f);
      assert f in First(events, s, limit) && f !in First(events, p, limit);
    }
    hide Rank, Before, Occurred;
  }

  // ----- the reference store -----

  datatype Entry = Entry(event: Event, published: bool)
  datatype Delivery = Delivery(attempt: nat, worker: Worker, until: Time)
  datatype Store = Store(entries: map<EventId, Entry>, leases: map<EventId, Delivery>)

  function Events(s: Store): map<EventId, Event> { map e | e in s.entries :: s.entries[e].event }

  function Eligible(s: Store, now: Time): set<EventId> {
    set e | e in s.entries && !s.entries[e].published && !(e in s.leases && s.leases[e].until > now)
  }

  function Selected(s: Store, now: Time, limit: nat): set<EventId> { First(Events(s), Eligible(s, now), limit) }

  function NextDelivery(s: Store, e: EventId, worker: Worker, seconds: nat, now: Time): Delivery {
    Delivery(if e in s.leases then s.leases[e].attempt + 1 else 1, worker, now + seconds)
  }

  function Deliveries(s: Store, chosen: set<EventId>, worker: Worker, seconds: nat, now: Time): map<EventId, Delivery> {
    map e | e in chosen :: NextDelivery(s, e, worker, seconds, now)
  }

  function Claim(s: Store, worker: Worker, seconds: nat, now: Time, limit: nat): Store {
    s.(leases := s.leases + Deliveries(s, Selected(s, now, limit), worker, seconds, now))
  }

  function Append(s: Store, id: EventId, event: Event): Tx<Store, (), OutboxError> {
    if id in s.entries then if s.entries[id] == Entry(event, false) then Commit(s, ()) else Raise(IdCollision)
    else Commit(s.(entries := s.entries[id := Entry(event, false)]), ())
  }

  function MarkPublished(s: Store, id: EventId, worker: Worker, now: Time): Tx<Store, Event, OutboxError> {
    if id !in s.leases || id !in s.entries || s.leases[id].worker != worker then Raise(WrongWorker)
    else if s.leases[id].until <= now then Raise(LeaseExpired)
    else Commit(Store(s.entries[id := s.entries[id].(published := true)], s.leases - {id}), s.entries[id].event)
  }

  // ----- the table -----

  datatype Lease = Lease(worker: Worker, until: Time)
  datatype Row = Row(event: Event, published: Option<Time>, attempt: nat, lease: Option<Lease>)
  type Table = map<EventId, Row>

  function RowEvents(t: Table): map<EventId, Event> { map e | e in t :: t[e].event }

  function SqlEligible(t: Table, now: Time): set<EventId> {
    set e | e in t && t[e].published.None? && (t[e].lease.None? || t[e].lease.value.until <= now)
            && t[e].event.at <= now
  }

  function SqlSelected(t: Table, now: Time, limit: nat): set<EventId> {
    First(RowEvents(t), SqlEligible(t, now), limit)
  }

  function SqlClaim(t: Table, worker: Worker, seconds: nat, now: Time, limit: nat): Table {
    t + map e | e in SqlSelected(t, now, limit) && e in t ::
      t[e].(attempt := t[e].attempt + 1, lease := Some(Lease(worker, now + seconds)))
  }

  function SqlAppend(t: Table, id: EventId, event: Event): Tx<Table, (), OutboxError> {
    if id in t then if t[id].event == event then Commit(t, ()) else Raise(IdCollision)
    else Commit(t[id := Row(event, None, 0, None)], ())
  }

  function SqlMarkPublished(t: Table, id: EventId, worker: Worker, now: Time): Tx<Table, Event, OutboxError> {
    if id !in t || t[id].published.Some? || t[id].lease.None? || t[id].lease.value.worker != worker
      || t[id].lease.value.until <= now
    then Raise(LeaseExpired)
    else Commit(t[id := t[id].(published := Some(now), lease := None)], t[id].event)
  }

  // ----- agreement -----

  /** The table and the reference store say the same. */
  ghost predicate Agree(s: Store, t: Table) {
    && s.entries.Keys == t.Keys && s.leases.Keys <= s.entries.Keys
    && forall e | e in t ::
         && t[e].event == s.entries[e].event && (t[e].published.Some? <==> s.entries[e].published)
         && (if e in s.leases then
               !s.entries[e].published && t[e].lease == Some(Lease(s.leases[e].worker, s.leases[e].until))
                 && t[e].attempt == s.leases[e].attempt
             else t[e].lease.None? && (t[e].published.None? ==> t[e].attempt == 0))
  }

  lemma EligibleAgree(s: Store, t: Table, now: Time)
    requires Agree(s, t)
    ensures RowEvents(t) == Events(s) && SqlEligible(t, now) == Occurred(Events(s), Eligible(s, now), now)
  {}

  lemma SelectedIsEligible(s: Store, now: Time, limit: nat)
    ensures Selected(s, now, limit) <= s.entries.Keys
    ensures forall e | e in Selected(s, now, limit) :: !s.entries[e].published
  {}

  lemma SelectedKeepsAgreement(s: Store, t: Table, chosen: set<EventId>, worker: Worker, seconds: nat, now: Time)
    requires Agree(s, t) && chosen <= s.entries.Keys && forall e | e in chosen :: !s.entries[e].published
    ensures Agree(s.(leases := s.leases + Deliveries(s, chosen, worker, seconds, now)),
                  t + map e | e in chosen && e in t :: t[e].(attempt := t[e].attempt + 1,
                                                             lease := Some(Lease(worker, now + seconds))))
  {}

  /** Both claims select the same events exactly when every eligible event has occurred or at least
      `limit` of them have; the claim then keeps the agreement. */
  lemma ClaimsAgreeIff(s: Store, t: Table, worker: Worker, seconds: nat, now: Time, limit: nat)
    requires Agree(s, t)
    ensures var eligible := Eligible(s, now);
            var occurred := Occurred(Events(s), eligible, now);
            SqlSelected(t, now, limit) == Selected(s, now, limit) <==> (eligible == occurred || |occurred| >= limit)
    ensures SqlSelected(t, now, limit) == Selected(s, now, limit) ==>
              Agree(Claim(s, worker, seconds, now, limit), SqlClaim(t, worker, seconds, now, limit))
  {
    assert Eligible(s, now) <= Events(s).Keys;
    hide First, Occurred, SqlEligible, Eligible;
    EligibleAgree(s, t, now);
    SelectedIsEligible(s, now, limit);
    FirstOfOccurred(Events(s), Eligible(s, now), now, limit);
    SelectedKeepsAgreement(s, t, Selected(s, now, limit), worker, seconds, now);
  }

  lemma MarksAgree(s: Store, t: Table, id: EventId, worker: Worker, now: Time)
    requires Agree(s, t)
    ensures var a, b := MarkPublished(s, id, worker, now), SqlMarkPublished(t, id, worker, now);
            && (a.Commit? <==> b.Commit?)
            && (a.Commit? ==> a.answer == b.answer && Agree(a.db, b.db))
  {}

  /** Appends agree exactly when the same event is not appended again after its publication: the reference
      then reports a collision, the table does not. */
  lemma AppendsAgreeIff(s: Store, t: Table, id: EventId, event: Event)
    requires Agree(s, t)
    ensures var a, b := Append(s, id, event), SqlAppend(t, id, event);
            && ((a.Commit? <==> b.Commit?) <==> !(id in s.entries && s.entries[id] == Entry(event, true)))
            && (a.Commit? ==> b.Commit? && Agree(a.db, b.db))
  {}

  /** One call on either implementation. */
  datatype StoreCall =
    | AppendCall(id: EventId, event: Event)
    | ClaimCall(worker: Worker, seconds: nat, now: Time, limit: nat)
    | MarkCall(id: EventId, worker: Worker, now: Time)

  function OnStore(s: Store, c: StoreCall): Store {
    match c
    case AppendCall(id, event) => var tx := Append(s, id, event); if tx.Commit? then tx.db else s
    case ClaimCall(worker, seconds, now, limit) => Claim(s, worker, seconds, now, limit)
    case MarkCall(id, worker, now) => var tx := MarkPublished(s, id, worker, now); if tx.Commit? then tx.db else s
  }

  function OnTable(t: Table, c: StoreCall): Table {
    match c
    case AppendCall(id, event) => var tx := SqlAppend(t, id, event); if tx.Commit? then tx.db else t
    case ClaimCall(worker, seconds, now, limit) => SqlClaim(t, worker, seconds, now, limit)
    case MarkCall(id, worker, now) => var tx := SqlMarkPublished(t, id, worker, now); if tx.Commit? then tx.db else t
  }

  function OnStoreAll(s: Store, calls: seq<StoreCall>): Store
    decreases |calls|
  {
    if calls == [] then s else OnStoreAll(OnStore(s, calls[0]), calls[1..])
  }

  function OnTableAll(t: Table, calls: seq<StoreCall>): Table
    decreases |calls|
  {
    if calls == [] then t else OnTableAll(OnTable(t, calls[0]), calls[1..])
  }

  /** No claim comes before an appended event has occurred. */
  ghost predicate NothingFromTheFuture(s: Store, calls: seq<StoreCall>) {
    && (forall e, i | e in s.entries && 0 <= i < |calls| && calls[i].ClaimCall? ::
        s.entries[e].event.at <= calls[i].now)
    && (forall i, j | 0 <= i < j < |calls| && calls[i].AppendCall? && calls[j].ClaimCall? ::
        calls[i].event.at <= calls[j].now)
  }

  lemma CallKeepsAgreement(s: Store, t: Table, c: StoreCall)
    requires Agree(s, t) && (c.ClaimCall? ==> forall e | e in s.entries :: s.entries[e].event.at <= c.now)
    ensures Agree(OnStore(s, c), OnTable(t, c))
    ensures forall e | e in OnStore(s, c).entries ::
              if e in s.entries then OnStore(s, c).entries[e].event == s.entries[e].event
              else c.AppendCall? && OnStore(s, c).entries[e].event == c.event
  {
    match c
    case AppendCall(id, event) => AppendsAgreeIff(s, t, id, event);
    case ClaimCall(worker, seconds, now, limit) =>
      assert Occurred(Events(s), Eligible(s, now), now) == Eligible(s, now);
      ClaimsAgreeIff(s, t, worker, seconds, now, limit);
      hide Agree, Eligible, SqlEligible, First;
    case MarkCall(id, worker, now) => MarksAgree(s, t, id, worker, now);
  }

  /** On every history of calls in which claims come after the events they see have occurred, the two
      implementations stay in agreement. */
  lemma {:induction false} HistoriesAgree(s: Store, t: Table, calls: seq<StoreCall>)
    requires Agree(s, t) && NothingFromTheFuture(s, calls)
    ensures Agree(OnStoreAll(s, calls), OnTableAll(t, calls))
    decreases |calls|
  {
    if calls != [] {
      assert calls[0].ClaimCall? ==> forall e | e in s.entries :: s.entries[e].event.at <= calls[0].now;
      CallKeepsAgreement(s, t, calls[0]);
      hide OnStore, OnTable, Agree;
      assert NothingFromTheFuture(OnStore(s, calls[0]), calls[1..]);
      HistoriesAgree(OnStore(s, calls[0]), OnTable(t, calls[0]), calls[1..]);
    }
  }

  // ----- dispatchers -----

  /** One lease that was granted; `attempt` tells the leases of one event apart. */
  datatype Grant = Grant(event: EventId, attempt: nat, worker: Worker, from: Time, until: Time)

  /** `held` and `handed` are what live dispatchers know; `delivered`, `grants` and `publications` are
      history: what reached the publisher, the leases granted, and the events published, in order. */
  datatype World = World(
    store: Store, held: set<(Worker, EventId)>, handed: set<(Worker, EventId)>,
    delivered: set<(EventId, Event)>, grants: set<Grant>, publications: seq<EventId>)

  datatype Op =
    | AppendEvent(id: EventId, event: Event)
    | ClaimPending(worker: Worker, seconds: nat, now: Time, limit: nat)
    | HandOver(worker: Worker, id: EventId)
    | Publish(worker: Worker, id: EventId, now: Time)
    | Crash(worker: Worker)

  function StepAppend(w: World, id: EventId, event: Event): World {
    var tx := Append(w.store, id, event);
    if tx.Raise? then w else w.(store := tx.db)
  }

  /** The worker has claimed these events. */
  function StepClaimOf(w: World, chosen: set<EventId>, worker: Worker, seconds: nat, now: Time): World {
    w.(store := w.store.(leases := w.store.leases + Deliveries(w.store, chosen, worker, seconds, now)),
       held := w.held + (set e | e in chosen :: (worker, e)),
       grants := w.grants + (set e | e in chosen ::
                               Grant(e, NextDelivery(w.store, e, worker, seconds, now).attempt, worker, now,
                                     now + seconds)))
  }

  function StepClaim(w: World, worker: Worker, seconds: nat, now: Time, limit: nat): World {
    if seconds == 0 || limit == 0 then w else StepClaimOf(w, Selected(w.store, now, limit), worker, seconds, now)
  }

  function StepHandOver(w: World, worker: Worker, id: EventId): World {
    if (worker, id) !in w.held || id !in w.store.entries then w
    else w.(handed := w.handed + {(worker, id)}, delivered := w.delivered + {(id, w.store.entries[id].event)})
  }

  function StepPublish(w: World, worker: Worker, id: EventId, now: Time): World {
    if (worker, id) !in w.handed then w
    else
      var tx := MarkPublished(w.store, id, worker, now);
      var w' := w.(held := w.held - {(worker, id)}, handed := w.handed - {(worker, id)});
      if tx.Raise? then w' else w'.(store := tx.db, publications := w.publications + [id])
  }

  function StepCrash(w: World, worker: Worker): World {
    w.(held := (set x | x in w.held && x.0 != worker), handed := (set x | x in w.handed && x.0 != worker))
  }

  function Step(w: World, op: Op): World {
    match op
    case AppendEvent(id, event) => StepAppend(w, id, event)
    case ClaimPending(worker, seconds, now, limit) => StepClaim(w, worker, seconds, now, limit)
    case HandOver(worker, id) => StepHandOver(w, worker, id)
    case Publish(worker, id, now) => StepPublish(w, worker, id, now)
    case Crash(worker) => StepCrash(w, worker)
  }

  const Empty: World := World(Store(map[], map[]), {}, {}, {}, {}, [])

  function Run(w: World, ops: seq<Op>): World
    decreases |ops|
  {
    if ops == [] then w else Run(Step(w, ops[0]), ops[1..])
  }

  ghost predicate StoreOk(s: Store) { forall e | e in s.leases :: e in s.entries && !s.entries[e].published }

  ghost predicate GrantsOk(s: Store, grants: set<Grant>) {
    && (forall g | g in grants :: g.event in s.entries && g.from < g.until)
    && (forall g | g in grants && !s.entries[g.event].published ::
          g.event in s.leases && g.attempt <= s.leases[g.event].attempt && g.until <= s.leases[g.event].until)
    && (forall g, h | g in grants && h in grants && g.event == h.event && g.attempt < h.attempt :: g.until <= h.from)
    && (forall g, h | g in grants && h in grants && g.event == h.event && g.attempt == h.attempt :: g == h)
  }

  ghost predicate PublicationsOk(w: World) {
    && (forall e | e in w.store.entries :: w.store.entries[e].published <==> e in w.publications)
    && (forall e | e in w.publications :: e in w.store.entries && (e, w.store.entries[e].event) in w.delivered)
    && (forall i, j | 0 <= i < j < |w.publications| :: w.publications[i] != w.publications[j])
    && (forall x | x in w.handed :: x.1 in w.store.entries && (x.1, w.store.entries[x.1].event) in w.delivered)
  }

  ghost predicate Inv(w: World) { StoreOk(w.store) && GrantsOk(w.store, w.grants) && PublicationsOk(w) }

  lemma ClaimKeepsStore(w: World, chosen: set<EventId>, worker: Worker, seconds: nat, now: Time)
    requires StoreOk(w.store) && chosen <= Eligible(w.store, now)
    ensures StoreOk(StepClaimOf(w, chosen, worker, seconds, now).store)
  {
    assert forall e | e in chosen :: e in Eligible(w.store, now);
  }

  /** A grant is an old one, or one of this claim. */
  lemma GrantsAreOldOrNew(w: World, chosen: set<EventId>, worker: Worker, seconds: nat, now: Time, g: Grant)
    requires g in StepClaimOf(w, chosen, worker, seconds, now).grants
    ensures g in w.grants
         || (g.event in chosen && g == Grant(g.event, NextDelivery(w.store, g.event, worker, seconds, now).attempt,
                                             worker, now, now + seconds))
  {}

  /** An old grant of a chosen event is over, and has a smaller attempt number. */
  lemma OldGrantsAreOver(s: Store, grants: set<Grant>, chosen: set<EventId>, worker: Worker, seconds: nat, now: Time)
    requires GrantsOk(s, grants) && chosen <= Eligible(s, now)
    ensures forall g | g in grants && g.event in chosen ::
              g.until <= now && g.attempt < NextDelivery(s, g.event, worker, seconds, now).attempt
  {
    assert forall e | e in chosen :: e in Eligible(s, now);
  }

  /** Claiming events whose leases are over grants each one lease after all earlier ones. */
  lemma ClaimKeepsGrants(w: World, chosen: set<EventId>, worker: Worker, seconds: nat, now: Time)
    requires StoreOk(w.store) && GrantsOk(w.store, w.grants) && chosen <= Eligible(w.store, now) && seconds > 0
    ensures var w' := StepClaimOf(w, chosen, worker, seconds, now); StoreOk(w'.store) && GrantsOk(w'.store, w'.grants)
  {
    var w' := StepClaimOf(w, chosen, worker, seconds, now);
    ClaimKeepsStore(w, chosen, worker, seconds, now);
    OldGrantsAreOver(w.store, w.grants, chosen, worker, seconds, now);
    assert forall e | e in chosen :: e in w.store.entries && !w.store.entries[e].published by {
      assert forall e | e in chosen :: e in Eligible(w.store, now);
    }
    forall g | g in w'.grants
      ensures g in w.grants
           || (g.event in chosen && g == Grant(g.event, NextDelivery(w.store, g.event, worker, seconds, now).attempt,
                                               worker, now, now + seconds))
    {
      GrantsAreOldOrNew(w, chosen, worker, seconds, now, g);
    }
    assert w'.store == w.store.(leases := w.store.leases + Deliveries(w.store, chosen, worker, seconds, now));
    hide StepClaimOf, Eligible, StoreOk, NextDelivery;
  }

  lemma ClaimKeepsInv(w: World, chosen: set<EventId>, worker: Worker, seconds: nat, now: Time)
    requires Inv(w) && chosen <= Eligible(w.store, now) && seconds > 0
    ensures Inv(StepClaimOf(w, chosen, worker, seconds, now))
  {
    ClaimKeepsGrants(w, chosen, worker, seconds, now);
    hide GrantsOk, StoreOk, Eligible;
  }

  lemma StepKeepsInv(w: World, op: Op)
    requires Inv(w)
    ensures Inv(Step(w, op))
  {
    match op
    case ClaimPending(worker, seconds, now, limit) =>
      FirstIsSubset(Events(w.store), Eligible(w.store, now), limit);
      hide Inv, StepClaimOf, First, Eligible;
      if seconds != 0 && limit != 0 { ClaimKeepsInv(w, Selected(w.store, now, limit), worker, seconds, now); }
    case AppendEvent(_, _) =>
    case HandOver(_, _) => hide GrantsOk, StoreOk;
    case Publish(worker, id, now) =>
    case Crash(_) => hide GrantsOk, StoreOk;
  }

  lemma {:induction false} RunKeepsInv(w: World, ops: seq<Op>)
    requires Inv(w)
    ensures Inv(Run(w, ops))
    decreases |ops|
  {
    if ops != [] {
      StepKeepsInv(w, ops[0]);
      hide Inv, Step;
      RunKeepsInv(Step(w, ops[0]), ops[1..]);
    }
  }

  lemma Reachable(ops: seq<Op>)
    ensures Inv(Run(Empty, ops))
  {
    RunKeepsInv(Empty, ops);
  }

  /** Two leases of one event never overlap, whatever clocks the workers have. */
  lemma LeasesNeverOverlap(ops: seq<Op>, g: Grant, h: Grant)
    requires g in Run(Empty, ops).grants && h in Run(Empty, ops).grants && g.event == h.event && g != h
    ensures g.until <= h.from || h.until <= g.from
  {
    Reachable(ops);
    hide Run;
  }

  /** An event is published at most once, and a published event has been handed to the publisher as it was appended. */
  lemma PublishedOnceAndHandedOver(ops: seq<Op>, e: EventId)
    requires e in Run(Empty, ops).store.entries
    ensures var w := Run(Empty, ops);
            && multiset(w.publications)[e] == (if w.store.entries[e].published then 1 else 0)
            && (w.store.entries[e].published ==> (e, w.store.entries[e].event) in w.delivered && e !in w.store.leases)
  {
    Reachable(ops);
    hide Run, GrantsOk;
    DistinctCount(Run(Empty, ops).publications, e);
  }

  lemma {:induction false} DistinctCount(s: seq<EventId>, e: EventId)
    requires forall i, j | 0 <= i < j < |s| :: s[i] != s[j]
    ensures multiset(s)[e] == if e in s then 1 else 0
  {
    if s != [] {
      assert s == s[..|s| - 1] + [s[|s| - 1]];
      DistinctCount(s[..|s| - 1], e);
    }
  }

  lemma StepKeepsEntry(w: World, op: Op, e: EventId)
    requires e in w.store.entries
    ensures e in Step(w, op).store.entries && Step(w, op).store.entries[e].event == w.store.entries[e].event
    ensures w.store.entries[e].published ==> Step(w, op).store.entries[e].published
  {
    hide First;
  }

  /** What was appended is never altered, and what is published stays published. */
  lemma {:induction false} EntryIsWriteOnce(w: World, ops: seq<Op>, e: EventId)
    requires e in w.store.entries
    ensures e in Run(w, ops).store.entries && Run(w, ops).store.entries[e].event == w.store.entries[e].event
    ensures w.store.entries[e].published ==> Run(w, ops).store.entries[e].published
    decreases |ops|
  {
    if ops != [] {
      StepKeepsEntry(w, ops[0], e);
      hide Step;
      EntryIsWriteOnce(Step(w, ops[0]), ops[1..], e);
    }
  }

  // ----- dispatchers over the table -----

  datatype TableWorld = TableWorld(
    table: Table, held: set<(Worker, EventId)>, handed: set<(Worker, EventId)>,
    delivered: set<(EventId, Event)>, grants: set<Grant>, publications: seq<EventId>)

  /** A claim takes any rows that are eligible, up to its limit: rows that others have locked are skipped. */
  datatype TableOp =
    | AppendRow(id: EventId, event: Event)
    | ClaimRows(worker: Worker, chosen: set<EventId>, limit: nat, seconds: nat, now: Time)
    | HandOverRow(worker: Worker, id: EventId)
    | PublishRow(worker: Worker, id: EventId, now: Time)
    | CrashOf(worker: Worker)

  predicate Choosable(t: Table, chosen: set<EventId>, limit: nat, now: Time) {
    chosen <= SqlEligible(t, now) && |chosen| <= limit
  }

  /** What the query selects when nothing is locked is one of the choices. */
  lemma SelectedIsChoosable(t: Table, limit: nat, now: Time)
    ensures Choosable(t, SqlSelected(t, now, limit), limit, now)
  {
    FirstIsSubset(RowEvents(t), SqlEligible(t, now), limit);
    FirstCard(RowEvents(t), SqlEligible(t, now), limit);
    hide First, SqlEligible;
  }

  function ClaimedRows(t: Table, chosen: set<EventId>, worker: Worker, seconds: nat, now: Time): Table {
    t + map e | e in chosen && e in t :: t[e].(attempt := t[e].attempt + 1, lease := Some(Lease(worker, now + seconds)))
  }

  function TableAppend(w: TableWorld, id: EventId, event: Event): TableWorld {
    var tx := SqlAppend(w.table, id, event);
    if tx.Raise? then w else w.(table := tx.db)
  }

  function TableClaim(w: TableWorld, worker: Worker, chosen: set<EventId>, limit: nat, seconds: nat, now: Time)
    : TableWorld {
    if seconds == 0 || !Choosable(w.table, chosen, limit, now) then w
    else
      w.(table := ClaimedRows(w.table, chosen, worker, seconds, now),
         held := w.held + (set e | e in chosen :: (worker, e)),
         grants := w.grants + (set e | e in chosen && e in w.table ::
                               Grant(e, w.table[e].attempt + 1, worker, now, now + seconds)))
  }

  function TableHandOver(w: TableWorld, worker: Worker, id: EventId): TableWorld {
    if (worker, id) !in w.held || id !in w.table then w
    else w.(handed := w.handed + {(worker, id)}, delivered := w.delivered + {(id, w.table[id].event)})
  }

  function TablePublish(w: TableWorld, worker: Worker, id: EventId, now: Time): TableWorld {
    if (worker, id) !in w.handed then w
    else
      var tx := SqlMarkPublished(w.table, id, worker, now);
      var w' := w.(held := w.held - {(worker, id)}, handed := w.handed - {(worker, id)});
      if tx.Raise? then w' else w'.(table := tx.db, publications := w.publications + [id])
  }

  function TableCrash(w: TableWorld, worker: Worker): TableWorld {
    w.(held := (set x | x in w.held && x.0 != worker), handed := (set x | x in w.handed && x.0 != worker))
  }

  function TableStep(w: TableWorld, op: TableOp): TableWorld {
    match op
    case AppendRow(id, event) => TableAppend(w, id, event)
    case ClaimRows(worker, chosen, limit, seconds, now) => TableClaim(w, worker, chosen, limit, seconds, now)
    case HandOverRow(worker, id) => TableHandOver(w, worker, id)
    case PublishRow(worker, id, now) => TablePublish(w, worker, id, now)
    case CrashOf(worker) => TableCrash(w, worker)
  }

  const EmptyTable: TableWorld := TableWorld(map[], {}, {}, {}, {}, [])

  function TableRun(w: TableWorld, ops: seq<TableOp>): TableWorld
    decreases |ops|
  {
    if ops == [] then w else TableRun(TableStep(w, ops[0]), ops[1..])
  }

  function Entries(t: Table): map<EventId, Entry> { map e | e in t :: Entry(t[e].event, t[e].published.Some?) }

  function Leases(t: Table): map<EventId, Delivery> {
    map e | e in t && t[e].lease.Some? :: Delivery(t[e].attempt, t[e].lease.value.worker, t[e].lease.value.until)
  }

  /** The store that says what the table says. */
  function AsStore(t: Table): Store { Store(Entries(t), Leases(t)) }

  function AsWorld(w: TableWorld): World {
    World(AsStore(w.table), w.held, w.handed, w.delivered, w.grants, w.publications)
  }

  /** Only a claimed row has an attempt, and only an unpublished one a lease. */
  ghost predicate TableOk(t: Table) {
    forall e | e in t :: (t[e].published.Some? ==> t[e].lease.None?)
      && (t[e].lease.None? && t[e].published.None? ==> t[e].attempt == 0)
  }

  lemma AsStoreAgrees(t: Table)
    requires TableOk(t)
    ensures Agree(AsStore(t), t)
  {}

  lemma ChosenIsEligible(t: Table, chosen: set<EventId>, now: Time)
    requires chosen <= SqlEligible(t, now)
    ensures chosen <= t.Keys && chosen <= Eligible(AsStore(t), now) && forall e | e in chosen :: t[e].published.None?
  {
    assert forall e | e in chosen :: e in SqlEligible(t, now);
  }

  lemma ClaimedEntries(t: Table, chosen: set<EventId>, worker: Worker, seconds: nat, now: Time)
    requires TableOk(t) && chosen <= t.Keys && forall e | e in chosen :: t[e].published.None?
    ensures var t' := ClaimedRows(t, chosen, worker, seconds, now); TableOk(t') && Entries(t') == Entries(t)
  {}

  lemma ClaimedLeases(t: Table, chosen: set<EventId>, worker: Worker, seconds: nat, now: Time)
    requires TableOk(t) && chosen <= t.Keys && forall e | e in chosen :: t[e].published.None?
    ensures Leases(ClaimedRows(t, chosen, worker, seconds, now))
            == Leases(t) + Deliveries(AsStore(t), chosen, worker, seconds, now)
    ensures forall e | e in chosen :: NextDelivery(AsStore(t), e, worker, seconds, now).attempt == t[e].attempt + 1
  {
    hide Entries;
  }

  /** A claim on the table is a claim of the same events on the store. */
  lemma TableClaimIsClaim(w: TableWorld, worker: Worker, chosen: set<EventId>, limit: nat, seconds: nat, now: Time)
    requires TableOk(w.table) && seconds > 0 && Choosable(w.table, chosen, limit, now)
    ensures var w' := TableClaim(w, worker, chosen, limit, seconds, now);
            TableOk(w'.table) && AsWorld(w') == StepClaimOf(AsWorld(w), chosen, worker, seconds, now)
    ensures chosen <= Eligible(AsStore(w.table), now)
  {
    hide TableOk, SqlEligible, Eligible, Entries, Leases, ClaimedRows, Deliveries, NextDelivery;
    ChosenIsEligible(w.table, chosen, now);
    ClaimedEntries(w.table, chosen, worker, seconds, now);
    ClaimedLeases(w.table, chosen, worker, seconds, now);
  }

  lemma AppendedRow(t: Table, id: EventId, event: Event)
    requires TableOk(t) && id !in t
    ensures var t' := t[id := Row(event, None, 0, None)];
            TableOk(t') && Entries(t') == Entries(t)[id := Entry(event, false)] && Leases(t') == Leases(t)
  {}

  lemma PublishedRow(t: Table, id: EventId, now: Time)
    requires TableOk(t) && id in t
    ensures var t' := t[id := t[id].(published := Some(now), lease := None)];
            TableOk(t') && Entries(t') == Entries(t)[id := Entry(t[id].event, true)] && Leases(t') == Leases(t) - {id}
  {}

  lemma TableAppendIsAppend(w: TableWorld, id: EventId, event: Event)
    requires TableOk(w.table)
    ensures TableOk(TableAppend(w, id, event).table)
            && AsWorld(TableAppend(w, id, event)) == StepAppend(AsWorld(w), id, event)
  {
    if id !in w.table { AppendedRow(w.table, id, event); }
    assert id in w.table <==> id in Entries(w.table);
    assert id in w.table ==> Entries(w.table)[id] == Entry(w.table[id].event, w.table[id].published.Some?);
    hide Entries, Leases, TableOk;
  }

  lemma TablePublishIsPublish(w: TableWorld, worker: Worker, id: EventId, now: Time)
    requires TableOk(w.table)
    ensures TableOk(TablePublish(w, worker, id, now).table)
    ensures AsWorld(TablePublish(w, worker, id, now)) == StepPublish(AsWorld(w), worker, id, now)
  {
    MarksAgree(AsStore(w.table), w.table, id, worker, now) by { AsStoreAgrees(w.table); }
    if id in w.table { PublishedRow(w.table, id, now); }
    assert id in w.table <==> id in Entries(w.table);
    assert id in w.table ==> Entries(w.table)[id] == Entry(w.table[id].event, w.table[id].published.Some?);
    hide Entries, Leases, TableOk, Agree;
  }

  lemma TableHandOverIsHandOver(w: TableWorld, worker: Worker, id: EventId)
    ensures AsWorld(TableHandOver(w, worker, id)) == StepHandOver(AsWorld(w), worker, id)
  {
    assert id in w.table <==> id in Entries(w.table);
    assert id in w.table ==> Entries(w.table)[id].event == w.table[id].event;
    hide Entries, Leases;
  }

  lemma TableStepKeepsInv(w: TableWorld, op: TableOp)
    requires TableOk(w.table) && Inv(AsWorld(w))
    ensures TableOk(TableStep(w, op).table) && Inv(AsWorld(TableStep(w, op)))
  {
    hide Inv, AsStore, Choosable, Eligible, TableOk, TableAppend, TableHandOver, TablePublish, StepAppend,
         StepHandOver, StepPublish;
    hide StepClaimOf;
    match op
    case AppendRow(id, event) =>
      TableAppendIsAppend(w, id, event);
      StepKeepsInv(AsWorld(w), AppendEvent(id, event));
    case ClaimRows(worker, chosen, limit, seconds, now) =>
      if seconds > 0 && Choosable(w.table, chosen, limit, now) {
        TableClaimIsClaim(w, worker, chosen, limit, seconds, now);
        ClaimKeepsInv(AsWorld(w), chosen, worker, seconds, now);
      }
    case HandOverRow(worker, id) =>
      TableHandOverIsHandOver(w, worker, id);
      HandOverKeepsTable(w, worker, id);
      StepKeepsInv(AsWorld(w), HandOver(worker, id));
    case PublishRow(worker, id, now) =>
      TablePublishIsPublish(w, worker, id, now);
      StepKeepsInv(AsWorld(w), Publish(worker, id, now));
    case CrashOf(worker) =>
      StepKeepsInv(AsWorld(w), Crash(worker));
  }

  lemma HandOverKeepsTable(w: TableWorld, worker: Worker, id: EventId)
    ensures TableHandOver(w, worker, id).table == w.table
  {}

  lemma {:induction false} TableRunKeepsInv(w: TableWorld, ops: seq<TableOp>)
    requires TableOk(w.table) && Inv(AsWorld(w))
    ensures TableOk(TableRun(w, ops).table) && Inv(AsWorld(TableRun(w, ops)))
    decreases |ops|
  {
    if ops != [] {
      TableStepKeepsInv(w, ops[0]);
      hide Inv, TableStep, TableOk, AsWorld;
      TableRunKeepsInv(TableStep(w, ops[0]), ops[1..]);
    }
  }

  /** In every reachable state the store that the table is read as agrees with it. */
  lemma TableReachable(ops: seq<TableOp>)
    ensures var w := TableRun(EmptyTable, ops); TableOk(w.table) && Inv(AsWorld(w)) && Agree(AsWorld(w).store, w.table)
  {
    assert AsWorld(EmptyTable) == Empty;
    TableRunKeepsInv(EmptyTable, ops);
    AsStoreAgrees(TableRun(EmptyTable, ops).table);
    hide TableRun, Inv, TableOk, Agree;
  }

  /** On the table, too, two leases of one event never overlap. */
  lemma TableLeasesNeverOverlap(ops: seq<TableOp>, g: Grant, h: Grant)
    requires g in TableRun(EmptyTable, ops).grants && h in TableRun(EmptyTable, ops).grants && g.event == h.event
             && g != h
    ensures g.until <= h.from || h.until <= g.from
  {
    TableReachable(ops);
    hide TableRun;
  }

  /** On the table, too, an event is published at most once, and only after it was handed over as appended. */
  lemma TablePublishesOnce(ops: seq<TableOp>, e: EventId)
    requires e in TableRun(EmptyTable, ops).table
    ensures var w := TableRun(EmptyTable, ops);
            && multiset(w.publications)[e] == (if w.table[e].published.Some? then 1 else 0)
            && (w.table[e].published.Some? ==> (e, w.table[e].event) in w.delivered && w.table[e].lease.None?)
  {
    TableReachable(ops);
    hide TableRun, GrantsOk;
    DistinctCount(TableRun(EmptyTable, ops).publications, e);
  }

  lemma TableStepKeepsRow(w: TableWorld, op: TableOp, e: EventId)
    requires e in w.table
    ensures e in TableStep(w, op).table && TableStep(w, op).table[e].event == w.table[e].event
    ensures w.table[e].published.Some? ==> TableStep(w, op).table[e].published == w.table[e].published
  {
    assert op.ClaimRows? && op.chosen <= SqlEligible(w.table, op.now)
           ==> forall x | x in op.chosen :: w.table[x].published.None? by {
      assert op.ClaimRows? && op.chosen <= SqlEligible(w.table, op.now)
             ==> forall x | x in op.chosen :: x in SqlEligible(w.table, op.now);
    }
    hide SqlEligible;
  }

  /** What was appended to the table is never altered, and its time of publication is written once. */
  lemma {:induction false} RowIsWriteOnce(w: TableWorld, ops: seq<TableOp>, e: EventId)
    requires e in w.table
    ensures e in TableRun(w, ops).table && TableRun(w, ops).table[e].event == w.table[e].event
    ensures w.table[e].published.Some? ==> TableRun(w, ops).table[e].published == w.table[e].published
    decreases |ops|
  {
    if ops != [] {
      TableStepKeepsRow(w, ops[0], e);
      hide TableStep;
      RowIsWriteOnce(TableStep(w, ops[0]), ops[1..], e);
    }
  }

  /** Sorted by occurrence, then id. */
  ghost predicate Sorted(events: map<EventId, Event>, order: seq<EventId>) {
    && (forall e | e in order :: e in events)
    && forall i, j | 0 <= i < j < |order| :: Before(events, order[i], order[j])
  }

  /** A choice of `limit` members that come before all others is the first `limit`. */
  lemma PrefixIsFirst(events: map<EventId, Event>, s: set<EventId>, p: set<EventId>, limit: nat)
    requires s <= events.Keys && p <= s && |p| == limit
             && forall x, y | x in p && y in s && y !in p :: Before(events, x, y)
    ensures First(events, s, limit) == p
  {
    forall e | e in s ensures Rank(events, s, e) < limit <==> e in p {
      if e in p {
        assert Earlier(events, s, e) <= p - {e};
        SubsetCard(Earlier(events, s, e), p - {e});
      } else {
        SubsetCard(p, Earlier(events, s, e));
      }
    }
    hide Rank, Before;
  }
}
