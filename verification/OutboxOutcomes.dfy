/** What one call on the outbox does, exactly, on the reference and on the table. The statements look at entries, leases
    and rows only. */
module OutboxOutcomes {
  import opened Common
  import opened Outbox

  /** The order of a claim: by occurrence, then by id. */
  ghost predicate Precedes(a: Event, x: EventId, b: Event, y: EventId) { a.at < b.at || (a.at == b.at && x < y) }

  /** `chosen` are the first events among `from`, as many as there are up to the limit. */
  ghost predicate AreFirst(events: map<EventId, Event>, from: set<EventId>, chosen: set<EventId>, limit: nat)
    requires from <= events.Keys
  {
    && chosen <= from && |chosen| == (if |from| <= limit then |from| else limit)
    && forall e, x | e in chosen && x in from && x !in chosen :: Precedes(events[e], e, events[x], x)
  }

  lemma EarlierRanksLower(events: map<EventId, Event>, s: set<EventId>, x: EventId, e: EventId)
    requires s <= events.Keys && x in s && e in s && Before(events, x, e)
    ensures Rank(events, s, x) < Rank(events, s, e)
  {
    assert x in Earlier(events, s, e) && x !in Earlier(events, s, x);
    SubsetCard(Earlier(events, s, x), Earlier(events, s, e));
  }

  lemma FirstAreFirst(events: map<EventId, Event>, from: set<EventId>, limit: nat)
    requires from <= events.Keys
    ensures AreFirst(events, from, First(events, from, limit), limit)
  {
    FirstCard(events, from, limit);
    FirstIsSubset(events, from, limit);
    var chosen := First(events, from, limit);
    forall e, x | e in chosen && x in from && x !in chosen ensures Precedes(events[e], e, events[x], x) {
      if Before(events, x, e) { EarlierRanksLower(events, from, x, e); }
    }
  }

  /** Unpublished, and without a live lease. */
  ghost function Free(s: Store, now: Time): set<EventId> {
    set e | e in s.entries && s.entries[e].published == false && (e in s.leases ==> s.leases[e].until <= now)
  }

  /** The rows that have occurred also. */
  ghost function FreeRows(t: Table, now: Time): set<EventId> {
    set e | e in t && t[e].published.None? && t[e].event.at <= now
            && (t[e].lease.Some? ==> t[e].lease.value.until <= now)
  }

  lemma SelectedIsFree(t: Table, now: Time, limit: nat)
    ensures SqlSelected(t, now, limit) == First(RowEvents(t), SqlEligible(t, now), limit)
    ensures forall e | e in SqlSelected(t, now, limit) :: e in t && t[e].published.None?
    ensures FreeRows(t, now) <= RowEvents(t).Keys
  {
    hide First;
    FirstIsSubset(RowEvents(t), SqlEligible(t, now), limit);
  }

  /** A claim on the reference leases the first of the unpublished events without a live lease, and leaves all others
      alone. */
  lemma ClaimOutcome(s: Store, worker: Worker, seconds: nat, now: Time, limit: nat)
    ensures var s' := Claim(s, worker, seconds, now, limit);
            var free := Free(s, now);
            var chosen := Selected(s, now, limit);
            && free <= Events(s).Keys && AreFirst(Events(s), free, chosen, limit) && s'.entries == s.entries
            && (forall e :: e in s'.leases <==> e in s.leases || e in chosen)
            && (forall e | e in s'.leases ::
                  s'.leases[e] ==
                  if e !in chosen then s.leases[e]
                  else Delivery(if e in s.leases then s.leases[e].attempt + 1 else 1, worker, now + seconds))
  {
    FirstAreFirst(Events(s), Eligible(s, now), limit);
    assert Eligible(s, now) == Free(s, now);
    hide First, AreFirst, Free, Eligible;
  }

  /** A claim on the table, when no row is locked, takes only events that have occurred. */
  lemma SqlClaimOutcome(t: Table, worker: Worker, seconds: nat, now: Time, limit: nat)
    ensures var t' := SqlClaim(t, worker, seconds, now, limit);
            var free := FreeRows(t, now);
            var chosen := SqlSelected(t, now, limit);
            && free <= RowEvents(t).Keys && AreFirst(RowEvents(t), free, chosen, limit) && t'.Keys == t.Keys
            && (forall e | e in t ::
                  t'[e] == if e !in chosen then t[e]
                           else Row(t[e].event, None, t[e].attempt + 1, Some(Lease(worker, now + seconds))))
  {
    FirstAreFirst(RowEvents(t), SqlEligible(t, now), limit);
    assert SqlEligible(t, now) == FreeRows(t, now);
    SelectedIsFree(t, now, limit);
    hide First, AreFirst, FreeRows, SqlEligible, SqlSelected;
  }

  /** A row that has been claimed is one that is unpublished, has occurred, and has no live lease, whatever rows were
      locked. */
  lemma ChoiceOutcome(t: Table, chosen: set<EventId>, limit: nat, now: Time)
    ensures Choosable(t, chosen, limit, now) <==>
              |chosen| <= limit
              && forall e | e in chosen ::
                   e in t && t[e].published.None? && t[e].event.at <= now
                   && (t[e].lease.Some? ==> t[e].lease.value.until <= now)
  {}

  /** An event is appended once. The reference reports it when it is appended again after its publication, the table
      does not. */
  lemma AppendOutcome(s: Store, t: Table, id: EventId, event: Event)
    ensures Append(s, id, event)
            == if id !in s.entries then Commit(Store(s.entries[id := Entry(event, false)], s.leases), ())
               else if s.entries[id].event == event && !s.entries[id].published then Commit(s, ())
               else Raise(IdCollision)
    ensures SqlAppend(t, id, event)
            == if id !in t then Commit(t[id := Row(event, None, 0, None)], ())
               else if t[id].event == event then Commit(t, ()) else Raise(IdCollision)
  {}

  /** Only the holder of a live lease publishes; that ends the lease and keeps everything else. */
  lemma PublishOutcome(s: Store, t: Table, id: EventId, worker: Worker, now: Time)
    ensures var marked := MarkPublished(s, id, worker, now);
            if id in s.entries && id in s.leases && s.leases[id].worker == worker && now < s.leases[id].until then
              marked == Commit(Store(s.entries[id := Entry(s.entries[id].event, true)], s.leases - {id}),
                               s.entries[id].event)
            else marked.Raise?
    ensures var marked := SqlMarkPublished(t, id, worker, now);
            if id in t && t[id].published.None? && t[id].lease.Some? && t[id].lease.value.worker == worker
               && now < t[id].lease.value.until then
              marked == Commit(t[id := Row(t[id].event, Some(now), t[id].attempt, None)], t[id].event)
            else marked.Raise?
  {}

  /** Why the reference rejects a publication: an event that the worker does not hold, or a lease that has run out. */
  lemma PublishErrors(s: Store, id: EventId, worker: Worker, now: Time)
    ensures var held := id in s.entries && id in s.leases && s.leases[id].worker == worker;
            && (MarkPublished(s, id, worker, now) == Raise(WrongWorker) <==> !held)
            && (MarkPublished(s, id, worker, now) == Raise(LeaseExpired) <==> held && s.leases[id].until <= now)
  {}
}
