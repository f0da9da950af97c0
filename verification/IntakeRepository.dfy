/** The intake repository, its projection and its dispatcher as objects that update their tables in place. */
module IntakeRepository {
  import opened Common
  import opened Preflight
  import opened Intake
  import Circuit
  import Budget

  class PublicIntakeRepository {
    var reservations: map<Key, Reservation>
    var requests: map<Key, Record>
    var index: map<Rid, Key>
    var circuit: Option<Circuit.Row>
    var rates: Budget.Rates
    var outbox: map<EventId, OutEvent>

    constructor (db: Db)
      ensures Tables() == db
    {
      reservations, requests, index := db.reservations, db.requests, db.index;
      circuit, rates, outbox := db.circuit, db.rates, db.outbox;
    }

    function Tables(): Db
      reads this
    {
      Db(reservations, requests, index, circuit, rates, outbox)
    }

    method Rollback(snapshot: Db)
      modifies this
      ensures Tables() == snapshot
    {
      reservations, requests, index := snapshot.reservations, snapshot.requests, snapshot.index;
      circuit, rates, outbox := snapshot.circuit, snapshot.rates, snapshot.outbox;
    }

    /** The conditional upsert: it writes only over an expired, uncompleted reservation. */
    method ReserveIdempotency(s: Submission, rid: Rid, now: Time) returns (tx: Tx<Db, Reply, IntakeError>)
      modifies this
      ensures tx == ReserveTx(old(Tables()), s, rid, now)
      ensures Tables() == if tx.Commit? then tx.db else old(Tables())
    {
      var free := s.key !in reservations;
      if !free {
        var existing := reservations[s.key];
        free := existing.completed.None? && existing.until <= now;
      }
      if free {
        reservations := reservations[s.key := Reservation(s.payload, rid, now + RESERVATION_SECONDS, None)];
        return Commit(Tables(), Proceed);
      }
      var existing := reservations[s.key];
      if existing.payload != s.payload {
        return Raise(PayloadConflict);
      }
      if existing.completed.Some? {
        if s.key !in requests {
          return Raise(MissingRequest);
        }
        return Commit(Tables(), Existing(requests[s.key]));
      }
      tx := Raise(if existing.until > now then InProgress else CouldNotAcquire);
    }

    method ConsumeGlobalCircuit(limit: nat, window: nat, now: Time) returns (open: bool)
      modifies this`circuit
      ensures open == Circuit.Blocks(old(circuit), now)
      ensures circuit == if open then old(circuit) else Some(Circuit.Consumed(old(circuit), limit, window, now))
    {
      if circuit.None? {
        circuit := Some(Circuit.Row(now, 1, if 1 >= limit then Some(now + window) else None));
        return false;
      }
      var start, used := circuit.value.start, circuit.value.used;
      if circuit.value.tripped.Some? && circuit.value.tripped.value > now {
        return true;
      }
      if now >= start + window {
        start, used := now, 0;
      }
      var next := used + 1;
      circuit := Some(Circuit.Row(start, next, if next >= limit then Some(now + window) else None));
      open := false;
    }

    method ConsumeBudget(client: string, limit: nat, window: nat, now: Time) returns (granted: bool)
      requires window >= 1
      modifies this`rates
      ensures var next := Budget.Consume(old(rates), client, limit, window, now);
              granted == next.Some? && rates == if granted then next.value else old(rates)
    {
      var slot := Budget.Slot(client, Budget.WindowStart(window, now));
      if slot in rates && rates[slot] >= limit {
        return false;
      }
      rates := rates[slot := if slot in rates then rates[slot] + 1 else 1];
      granted := true;
    }

    /** The second unit of work of a submission. */
    method Check(cfg: Config, s: Submission, now: Time) returns (tx: Tx<Db, Reply, IntakeError>)
      requires cfg.window >= 1
      modifies this
      ensures tx == CheckTx(cfg, old(Tables()), s, now)
      ensures Tables() == if tx.Commit? then tx.db else old(Tables())
    {
      hide Circuit.Blocks, Circuit.Consumed, Budget.Consume, Backlog;
      var snapshot := Tables();
      var open := ConsumeGlobalCircuit(cfg.circuitLimit, cfg.window, now);
      if open {
        return Raise(CircuitOpen);
      }
      if Backlog(outbox) >= cfg.maxPending {
        Rollback(snapshot);
        return Raise(OutboxFull);
      }
      if s.key in requests {
        if requests[s.key].payload != s.payload {
          Rollback(snapshot);
          return Raise(PayloadConflict);
        }
        return Commit(Tables(), Existing(requests[s.key]));
      }
      var granted := ConsumeBudget(s.client, cfg.submissionLimit, cfg.window, now);
      if !granted {
        Rollback(snapshot);
        return Raise(BudgetExceeded);
      }
      tx := Commit(Tables(), Proceed);
    }

    /** An insert that leaves an event already there alone. */
    method AppendOutbox(e: EventId, rid: Rid, kind: EventKind, notify: bool, at: Time)
      modifies this`outbox
      ensures outbox == map[e := OutEvent(rid, kind, notify, at, None, None, 0)] + old(outbox)
    {
      if e !in outbox {
        outbox := outbox[e := OutEvent(rid, kind, notify, at, None, None, 0)];
      }
    }

    method CompleteIdempotency(key: Key, rid: Rid, now: Time) returns (completed: bool)
      modifies this`reservations
      ensures completed == (key in old(reservations) && old(reservations)[key].rid == rid)
      ensures reservations ==
              if completed && old(reservations)[key].completed.None?
              then old(reservations)[key := old(reservations)[key].(completed := Some(now))] else old(reservations)
    {
      if key in reservations && reservations[key].rid == rid && reservations[key].completed.None? {
        reservations := reservations[key := reservations[key].(completed := Some(now))];
        return true;
      }
      completed := key in reservations && reservations[key].rid == rid;
    }

    /** The events of a new request, in the order in which they are appended. */
    method AppendEvents(r: Record)
      modifies this`outbox
      ensures outbox == NewEvents(r) + old(outbox)
    {
      ghost var was := outbox;
      AppendOutbox(EventId(r.rid, None), r.rid, if r.spam then SpamQuarantined else NewRequest, !r.spam, r.created);
      var follow := SubmitFollowUp(r.snapshot);
      if !r.spam && follow.Some? {
        AppendOutbox(EventId(r.rid, follow), r.rid, FollowUp(follow.value), true, r.created);
      }
      assert NewEvents(r) + was == outbox;
    }

    /** The third unit of work of a submission. */
    method CommitRequest(cfg: Config, s: Submission, rid: Rid, snapshot: Snapshot, created: Time, now: Time)
      returns (tx: Tx<Db, Reply, IntakeError>)
      modifies this
      ensures tx == CommitTx(cfg, old(Tables()), s, rid, snapshot, created, now)
      ensures Tables() == if tx.Commit? then tx.db else old(Tables())
    {
      hide NewEvents, Backlog;
      var before := Tables();
      if s.key in requests {
        if requests[s.key].payload != s.payload {
          return Raise(PayloadConflict);
        }
        return Commit(Tables(), Existing(requests[s.key]));
      }
      if Backlog(outbox) >= cfg.maxPending {
        return Raise(OutboxFull);
      }
      if rid in index {
        return Raise(DuplicateRequestId);
      }
      var r := Record(rid, s.key, s.payload, s.spam, snapshot, created, None);
      requests := requests[s.key := r];
      index := index[rid := s.key];
      AppendEvents(r);
      var completed := CompleteIdempotency(s.key, rid, now);
      if !completed {
        Rollback(before);
        return Raise(CompletionRejected);
      }
      assert reservations == before.reservations[s.key := reservations[s.key]];
      tx := Commit(Tables(), Proceed);
    }

    method MarkProjected(rid: Rid, now: Time) returns (tx: Tx<Db, (), IntakeError>)
      modifies this`requests
      ensures tx == MarkTx(old(Tables()), rid, now)
      ensures Tables() == if tx.Commit? then tx.db else old(Tables())
    {
      if rid !in index || index[rid] !in requests {
        return Raise(UnknownRequest);
      }
      var r := requests[index[rid]];
      if r.projected.None? {
        requests := requests[index[rid] := r.(projected := Some(now))];
      }
      assert requests == old(requests)[index[rid] := requests[index[rid]]];
      tx := Commit(Tables(), ());
    }

    method MarkOutboxPublished(e: EventId, worker: Worker, now: Time) returns (published: bool)
      modifies this`outbox
      ensures published == (e in old(outbox) && LiveLease(old(outbox)[e], worker, now))
      ensures outbox == if published then old(outbox)[e := old(outbox)[e].(published := Some(now), lease := None)]
              else old(outbox)
    {
      if e !in outbox || !LiveLease(outbox[e], worker, now) {
        return false;
      }
      outbox := outbox[e := outbox[e].(published := Some(now), lease := None)];
      published := true;
    }

    /** The dispatcher's last unit of work for one event. */
    method Publish(e: EventId, worker: Worker, now: Time) returns (tx: Tx<Db, (), IntakeError>)
      modifies this
      ensures tx == PublishTx(old(Tables()), e, worker, now)
      ensures Tables() == if tx.Commit? then tx.db else old(Tables())
    {
      hide LiveLease;
      var snapshot := Tables();
      if e !in outbox {
        return Raise(PublicationRejected);
      }
      if outbox[e].notify {
        var marked := MarkProjected(outbox[e].rid, now);
        if marked.Raise? {
          return Raise(marked.error);
        }
      }
      var published := MarkOutboxPublished(e, worker, now);
      if !published {
        Rollback(snapshot);
        return Raise(PublicationRejected);
      }
      tx := Commit(Tables(), ());
    }

    /** Lease the chosen events, one row after the other. */
    method ClaimPending(ghost cfg: Config, ghost w: World, worker: Worker, now: Time, events: seq<EventId>)
      returns (ghost w': World)
      requires cfg.window >= 1 && w.db == Tables()
      requires forall i | 0 <= i < |events| :: events[i] in outbox && Claimable(outbox[events[i]], now)
      requires forall i, j | 0 <= i < j < |events| :: events[i] != events[j]
      modifies this
      ensures w' == Run(cfg, w, ClaimOps(worker, events, now)) && Tables() == w'.db
      ensures forall i | 0 <= i < |events| :: (worker, events[i]) in w'.held
    {
      w' := w;
      var i := 0;
      assert events[..0] == [];
      while i < |events|
        invariant 0 <= i <= |events| && Tables() == w'.db
        invariant w' == Run(cfg, w, ClaimOps(worker, events[..i], now))
        invariant forall j | i <= j < |events| :: events[j] in outbox && Claimable(outbox[events[j]], now)
        invariant forall j | 0 <= j < i :: (worker, events[j]) in w'.held
      {
        var e := events[i];
        outbox := outbox[e := ClaimedEvent(outbox[e], worker, now)];
        ClaimOpsGrow(worker, events[..i], e, now);
        RunAppends(cfg, w, ClaimOps(worker, events[..i], now), [ClaimEvent(worker, e, now)]);
        assert events[..i + 1] == events[..i] + [e];
        w' := Step(cfg, w', ClaimEvent(worker, e, now));
        i := i + 1;
      }
      assert events[..i] == events;
    }
  }

  function ClaimOps(worker: Worker, events: seq<EventId>, now: Time): seq<Op> {
    if events == [] then [] else [ClaimEvent(worker, events[0], now)] + ClaimOps(worker, events[1..], now)
  }

  lemma {:induction false} ClaimOpsGrow(worker: Worker, events: seq<EventId>, e: EventId, now: Time)
    ensures ClaimOps(worker, events + [e], now) == ClaimOps(worker, events, now) + [ClaimEvent(worker, e, now)]
  {
    if events != [] {
      assert (events + [e])[1..] == events[1..] + [e];
      ClaimOpsGrow(worker, events[1..], e, now);
    }
  }

  lemma {:induction false} RunAppends(cfg: Config, w: World, ops: seq<Op>, more: seq<Op>)
    requires cfg.window >= 1
    ensures Run(cfg, w, ops + more) == Run(cfg, Run(cfg, w, ops), more)
    decreases |ops|
  {
    if ops == [] {
      assert ops + more == more;
    } else {
      assert (ops + more)[1..] == ops[1..] + more;
      RunAppends(cfg, Step(cfg, w, ops[0]), ops[1..], more);
    }
  }

  class PublicRequestProjection {
    var contexts: map<Rid, Snapshot>
    var notices: map<NoticeId, Notice>

    constructor ()
      ensures contexts == map[] && notices == map[]
    {
      contexts, notices := map[], map[];
    }

    method ProjectNotification(n: NoticeId, snapshot: Snapshot, now: Time)
      modifies this`notices
      ensures notices == map[n := Notice(SeverityOf(n.suffix), snapshot, now)] + old(notices)
    {
      if n !in notices {
        notices := notices[n := Notice(SeverityOf(n.suffix), snapshot, now)];
      }
    }

    method Project(r: Record, now: Time)
      modifies this
      ensures Shema(contexts, notices) == Intake.Project(old(Shema(contexts, notices)), r, now)
    {
      ghost var was := notices;
      contexts := contexts[r.rid := r.snapshot];
      if r.spam {
        assert (map n | n in NoticesOf(r) :: Notice(SeverityOf(n.suffix), r.snapshot, now)) + was == notices;
        return;
      }
      ProjectNotification(NoticeId(r.rid, None), r.snapshot, now);
      var follow := ProjectionFollowUp(r.snapshot);
      if follow.Some? {
        ProjectNotification(NoticeId(r.rid, follow), r.snapshot, now);
      }
      assert (map n | n in NoticesOf(r) :: Notice(SeverityOf(n.suffix), r.snapshot, now)) + was == notices;
    }
  }

  /** What a dispatcher does for the events it has claimed. */
  function DispatchOps(worker: Worker, events: seq<EventId>, now: Time): seq<Op> {
    if events == [] then []
    else
      [ProjectEvent(worker, events[0], now), PublishEvent(worker, events[0], now)]
      + DispatchOps(worker, events[1..], now)
  }

  lemma {:induction false} DispatchOpsGrow(worker: Worker, events: seq<EventId>, e: EventId, now: Time)
    ensures DispatchOps(worker, events + [e], now)
         == DispatchOps(worker, events, now) + [ProjectEvent(worker, e, now), PublishEvent(worker, e, now)]
  {
    if events != [] {
      assert (events + [e])[1..] == events[1..] + [e];
      DispatchOpsGrow(worker, events[1..], e, now);
    }
  }

  function DispatchOne(w: World, worker: Worker, e: EventId, now: Time): World {
    StepPublish(StepProjectEvent(w, worker, e, now), worker, e, now)
  }

  lemma DispatchOneMore(cfg: Config, w: World, worker: Worker, events: seq<EventId>, e: EventId, now: Time)
    requires cfg.window >= 1
    ensures Run(cfg, w, DispatchOps(worker, events + [e], now))
         == DispatchOne(Run(cfg, w, DispatchOps(worker, events, now)), worker, e, now)
  {
    DispatchOpsGrow(worker, events, e, now);
    var ops := [ProjectEvent(worker, e, now), PublishEvent(worker, e, now)];
    RunAppends(cfg, w, DispatchOps(worker, events, now), ops);
    var mid := Run(cfg, w, DispatchOps(worker, events, now));
    hide StepProjectEvent, StepPublish;
    assert Run(cfg, mid, ops) == Run(cfg, Step(cfg, mid, ops[0]), ops[1..]);
    assert ops[1..] == [PublishEvent(worker, e, now)];
  }

  /** How many of the events notify an operator. */
  function Notifying(outbox: map<EventId, OutEvent>, events: seq<EventId>): nat {
    if events == [] then 0
    else Notifying(outbox, events[..|events| - 1])
         + if events[|events| - 1] in outbox && outbox[events[|events| - 1]].notify then 1 else 0
  }

  lemma NotifyingMore(outbox: map<EventId, OutEvent>, events: seq<EventId>, e: EventId)
    ensures Notifying(outbox, events + [e])
            == Notifying(outbox, events) + if e in outbox && outbox[e].notify then 1 else 0
  {
    assert (events + [e])[..|events|] == events;
  }

  ghost predicate PublishedAt(w: World, e: EventId, now: Time) {
    e in w.db.outbox && w.db.outbox[e].published == Some(now)
  }

  lemma PublishTxTouches(db: Db, e: EventId, worker: Worker, now: Time)
    ensures var tx := PublishTx(db, e, worker, now);
            && (e in db.outbox && db.outbox[e].notify && !Stored(db, db.outbox[e].rid) ==> tx.Raise?)
            && (tx.Commit? ==>
                  && e in db.outbox && tx.db.outbox[e] == db.outbox[e].(published := Some(now), lease := None)
                  && tx.db.outbox == db.outbox[e := tx.db.outbox[e]])
  {
    hide LiveLease;
  }

  lemma DispatchOneTouches(w: World, worker: Worker, e: EventId, now: Time)
    ensures var w' := DispatchOne(w, worker, e, now);
            && w'.db.outbox.Keys == w.db.outbox.Keys
            && (forall x | x in w.db.outbox ::
                  w'.db.outbox[x].notify == w.db.outbox[x].notify
                  && (x != e ==> w'.db.outbox[x] == w.db.outbox[x]))
            && (forall x | x in w.held && x.1 != e :: x in w'.held)
  {
    PublishTxTouches(w.db, e, worker, now);
    hide Project, PublishTx;
  }

  predicate Distinct(events: seq<EventId>) { forall i, j | 0 <= i < j < |events| :: events[i] != events[j] }

  /** After the first `n` events: the rest is still held, and the first `published` are published. */
  ghost predicate Dispatched(w: World, w': World, worker: Worker, events: seq<EventId>, n: nat, published: nat,
                             now: Time) {
    && w'.db.outbox.Keys == w.db.outbox.Keys
       && (forall e | e in w.db.outbox :: w'.db.outbox[e].notify == w.db.outbox[e].notify)
    && (forall j | n <= j < |events| :: (worker, events[j]) in w'.held)
    && published <= |events| && (forall j | 0 <= j < published :: PublishedAt(w', events[j], now))
  }

  lemma DispatchedOneMore(w: World, w': World, worker: Worker, events: seq<EventId>, n: nat, now: Time)
    requires n < |events| && Dispatched(w, w', worker, events, n, n, now)
    requires Distinct(events)
    ensures var w'' := DispatchOne(w', worker, events[n], now);
            && (worker, events[n]) in w'.held
            && Dispatched(w, w'', worker, events, n + 1, n, now)
            && (PublishedAt(w'', events[n], now) ==> Dispatched(w, w'', worker, events, n + 1, n + 1, now))
            && (events[n] in w'.db.outbox <==> events[n] in w.db.outbox)
            && (events[n] in w.db.outbox ==> w'.db.outbox[events[n]].notify == w.db.outbox[events[n]].notify)
  {
    hide DispatchOne;
    DispatchOneTouches(w', worker, events[n], now);
  }

  lemma PublishedSoFar(w: World, w': World, worker: Worker, events: seq<EventId>, n: nat, published: nat, now: Time)
    requires Dispatched(w, w', worker, events, n, published, now)
    ensures published <= |events| && forall i | 0 <= i < published :: PublishedAt(w', events[i], now)
  {}

  class PublicIntakeOutboxDispatcher {
    /** One event: project a notifying one from its stored request, then mark it published. */
    method DispatchEvent(ghost w: World, repository: PublicIntakeRepository, projector: PublicRequestProjection,
                         worker: Worker, e: EventId, now: Time)
      returns (ok: bool, notified: bool)
      requires w.db == repository.Tables() && w.shema == Shema(projector.contexts, projector.notices)
               && (worker, e) in w.held
      modifies repository, projector
      ensures var w' := DispatchOne(w, worker, e, now);
              && repository.Tables() == w'.db && Shema(projector.contexts, projector.notices) == w'.shema
              && (ok ==> PublishedAt(w', e, now) && e in w.db.outbox && notified == w.db.outbox[e].notify)
    {
      PublishTxTouches(w.db, e, worker, now);
      hide Intake.Project, PublishTx;
      if e !in repository.outbox {
        return false, false;
      }
      notified := repository.outbox[e].notify;
      if notified {
        var rid := repository.outbox[e].rid;
        if rid !in repository.index || repository.index[rid] !in repository.requests {
          return false, false;
        }
        projector.Project(repository.requests[repository.index[rid]], now);
      }
      var published := repository.Publish(e, worker, now);
      ok := published.Commit?;
    }

    /** The next event of the loop. */
    method DispatchNext(ghost cfg: Config, ghost w: World, ghost w': World, repository: PublicIntakeRepository,
                        projector: PublicRequestProjection, worker: Worker, events: seq<EventId>, n: nat, now: Time)
      returns (ok: bool, notified: bool, ghost w'': World)
      requires cfg.window >= 1 && n < |events| && Distinct(events) && Dispatched(w, w', worker, events, n, n, now)
      requires w'.db == repository.Tables() && w'.shema == Shema(projector.contexts, projector.notices)
      requires w' == Run(cfg, w, DispatchOps(worker, events[..n], now))
      modifies repository, projector
      ensures repository.Tables() == w''.db && Shema(projector.contexts, projector.notices) == w''.shema
      ensures w'' == Run(cfg, w, DispatchOps(worker, events[..n + 1], now))
      ensures Dispatched(w, w'', worker, events, n + 1, if ok then n + 1 else n, now)
      ensures ok ==> Notifying(w.db.outbox, events[..n + 1])
                     == Notifying(w.db.outbox, events[..n]) + if notified then 1 else 0
    {
      hide DispatchOne, DispatchOps, Run, Dispatched, Notifying, PublishedAt, Distinct;
      assert events[..n + 1] == events[..n] + [events[n]];
      DispatchOneMore(cfg, w, worker, events[..n], events[n], now);
      DispatchedOneMore(w, w', worker, events, n, now);
      NotifyingMore(w.db.outbox, events[..n], events[n]);
      ok, notified := DispatchEvent(w', repository, projector, worker, events[n], now);
      w'' := DispatchOne(w', worker, events[n], now);
    }

    /** Dispatch the claimed events in order; `ok` is false when one of them raised, which ends the loop.
        Whatever happens, the tables are left where a run of the protocol leaves them. */
    method DispatchPending(ghost cfg: Config, ghost w: World, repository: PublicIntakeRepository,
                           projector: PublicRequestProjection, worker: Worker, events: seq<EventId>, now: Time)
      returns (ok: bool, projected: nat, done: nat, ghost w': World)
      requires cfg.window >= 1 && w.db == repository.Tables() && w.shema == Shema(projector.contexts, projector.notices)
      requires forall i | 0 <= i < |events| :: (worker, events[i]) in w.held
      requires Distinct(events)
      modifies repository, projector
      ensures done <= |events| && w' == Run(cfg, w, DispatchOps(worker, events[..done], now))
      ensures repository.Tables() == w'.db && Shema(projector.contexts, projector.notices) == w'.shema
      ensures if ok then done == |events| && projected == Notifying(w.db.outbox, events) else done > 0
      ensures forall i | 0 <= i < (if ok then done else done - 1) :: PublishedAt(w', events[i], now)
    {
      w', ok, projected, done := w, true, 0, 0;
      assert Dispatched(w, w, worker, events, 0, 0, now);
      assert DispatchOps(worker, events[..0], now) == [];
      assert Run(cfg, w, []) == w;
      hide DispatchOne, DispatchOps, Run, Dispatched, Notifying, PublishedAt, Distinct;
      while done < |events| && ok
        invariant 0 <= done <= |events| && (!ok ==> done > 0)
        invariant w' == Run(cfg, w, DispatchOps(worker, events[..done], now))
        invariant repository.Tables() == w'.db && Shema(projector.contexts, projector.notices) == w'.shema
        invariant ok ==> projected == Notifying(w.db.outbox, events[..done])
        invariant Dispatched(w, w', worker, events, done, if ok then done else done - 1, now)
      {
        var notified: bool;
        ok, notified, w' := DispatchNext(cfg, w, w', repository, projector, worker, events, done, now);
        if ok && notified {
          projected := projected + 1;
        }
        done := done + 1;
      }
      assert events[..|events|] == events;
      PublishedSoFar(w, w', worker, events, done, if ok then done else done - 1, now);
    }
  }

  lemma ReplaysReadOnly(cfg: Config, db: Db, s: Submission, rid: Rid, snapshot: Snapshot, created: Time, now: Time)
    ensures var tx := ReserveTx(db, s, rid, now); tx.Commit? && tx.answer.Existing? ==> tx.db == db
    ensures var tx := CommitTx(cfg, db, s, rid, snapshot, created, now);
            tx.Commit? && tx.answer.Existing?
            ==> tx.db == db
  {
    hide NewEvents, Backlog;
  }

  /** The steps of a submission that has been screened: commit, and project its request or not. */
  function CommitScreenedWorld(cfg: Config, w: World, rid: Rid, snapshot: Snapshot, projects: bool, committed: Time,
                               marked: Time): World {
    var stored := StepCommit(cfg, StepScreen(w, rid, snapshot), rid, committed);
    if projects then StepMarkOwn(StepProjectOwn(stored, rid, marked), rid, marked) else Drop(stored, rid)
  }

  lemma NothingToCommit(cfg: Config, w: World, rid: Rid, snapshot: Snapshot, projects: bool, committed: Time,
                        marked: Time)
    requires rid !in w.calls
    ensures var w' := CommitScreenedWorld(cfg, w, rid, snapshot, projects, committed, marked);
            w'.db == w.db && w'.shema == w.shema && w'.answers == w.answers
  {}

  /** The steps of a submission that holds its reservation, without interruption: `snapshot` is none when
      the preflight raises, and `projects` says whether the projection succeeds. */
  function SubmitReservedWorld(cfg: Config, w: World, rid: Rid, snapshot: Option<Snapshot>, projects: bool,
                               checked: Time, committed: Time, marked: Time): World
    requires cfg.window >= 1
  {
    var passed := StepCheck(cfg, w, rid, checked);
    if snapshot.None? then Drop(passed, rid)
      else CommitScreenedWorld(cfg, passed, rid, snapshot.value, projects, committed, marked)
  }

  class PublicIntakeService {
    const cfg: Config

    constructor (cfg: Config)
      ensures this.cfg == cfg
    {
      this.cfg := cfg;
    }

    /** The second and third unit of work with the preflight between them, and the projection after them. */
    method SubmitReserved(ghost w: World, repository: PublicIntakeRepository, projector: PublicRequestProjection,
                          s: Submission, rid: Rid,
                          snapshot: Option<Snapshot>, projects: bool, checked: Time, committed: Time, marked: Time)
      returns (answer: Option<Rid>)
      requires cfg.window >= 1 && rid in w.calls && w.calls[rid] == Reserved(s)
      requires w.db == repository.Tables() && w.shema == Shema(projector.contexts, projector.notices)
      modifies repository, projector
      ensures var w' := SubmitReservedWorld(cfg, w, rid, snapshot, projects, checked, committed, marked);
              && repository.Tables() == w'.db && Shema(projector.contexts, projector.notices) == w'.shema
              && w'.answers == if answer.Some? then w.answers + {(s, answer.value)} else w.answers
    {
      hide CheckTx, CommitScreenedWorld;
      ghost var passed := StepCheck(cfg, w, rid, checked);
      if snapshot.Some? && rid !in passed.calls {
        NothingToCommit(cfg, passed, rid, snapshot.value, projects, committed, marked);
      }
      var admitted := repository.Check(cfg, s, checked);
      if admitted.Raise? {
        return None;
      }
      if admitted.answer.Existing? {
        return Some(admitted.answer.record.rid);
      }
      if snapshot.None? {
        return None;
      }
      answer := CommitScreened(passed, repository, projector, s, rid, snapshot.value, projects, checked, committed,
                               marked);
    }

    /** The third unit of work, and the projection after it. */
    method CommitScreened(ghost w: World, repository: PublicIntakeRepository, projector: PublicRequestProjection,
                          s: Submission, rid: Rid,
                          snapshot: Snapshot, projects: bool, checked: Time, committed: Time, marked: Time)
      returns (answer: Option<Rid>)
      requires rid in w.calls && w.calls[rid] == Checked(s, checked)
      requires w.db == repository.Tables() && w.shema == Shema(projector.contexts, projector.notices)
      modifies repository, projector
      ensures var w' := CommitScreenedWorld(cfg, w, rid, snapshot, projects, committed, marked);
              && repository.Tables() == w'.db && Shema(projector.contexts, projector.notices) == w'.shema
              && w'.answers == if answer.Some? then w.answers + {(s, answer.value)} else w.answers
    {
      hide CommitTx, MarkTx, Intake.Project;
      ReplaysReadOnly(cfg, repository.Tables(), s, rid, snapshot, checked, committed);
      var stored := repository.CommitRequest(cfg, s, rid, snapshot, checked, committed);
      if stored.Raise? {
        return None;
      }
      if stored.answer.Existing? {
        return Some(stored.answer.record.rid);
      }
      if projects {
        projector.Project(Record(rid, s.key, s.payload, s.spam, snapshot, checked, None), marked);
        var done := repository.MarkProjected(rid, marked);
      }
      answer := Some(rid);
    }

    /** One submission. Repository and projection are left where the protocol leaves them, and the client is
        answered exactly when the protocol records an answer. */
    method Submit(ghost w: World, repository: PublicIntakeRepository, projector: PublicRequestProjection,
                  s: Submission, rid: Rid,
                  snapshot: Option<Snapshot>, projects: bool, reserved: Time, checked: Time, committed: Time,
                    marked: Time)
      returns (answer: Option<Rid>)
      requires cfg.window >= 1 && rid !in w.used && rid !in w.calls
      requires w.db == repository.Tables() && w.shema == Shema(projector.contexts, projector.notices)
      modifies repository, projector
      ensures var w1 := StepReserve(w, rid, s, reserved);
              var w' := if rid in w1.calls
                        then SubmitReservedWorld(cfg, w1, rid, snapshot, projects, checked, committed, marked)
                        else w1;
              && repository.Tables() == w'.db && Shema(projector.contexts, projector.notices) == w'.shema
              && w'.answers == if answer.Some? then w.answers + {(s, answer.value)} else w.answers
    {
      hide ReserveTx, SubmitReservedWorld;
      ReplaysReadOnly(cfg, repository.Tables(), s, rid, Snapshot(0, Normal, NotChecked, []), reserved, reserved);
      var reservation := repository.ReserveIdempotency(s, rid, reserved);
      if reservation.Raise? {
        return None;
      }
      if reservation.answer.Existing? {
        return Some(reservation.answer.record.rid);
      }
      answer := SubmitReserved(StepReserve(w, rid, s, reserved), repository, projector, s, rid, snapshot, projects,
                               checked, committed, marked);
    }
  }
}
