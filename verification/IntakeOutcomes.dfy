/** What the steps of a public submission come to, exactly, and the budget of a client over whole runs. The
    statements look at the tables, the calls in flight and the history only. */
module IntakeOutcomes {
  import opened Common
  import opened Preflight
  import opened Intake
  import Circuit
  import Budget

  // ----- the budget of a client -----

  /** Every slot of the rate table counts the submissions of its client that came past the check in its window. */
  ghost predicate RatesOk(cfg: Config, w: World) {
    cfg.window >= 1 && forall client, start | start % cfg.window == 0 :: SlotOk(cfg, w, client, start)
  }

  ghost predicate SlotOk(cfg: Config, w: World, client: string, start: Time) {
    Budget.Used(w.db.rates, client, start) == Budget.CountIn(w.grants, client, start, start + cfg.window)
    <= cfg.submissionLimit
  }

  lemma CheckKeepsSlot(cfg: Config, w: World, rid: Rid, now: Time, client: string, start: Time)
    requires ValidConfig(cfg) && start % cfg.window == 0 && SlotOk(cfg, w, client, start)
    ensures SlotOk(cfg, StepCheck(cfg, w, rid, now), client, start)
  {
    if rid in w.calls {
      Budget.SameWindow(cfg.window, now, start);
      Budget.CountAppends(w.grants, Budget.Use(w.calls[rid].s.client, now), client, start, start + cfg.window);
    }
    hide Budget.CountIn, Budget.WindowStart, Circuit.Blocks, Circuit.Consumed, Backlog;
  }

  /** No other step touches the rate table. */
  lemma OthersKeepRates(cfg: Config, w: World, op: Op)
    requires cfg.window >= 1 && !op.Check?
    ensures Step(cfg, w, op).db.rates == w.db.rates && Step(cfg, w, op).grants == w.grants
  {
    hide Backlog, NewEvents, Project;
  }

  lemma StepKeepsRates(cfg: Config, w: World, op: Op)
    requires ValidConfig(cfg) && RatesOk(cfg, w)
    ensures RatesOk(cfg, Step(cfg, w, op))
  {
    if op.Check? {
      hide StepCheck, SlotOk;
      forall client, start | start % cfg.window == 0 ensures SlotOk(cfg, Step(cfg, w, op), client, start) {
        CheckKeepsSlot(cfg, w, op.rid, op.now, client, start);
      }
    } else {
      OthersKeepRates(cfg, w, op);
      hide Step;
      forall client, start | start % cfg.window == 0 ensures SlotOk(cfg, Step(cfg, w, op), client, start) {
        assert SlotOk(cfg, w, client, start);
      }
    }
  }

  lemma {:induction false} RunKeepsRates(cfg: Config, w: World, ops: seq<Op>)
    requires ValidConfig(cfg) && RatesOk(cfg, w)
    ensures RatesOk(cfg, Run(cfg, w, ops))
    decreases |ops|
  {
    if ops != [] {
      StepKeepsRates(cfg, w, ops[0]);
      hide Step, RatesOk;
      RunKeepsRates(cfg, Step(cfg, w, ops[0]), ops[1..]);
    }
  }

  lemma SlotsCount(cfg: Config, ops: seq<Op>, client: string, start: Time)
    requires ValidConfig(cfg) && start % cfg.window == 0
    ensures SlotOk(cfg, Run(cfg, Empty, ops), client, start)
  {
    RunKeepsRates(cfg, Empty, ops);
    hide Run, SlotOk;
  }

  lemma OpenSlotCounts(cfg: Config, ops: seq<Op>, client: string, now: Time)
    requires ValidConfig(cfg)
    ensures SlotOk(cfg, Run(cfg, Empty, ops), client, now - now % cfg.window)
  {
    Budget.WindowStartIsMultiple(cfg.window, now);
    hide Run, SlotOk;
    SlotsCount(cfg, ops, client, Budget.WindowStart(cfg.window, now));
  }

  /** Over every run, at most the limit of submissions of one client come past the check within one aligned
      window, and at most twice the limit within any window-long interval. */
  lemma SubmissionBound(cfg: Config, ops: seq<Op>, client: string, from: Time)
    requires ValidConfig(cfg)
    ensures var grants := Run(cfg, Empty, ops).grants;
            && (from % cfg.window == 0 ==>
                  Budget.CountIn(grants, client, from, from + cfg.window) <= cfg.submissionLimit)
            && Budget.CountIn(grants, client, from, from + cfg.window) <= 2 * cfg.submissionLimit
  {
    var start := Budget.WindowStart(cfg.window, from);
    Budget.WindowStartIsMultiple(cfg.window, from);
    hide Run, Budget.CountIn, Budget.WindowStart;
    SlotsCount(cfg, ops, client, start);
    SlotsCount(cfg, ops, client, start + cfg.window);
    if from % cfg.window == 0 { SlotsCount(cfg, ops, client, from); }
    Budget.AlignedBound(Run(cfg, Empty, ops).grants, cfg.submissionLimit, cfg.window, client, from);
  }

  // ----- what one step does, exactly -----

  /** The number of events that wait to be published. */
  ghost function Waiting(db: Db): nat { |set e | e in db.outbox && db.outbox[e].published.None?| }

  /** What the tables say about each other in every reachable state. */
  lemma CompletedIsStored(cfg: Config, ops: seq<Op>, k: Key)
    requires ValidConfig(cfg)
    ensures var db := Run(cfg, Empty, ops).db;
            && (k in db.reservations && db.reservations[k].completed.Some? <==> k in db.requests)
            && (k in db.requests ==>
                  db.requests[k].rid == db.reservations[k].rid && db.requests[k].payload == db.reservations[k].payload)
  {
    Reachable(cfg, ops);
    var w := Run(cfg, Empty, ops);
    hide Run, CallsOk, AnswersOk, OneKeyEach, DeliveryOk, BacklogOk, CircuitOk;
    if k in w.db.requests { assert RequestOk(w, k, w.db.requests[k]); }
  }

  lemma CallsAreStored(cfg: Config, ops: seq<Op>, rid: Rid)
    requires ValidConfig(cfg) && rid in Run(cfg, Empty, ops).calls
    ensures var w := Run(cfg, Empty, ops);
            if w.calls[rid].Committed? || w.calls[rid].Projected? then Stored(w.db, rid) else rid !in w.db.index
  {
    Reachable(cfg, ops);
    var w := Run(cfg, Empty, ops);
    hide Run, TablesOk, AnswersOk, OneKeyEach, DeliveryOk, BacklogOk, CircuitOk;
    assert CallOk(w, rid, w.calls[rid]);
  }

  lemma EventsAreStored(cfg: Config, ops: seq<Op>, e: EventId)
    requires ValidConfig(cfg) && e in Run(cfg, Empty, ops).db.outbox
    ensures var db := Run(cfg, Empty, ops).db; Stored(db, e.call) && db.outbox[e].rid == e.call
  {
    Reachable(cfg, ops);
    hide Run, IntakeOk, ShemaOk, ReadyOk, BacklogOk, CircuitOk;
    assert EventOk(Run(cfg, Empty, ops).db, e, Run(cfg, Empty, ops).db.outbox[e]);
  }

  lemma ReserveExactly(w: World, s: Submission, rid: Rid, now: Time)
    requires rid !in w.used
    requires s.key in w.db.reservations && w.db.reservations[s.key].completed.Some? ==>
               s.key in w.db.requests && w.db.requests[s.key].rid == w.db.reservations[s.key].rid
    ensures var kept := w.db.reservations;
            StepReserve(w, rid, s, now) ==
            if s.key !in kept || (kept[s.key].completed.None? && kept[s.key].until <= now) then
              w.(db := w.db.(reservations := kept[s.key := Reservation(s.payload, rid, now + 120, None)]),
                 used := w.used + {rid}, calls := w.calls[rid := Reserved(s)])
            else if kept[s.key].completed.Some? && kept[s.key].payload == s.payload then
              w.(answers := w.answers + {(s, kept[s.key].rid)})
            else w
  {}

  /** A submission takes the reservation of its key, is answered from it, or changes nothing. */
  lemma ReserveOutcome(cfg: Config, ops: seq<Op>, s: Submission, rid: Rid, now: Time)
    requires ValidConfig(cfg) && rid !in Run(cfg, Empty, ops).used
    ensures var w := Run(cfg, Empty, ops);
            var kept := w.db.reservations;
            Step(cfg, w, Reserve(rid, s, now)) ==
            if s.key !in kept || (kept[s.key].completed.None? && kept[s.key].until <= now) then
              w.(db := w.db.(reservations := kept[s.key := Reservation(s.payload, rid, now + 120, None)]),
                 used := w.used + {rid}, calls := w.calls[rid := Reserved(s)])
            else if kept[s.key].completed.Some? && kept[s.key].payload == s.payload then
              w.(answers := w.answers + {(s, kept[s.key].rid)})
            else w
  {
    hide Run;
    CompletedIsStored(cfg, ops, s.key);
    ReserveExactly(Run(cfg, Empty, ops), s, rid, now);
  }


  lemma CheckExactly(cfg: Config, w: World, rid: Rid, now: Time)
    requires cfg.window >= 1 && cfg.submissionLimit >= 1 && rid in w.calls && w.calls[rid].Reserved?
    requires SlotOk(cfg, w, w.calls[rid].s.client, now - now % cfg.window)
    ensures var w' := StepCheck(cfg, w, rid, now);
            var s, row := w.calls[rid].s, w.db.circuit;
            var start := now - now % cfg.window;
            var tripped := row.Some? && row.value.tripped.Some? && now < row.value.tripped.value;
            if tripped || Waiting(w.db) >= cfg.maxPending then w' == w.(calls := w.calls - {rid})
            else if s.key in w.db.requests then
              && w'.calls == w.calls - {rid} && w'.grants == w.grants
              && (if w.db.requests[s.key].payload == s.payload then
                    && w'.answers == w.answers + {(s, w.db.requests[s.key].rid)}
                    && w'.admissions == w.admissions + [now] && w'.db == w.db.(circuit := w'.db.circuit)
                  else w' == w.(calls := w.calls - {rid}))
            else if Budget.CountIn(w.grants, s.client, start, start + cfg.window) < cfg.submissionLimit then
              && w' == w.(db := w'.db, calls := w.calls[rid := Checked(s, now)], admissions := w.admissions + [now],
                          grants := w.grants + [Budget.Use(s.client, now)])
              && w'.db == w.db.(circuit := w'.db.circuit, rates := w'.db.rates)
            else w' == w.(calls := w.calls - {rid})
  {
    hide Budget.CountIn, Circuit.Consumed;
  }

  /** A submission comes past the check exactly if the circuit is not tripped, there is room in the outbox, its
      key has no request yet, and its client has had fewer than the limit in this window; a key that has a
      request answers the payload it was made for. The circuit counts both, and neither else. */
  lemma CheckOutcome(cfg: Config, ops: seq<Op>, rid: Rid, now: Time)
    requires ValidConfig(cfg)
    requires var w := Run(cfg, Empty, ops); rid in w.calls && w.calls[rid].Reserved?
    ensures var w := Run(cfg, Empty, ops);
            var w' := Step(cfg, w, Check(rid, now));
            var s, row := w.calls[rid].s, w.db.circuit;
            var start := now - now % cfg.window;
            var tripped := row.Some? && row.value.tripped.Some? && now < row.value.tripped.value;
            if tripped || Waiting(w.db) >= cfg.maxPending then w' == w.(calls := w.calls - {rid})
            else if s.key in w.db.requests then
              && w'.calls == w.calls - {rid} && w'.grants == w.grants
              && (if w.db.requests[s.key].payload == s.payload then
                    && w'.answers == w.answers + {(s, w.db.requests[s.key].rid)}
                    && w'.admissions == w.admissions + [now] && w'.db == w.db.(circuit := w'.db.circuit)
                  else w' == w.(calls := w.calls - {rid}))
            else if Budget.CountIn(w.grants, s.client, start, start + cfg.window) < cfg.submissionLimit then
              && w' == w.(db := w'.db, calls := w.calls[rid := Checked(s, now)], admissions := w.admissions + [now],
                          grants := w.grants + [Budget.Use(s.client, now)])
              && w'.db == w.db.(circuit := w'.db.circuit, rates := w'.db.rates)
            else w' == w.(calls := w.calls - {rid})
  {
    hide Run, Budget.CountIn, StepCheck, SlotOk;
    OpenSlotCounts(cfg, ops, Run(cfg, Empty, ops).calls[rid].s.client, now);
    CheckExactly(cfg, Run(cfg, Empty, ops), rid, now);
  }

  /** The follow-up of a stored request: its decision comes before the flag of an unavailable provider. */
  ghost function Extra(p: Snapshot): Option<Kind> {
    match p.decision
    case Attention => Some(AttentionKind)
    case BlockingFact => Some(BlockingKind)
    case _ => if ProviderUnavailable in p.flags then Some(ProviderKind) else None
  }

  /** The events that a request is stored with: one, and for a request that is no spam its follow-up. */
  ghost function Owed(r: Record): map<EventId, OutEvent> {
    var first := OutEvent(r.rid, if r.spam then SpamQuarantined else NewRequest, !r.spam, r.created, None, None, 0);
    if r.spam || Extra(r.snapshot).None? then map[EventId(r.rid, None) := first]
    else
      var kind := Extra(r.snapshot).value;
      map[EventId(r.rid, None) := first,
          EventId(r.rid, Some(kind)) := OutEvent(r.rid, FollowUp(kind), true, r.created, None, None, 0)]
  }

  lemma OwedIsNew(r: Record)
    ensures NewEvents(r) == Owed(r)
  {}

  lemma CommitExactly(cfg: Config, w: World, rid: Rid, now: Time)
    requires rid in w.calls && w.calls[rid].Screened? && rid !in w.db.index
    requires var k := w.calls[rid].s.key;
             k in w.db.reservations && k !in w.db.requests ==> w.db.reservations[k].completed.None?
    ensures var w', Screened(s, at, snapshot) := StepCommit(cfg, w, rid, now), w.calls[rid];
            var ended := w.(calls := w.calls - {rid});
            if s.key in w.db.requests then
              w' == if w.db.requests[s.key].payload == s.payload
                    then ended.(answers := w.answers + {(s, w.db.requests[s.key].rid)}) else ended
            else if Waiting(w.db) < cfg.maxPending && s.key in w.db.reservations && w.db.reservations[s.key].rid == rid
            then
              var r := Record(rid, s.key, s.payload, s.spam, snapshot, at, None);
              && w' == w.(db := w'.db, answers := w.answers + {(s, rid)}, calls := w.calls[rid := Committed(s, r)])
              && w'.db == w.db.(
                   requests := w.db.requests[s.key := r], index := w.db.index[rid := s.key],
                   outbox := Owed(r) + w.db.outbox,
                   reservations := w.db.reservations[s.key := w.db.reservations[s.key].(completed := Some(now))])
            else w' == ended
  {
    var Screened(s, at, snapshot) := w.calls[rid];
    OwedIsNew(Record(rid, s.key, s.payload, s.spam, snapshot, at, None));
    hide NewEvents, Owed;
  }

  /** A screened submission is stored exactly if its key has no request yet, there is room in the outbox, and it
      still owns the reservation; a key that has a request answers the payload it was made for. */
  lemma CommitOutcome(cfg: Config, ops: seq<Op>, rid: Rid, now: Time)
    requires ValidConfig(cfg)
    requires var w := Run(cfg, Empty, ops); rid in w.calls && w.calls[rid].Screened?
    ensures var w := Run(cfg, Empty, ops);
            var w', Screened(s, at, snapshot) := Step(cfg, w, CommitRequest(rid, now)), w.calls[rid];
            var ended := w.(calls := w.calls - {rid});
            if s.key in w.db.requests then
              w' == if w.db.requests[s.key].payload == s.payload
                    then ended.(answers := w.answers + {(s, w.db.requests[s.key].rid)}) else ended
            else if Waiting(w.db) < cfg.maxPending && s.key in w.db.reservations && w.db.reservations[s.key].rid == rid
            then
              var r := Record(rid, s.key, s.payload, s.spam, snapshot, at, None);
              && w' == w.(db := w'.db, answers := w.answers + {(s, rid)}, calls := w.calls[rid := Committed(s, r)])
              && w'.db == w.db.(
                   requests := w.db.requests[s.key := r], index := w.db.index[rid := s.key],
                   outbox := Owed(r) + w.db.outbox,
                   reservations := w.db.reservations[s.key := w.db.reservations[s.key].(completed := Some(now))])
            else w' == ended
  {
    hide Run;
    CallsAreStored(cfg, ops, rid);
    CompletedIsStored(cfg, ops, Run(cfg, Empty, ops).calls[rid].s.key);
    hide Stored, StepCommit, Owed;
    CommitExactly(cfg, Run(cfg, Empty, ops), rid, now);
  }

  // ----- projection and publication -----

  /** The notification with this id is owed to a request: here the flag comes before the decision. */
  ghost predicate Owes(r: Record, n: NoticeId) {
    && n.rid == r.rid && !r.spam
    && match n.suffix
       case None => true
       case Some(ProviderKind) => ProviderUnavailable in r.snapshot.flags
       case Some(AttentionKind) => r.snapshot.decision == Attention && ProviderUnavailable !in r.snapshot.flags
       case Some(BlockingKind) => r.snapshot.decision == BlockingFact && ProviderUnavailable !in r.snapshot.flags
  }

  /** The context of the request is its snapshot; the notifications it is owed are there, each with that snapshot
      and the severity of its kind, and those that were there are as they were. */
  ghost predicate IsProjected(d: Shema, d': Shema, r: Record, now: Time) {
    && d'.contexts == d.contexts[r.rid := r.snapshot]
    && (forall n :: n in d'.notices <==> n in d.notices || Owes(r, n))
    && (forall n | n in d.notices :: d'.notices[n] == d.notices[n])
    && (forall n | n in d'.notices && n !in d.notices ::
          d'.notices[n] == Notice(
            match n.suffix case None => Info case Some(BlockingKind) => HighLevel case Some(_) => AttentionLevel,
            r.snapshot, now))
  }

  lemma ProjectExactly(d: Shema, r: Record, now: Time)
    ensures IsProjected(d, Project(d, r, now), r, now)
  {
    forall n ensures n in NoticesOf(r) <==> Owes(r, n) {
      match n.suffix
      case None => assert n.rid == r.rid ==> n == NoticeId(r.rid, None);
      case Some(kind) => assert n.rid == r.rid ==> n == NoticeId(r.rid, Some(kind));
    }
    hide NoticesOf, Owes;
  }

  /** A submission projects the request it has stored, a dispatcher that of the event it holds; nothing else
      changes but that the event may be published. */
  lemma ProjectionOutcome(cfg: Config, ops: seq<Op>, rid: Rid, worker: Worker, e: EventId, now: Time)
    requires ValidConfig(cfg)
    ensures var w := Run(cfg, Empty, ops);
            var w' := Step(cfg, w, ProjectOwn(rid, now));
            if rid in w.calls && w.calls[rid].Committed? then
              var Committed(s, r) := w.calls[rid];
              IsProjected(w.shema, w'.shema, r, now)
              && w' == w.(shema := w'.shema, calls := w.calls[rid := Projected(s, r)])
            else w' == w
    ensures var w := Run(cfg, Empty, ops);
            var w' := Step(cfg, w, ProjectEvent(worker, e, now));
            if (worker, e) in w.held && e in w.db.outbox && w.db.outbox[e].notify then
              Stored(w.db, e.call) && IsProjected(w.shema, w'.shema, RequestOf(w.db, e.call), now)
              && w' == w.(shema := w'.shema, ready := w.ready + {(worker, e)})
            else w' == w
  {
    var w := Run(cfg, Empty, ops);
    hide Run, Project, IsProjected;
    if rid in w.calls && w.calls[rid].Committed? { ProjectExactly(w.shema, w.calls[rid].record, now); }
    if e in w.db.outbox {
      EventsAreStored(cfg, ops, e);
      ProjectExactly(w.shema, RequestOf(w.db, e.call), now);
    }
  }

  /** A claim leases an event for a minute exactly if it is unpublished and no lease on it is live. */
  lemma ClaimOutcome(cfg: Config, w: World, worker: Worker, e: EventId, now: Time)
    requires cfg.window >= 1
    ensures var o := w.db.outbox;
            Step(cfg, w, ClaimEvent(worker, e, now)) ==
            if e in o && o[e].published.None? && (o[e].lease.Some? ==> o[e].lease.value.until <= now) then
              var leased := o[e].(lease := Some(Lease(worker, now + 60)), attempt := o[e].attempt + 1);
              w.(db := w.db.(outbox := o[e := leased]),
                 held := w.held + {(worker, e)})
            else w
  {}

  /** The projection marker of the request that an event belongs to, unless it has one. */
  ghost function Marked(db: Db, rid: Rid, now: Time): map<Key, Record>
    requires Stored(db, rid)
  {
    if RequestOf(db, rid).projected.Some? then db.requests
    else db.requests[db.index[rid] := RequestOf(db, rid).(projected := Some(now))]
  }

  /** A dispatcher publishes an event that it holds, with the marker of its request if the event notifies,
      exactly if its lease is still live and the event is unpublished. */
  lemma PublishOutcome(cfg: Config, ops: seq<Op>, worker: Worker, e: EventId, now: Time)
    requires ValidConfig(cfg)
    requires var w := Run(cfg, Empty, ops);
             (worker, e) in w.held && e in w.db.outbox && (w.db.outbox[e].notify ==> (worker, e) in w.ready)
    ensures var w := Run(cfg, Empty, ops);
            var o := w.db.outbox[e];
            Stored(w.db, e.call) &&
            Step(cfg, w, PublishEvent(worker, e, now)) ==
            if o.published.None? && o.lease.Some? && o.lease.value.worker == worker && now < o.lease.value.until then
              w.(db := w.db.(outbox := w.db.outbox[e := o.(published := Some(now), lease := None)],
                             requests := if o.notify then Marked(w.db, e.call, now) else w.db.requests),
                 held := w.held - {(worker, e)}, ready := w.ready - {(worker, e)})
            else w
  {
    hide Run;
    EventsAreStored(cfg, ops, e);
    var w := Run(cfg, Empty, ops);
    var k := w.db.index[e.call];
    assert w.db.requests[k := w.db.requests[k]] == w.db.requests;
  }

  /** A submission that has projected its request marks it, unless a dispatcher has, and ends. */
  lemma MarkOutcome(cfg: Config, ops: seq<Op>, rid: Rid, now: Time)
    requires ValidConfig(cfg)
    requires var w := Run(cfg, Empty, ops); rid in w.calls && w.calls[rid].Projected?
    ensures var w := Run(cfg, Empty, ops);
            Stored(w.db, rid) &&
            Step(cfg, w, MarkOwn(rid, now))
            == w.(db := w.db.(requests := Marked(w.db, rid, now)), calls := w.calls - {rid})
  {
    hide Run;
    CallsAreStored(cfg, ops, rid);
    var w := Run(cfg, Empty, ops);
    var k := w.db.index[rid];
    assert w.db.requests[k := w.db.requests[k]] == w.db.requests;
  }

  // ----- errors -----

  /** Why a submission is turned away, whatever the tables say. */
  lemma SubmissionErrors(cfg: Config, db: Db, s: Submission, rid: Rid, snapshot: Snapshot, at: Time, now: Time)
    requires cfg.window >= 1
    ensures var tx := ReserveTx(db, s, rid, now);
            var kept := s.key in db.reservations;
            && (tx == Raise(InProgress) <==>
                  kept && db.reservations[s.key].completed.None? && now < db.reservations[s.key].until
                  && db.reservations[s.key].payload == s.payload)
            && (tx == Raise(PayloadConflict) <==>
                  kept && db.reservations[s.key].payload != s.payload
                  && (db.reservations[s.key].completed.Some? || now < db.reservations[s.key].until))
    ensures var tx, row := CheckTx(cfg, db, s, now), db.circuit;
            var tripped := row.Some? && row.value.tripped.Some? && now < row.value.tripped.value;
            var full := Waiting(db) >= cfg.maxPending;
            && (tx == Raise(CircuitOpen) <==> tripped)
            && (tx == Raise(OutboxFull) <==> !tripped && full)
            && (tx == Raise(PayloadConflict) <==>
                  !tripped && !full && s.key in db.requests && db.requests[s.key].payload != s.payload)
            && (tx == Raise(BudgetExceeded) ==> !tripped && !full && s.key !in db.requests)
    ensures var tx := CommitTx(cfg, db, s, rid, snapshot, at, now);
            var full, known := Waiting(db) >= cfg.maxPending, s.key in db.requests;
            && (tx == Raise(PayloadConflict) <==> known && db.requests[s.key].payload != s.payload)
            && (tx == Raise(OutboxFull) <==> !known && full)
            && (tx == Raise(DuplicateRequestId) <==> !known && !full && rid in db.index)
            && (tx == Raise(CompletionRejected) <==>
                  !known && !full && rid !in db.index
                  && !(s.key in db.reservations && db.reservations[s.key].rid == rid))
  {
    hide NewEvents, Budget.Consume, Circuit.Consumed;
  }
}
