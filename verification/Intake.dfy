/** The public intake: a leased idempotency reservation fenced by request id, a submission spread over
    three transactions, a bounded outbox, and an at-least-once projection into the operators' database.

    `Step` interleaves any number of submissions and dispatchers, one transaction at a time. */
module Intake {
  import opened Common
  import opened Preflight
  import Circuit
  import Budget

  type Key = string
  /** A fresh UUID per submission; the UUID of its outbox events is identified with it. */
  type Rid = nat
  type Worker = string
  type Time = int

  const RESERVATION_SECONDS: int := 120
  const DELIVERY_SECONDS: int := 60

  datatype Config = Config(circuitLimit: nat, window: nat, submissionLimit: nat, maxPending: nat)

  ghost predicate ValidConfig(cfg: Config) {
    cfg.circuitLimit >= 1 && cfg.window >= 1 && cfg.submissionLimit >= 1 && cfg.maxPending >= 1
  }

  /** What a client submits; the payload hash is taken as the payload itself. */
  datatype Submission = Submission(key: Key, payload: string, client: string, spam: bool)

  datatype Reservation = Reservation(payload: string, rid: Rid, until: Time, completed: Option<Time>)
  datatype Record = Record(rid: Rid, key: Key, payload: string, spam: bool, snapshot: Snapshot, created: Time,
                           projected: Option<Time>)

  datatype EventId = EventId(call: Rid, suffix: Option<Kind>)
  datatype EventKind = NewRequest | SpamQuarantined | FollowUp(kind: Kind)
  datatype Lease = Lease(worker: Worker, until: Time)
  datatype OutEvent = OutEvent(rid: Rid, kind: EventKind, notify: bool, at: Time, published: Option<Time>,
                               lease: Option<Lease>, attempt: nat)

  /** `index` is the primary key of the request table: the key under which a request id is stored. */
  datatype Db = Db(
    reservations: map<Key, Reservation>, requests: map<Key, Record>, index: map<Rid, Key>,
    circuit: Option<Circuit.Row>, rates: Budget.Rates, outbox: map<EventId, OutEvent>)

  datatype IntakeError =
    | PayloadConflict | MissingRequest | InProgress | CouldNotAcquire | CircuitOpen | OutboxFull
    | BudgetExceeded | DuplicateRequestId | CompletionRejected | UnknownRequest | PublicationRejected

  datatype Reply = Proceed | Existing(record: Record)

  /** First transaction: take the reservation, or answer from a completed one. */
  function ReserveTx(db: Db, s: Submission, rid: Rid, now: Time): Tx<Db, Reply, IntakeError> {
    if s.key !in db.reservations
       || (db.reservations[s.key].completed.None? && db.reservations[s.key].until <= now) then
      var r := Reservation(s.payload, rid, now + RESERVATION_SECONDS, None);
      Commit(db.(reservations := db.reservations[s.key := r]), Proceed)
    else
      var r := db.reservations[s.key];
      if r.payload != s.payload then Raise(PayloadConflict)
      else if r.completed.Some? then
        if s.key in db.requests then Commit(db, Existing(db.requests[s.key])) else Raise(MissingRequest)
      else if r.until > now then Raise(InProgress)
      else Raise(CouldNotAcquire)
  }

  function Pending(outbox: map<EventId, OutEvent>): set<EventId> { set e | e in outbox && outbox[e].published.None? }

  function Backlog(outbox: map<EventId, OutEvent>): nat { |Pending(outbox)| }

  function AnswerExisting(db: Db, s: Submission): Tx<Db, Reply, IntakeError>
    requires s.key in db.requests
  {
    if db.requests[s.key].payload != s.payload then Raise(PayloadConflict) else Commit(db, Existing(db.requests[s.key]))
  }

  /** Second transaction: circuit, outbox capacity, and the client's budget. */
  function CheckTx(cfg: Config, db: Db, s: Submission, now: Time): Tx<Db, Reply, IntakeError>
    requires cfg.window >= 1
  {
    if Circuit.Blocks(db.circuit, now) then Raise(CircuitOpen)
    else
      var passed := db.(circuit := Some(Circuit.Consumed(db.circuit, cfg.circuitLimit, cfg.window, now)));
      if Backlog(db.outbox) >= cfg.maxPending then Raise(OutboxFull)
      else if s.key in db.requests then AnswerExisting(passed, s)
      else
        var rates := Budget.Consume(db.rates, s.client, cfg.submissionLimit, cfg.window, now);
        if rates.None? then Raise(BudgetExceeded) else Commit(passed.(rates := rates.value), Proceed)
  }

  /** The outbox events of a committed request, with their kind and whether they notify. */
  function EventsOf(r: Record): map<EventId, (EventKind, bool)> {
    var follow := SubmitFollowUp(r.snapshot);
    if r.spam then map[EventId(r.rid, None) := (SpamQuarantined, false)]
    else if follow.Some? then
      map[EventId(r.rid, None) := (NewRequest, true), EventId(r.rid, follow) := (FollowUp(follow.value), true)]
    else map[EventId(r.rid, None) := (NewRequest, true)]
  }

  function NewEvents(r: Record): map<EventId, OutEvent> {
    map e | e in EventsOf(r) :: OutEvent(r.rid, EventsOf(r)[e].0, EventsOf(r)[e].1, r.created, None, None, 0)
  }

  /** Third transaction: store the request with its events and complete the reservation. */
  function CommitTx(cfg: Config, db: Db, s: Submission, rid: Rid, snapshot: Snapshot, created: Time, now: Time)
    : Tx<Db, Reply, IntakeError> {
    if s.key in db.requests then AnswerExisting(db, s)
    else if Backlog(db.outbox) >= cfg.maxPending then Raise(OutboxFull)
    else if rid in db.index then Raise(DuplicateRequestId)
    else if s.key !in db.reservations || db.reservations[s.key].rid != rid then Raise(CompletionRejected)
    else
      var r := Record(rid, s.key, s.payload, s.spam, snapshot, created, None);
      var reservation := db.reservations[s.key];
      Commit(db.(requests := db.requests[s.key := r], index := db.index[rid := s.key],
                 outbox := NewEvents(r) + db.outbox,
                 reservations := db.reservations[s.key :=
                   if reservation.completed.None? then reservation.(completed := Some(now)) else reservation]),
             Proceed)
  }

  /** The projection marker, written once. */
  function MarkTx(db: Db, rid: Rid, now: Time): Tx<Db, (), IntakeError> {
    if rid !in db.index || db.index[rid] !in db.requests then Raise(UnknownRequest)
    else
      var r := db.requests[db.index[rid]];
      var marked := if r.projected.None? then r.(projected := Some(now)) else r;
      Commit(db.(requests := db.requests[db.index[rid] := marked]), ())
  }

  predicate Claimable(o: OutEvent, now: Time) {
    o.published.None? && (o.lease.None? || o.lease.value.until <= now)
  }

  function ClaimedEvent(o: OutEvent, worker: Worker, now: Time): OutEvent {
    o.(lease := Some(Lease(worker, now + DELIVERY_SECONDS)), attempt := o.attempt + 1)
  }

  predicate LiveLease(o: OutEvent, worker: Worker, now: Time) {
    o.published.None? && o.lease.Some? && o.lease.value.worker == worker && o.lease.value.until > now
  }

  /** A dispatcher's last transaction for one event; a notifying event is marked projected with it. */
  function PublishTx(db: Db, e: EventId, worker: Worker, now: Time): Tx<Db, (), IntakeError> {
    if e !in db.outbox then Raise(PublicationRejected)
    else
      var o := db.outbox[e];
      var marked := if o.notify then MarkTx(db, o.rid, now) else Commit(db, ());
      if marked.Raise? then Raise(marked.error)
      else if !LiveLease(o, worker, now) then Raise(PublicationRejected)
      else Commit(marked.db.(outbox := db.outbox[e := o.(published := Some(now), lease := None)]), ())
  }

  // ----- the operators' database -----

  datatype NoticeId = NoticeId(rid: Rid, suffix: Option<Kind>)
  datatype Severity = Info | AttentionLevel | HighLevel
  datatype Notice = Notice(severity: Severity, snapshot: Snapshot, at: Time)
  datatype Shema = Shema(contexts: map<Rid, Snapshot>, notices: map<NoticeId, Notice>)

  function SeverityOf(k: Option<Kind>): Severity {
    match k case None => Info case Some(BlockingKind) => HighLevel case Some(_) => AttentionLevel
  }

  /** The notifications a request is owed. */
  function NoticesOf(r: Record): set<NoticeId> {
    var follow := ProjectionFollowUp(r.snapshot);
    if r.spam then {}
    else if follow.Some? then {NoticeId(r.rid, None), NoticeId(r.rid, follow)}
    else {NoticeId(r.rid, None)}
  }

  /** One projection: upsert the context, insert the notifications that are not there yet. */
  function Project(d: Shema, r: Record, now: Time): Shema {
    Shema(d.contexts[r.rid := r.snapshot],
          (map n | n in NoticesOf(r) :: Notice(SeverityOf(n.suffix), r.snapshot, now)) + d.notices)
  }

  // ----- interleavings -----

  datatype Phase =
    | Reserved(s: Submission)
    | Checked(s: Submission, at: Time)
    | Screened(s: Submission, at: Time, snapshot: Snapshot)
    | Committed(s: Submission, record: Record)
    | Projected(s: Submission, record: Record)

  /** `admissions` and `grants` are history: the times at which the circuit let a submission through, and the
      clients and times of the submissions that came past the whole check. `answers` holds what `submit` has
      told its clients. */
  datatype World = World(
    db: Db, shema: Shema, calls: map<Rid, Phase>, used: set<Rid>,
    held: set<(Worker, EventId)>, ready: set<(Worker, EventId)>,
    answers: set<(Submission, Rid)>, admissions: seq<Time>, grants: seq<Budget.Use>)

  datatype Op =
    | Reserve(rid: Rid, s: Submission, now: Time)
    | Check(rid: Rid, now: Time)
    | Screen(rid: Rid, snapshot: Snapshot)
    | CommitRequest(rid: Rid, now: Time)
    | ProjectOwn(rid: Rid, now: Time)
    | MarkOwn(rid: Rid, now: Time)
    | DropCall(rid: Rid)
    | ClaimEvent(worker: Worker, event: EventId, now: Time)
    | ProjectEvent(worker: Worker, event: EventId, now: Time)
    | PublishEvent(worker: Worker, event: EventId, now: Time)
    | DropWorker(worker: Worker)

  function Drop(w: World, rid: Rid): World { w.(calls := w.calls - {rid}) }

  function StepReserve(w: World, rid: Rid, s: Submission, now: Time): World {
    if rid in w.used then w
    else
      var tx := ReserveTx(w.db, s, rid, now);
      if tx.Raise? then w
      else if tx.answer.Existing? then w.(answers := w.answers + {(s, tx.answer.record.rid)})
      else w.(db := tx.db, used := w.used + {rid}, calls := w.calls[rid := Reserved(s)])
  }

  function StepCheck(cfg: Config, w: World, rid: Rid, now: Time): World
    requires cfg.window >= 1
  {
    if rid !in w.calls || !w.calls[rid].Reserved? then w
    else
      var s := w.calls[rid].s;
      var tx := CheckTx(cfg, w.db, s, now);
      if tx.Raise? then Drop(w, rid)
      else
        var w' := w.(db := tx.db, admissions := w.admissions + [now]);
        if tx.answer.Existing? then Drop(w'.(answers := w.answers + {(s, tx.answer.record.rid)}), rid)
        else w'.(calls := w.calls[rid := Checked(s, now)], grants := w.grants + [Budget.Use(s.client, now)])
  }

  function StepScreen(w: World, rid: Rid, snapshot: Snapshot): World {
    if rid !in w.calls || !w.calls[rid].Checked? then w
    else w.(calls := w.calls[rid := Screened(w.calls[rid].s, w.calls[rid].at, snapshot)])
  }

  function StepCommit(cfg: Config, w: World, rid: Rid, now: Time): World {
    if rid !in w.calls || !w.calls[rid].Screened? then w
    else
      var Screened(s, at, snapshot) := w.calls[rid];
      var tx := CommitTx(cfg, w.db, s, rid, snapshot, at, now);
      if tx.Raise? then Drop(w, rid)
      else if tx.answer.Existing? then Drop(w.(answers := w.answers + {(s, tx.answer.record.rid)}), rid)
      else w.(db := tx.db, answers := w.answers + {(s, rid)},
              calls := w.calls[rid := Committed(s, Record(rid, s.key, s.payload, s.spam, snapshot, at, None))])
  }

  function StepProjectOwn(w: World, rid: Rid, now: Time): World {
    if rid !in w.calls || !w.calls[rid].Committed? then w
    else
      var Committed(s, r) := w.calls[rid];
      w.(shema := Project(w.shema, r, now), calls := w.calls[rid := Projected(s, r)])
  }

  function StepMarkOwn(w: World, rid: Rid, now: Time): World {
    if rid !in w.calls || !w.calls[rid].Projected? then w
    else
      var tx := MarkTx(w.db, rid, now);
      Drop(if tx.Raise? then w else w.(db := tx.db), rid)
  }

  function StepClaim(w: World, worker: Worker, e: EventId, now: Time): World {
    if e !in w.db.outbox || !Claimable(w.db.outbox[e], now) then w
    else
      w.(db := w.db.(outbox := w.db.outbox[e := ClaimedEvent(w.db.outbox[e], worker, now)]),
         held := w.held + {(worker, e)})
  }

  /** A notifying event is projected from the stored record before it may be published. */
  function StepProjectEvent(w: World, worker: Worker, e: EventId, now: Time): World {
    if (worker, e) !in w.held || e !in w.db.outbox || !w.db.outbox[e].notify then w
    else
      var rid := w.db.outbox[e].rid;
      if rid !in w.db.index || w.db.index[rid] !in w.db.requests then w
      else w.(shema := Project(w.shema, w.db.requests[w.db.index[rid]], now), ready := w.ready + {(worker, e)})
  }

  function StepPublish(w: World, worker: Worker, e: EventId, now: Time): World {
    if (worker, e) !in w.held || e !in w.db.outbox || (w.db.outbox[e].notify && (worker, e) !in w.ready) then w
    else
      var tx := PublishTx(w.db, e, worker, now);
      if tx.Raise? then w else w.(db := tx.db, held := w.held - {(worker, e)}, ready := w.ready - {(worker, e)})
  }

  function StepDropWorker(w: World, worker: Worker): World {
    w.(held := (set x | x in w.held && x.0 != worker), ready := (set x | x in w.ready && x.0 != worker))
  }

  function Step(cfg: Config, w: World, op: Op): World
    requires cfg.window >= 1
  {
    match op
    case Reserve(rid, s, now) => StepReserve(w, rid, s, now)
    case Check(rid, now) => StepCheck(cfg, w, rid, now)
    case Screen(rid, snapshot) => StepScreen(w, rid, snapshot)
    case CommitRequest(rid, now) => StepCommit(cfg, w, rid, now)
    case ProjectOwn(rid, now) => StepProjectOwn(w, rid, now)
    case MarkOwn(rid, now) => StepMarkOwn(w, rid, now)
    case DropCall(rid) => Drop(w, rid)
    case ClaimEvent(worker, e, now) => StepClaim(w, worker, e, now)
    case ProjectEvent(worker, e, now) => StepProjectEvent(w, worker, e, now)
    case PublishEvent(worker, e, now) => StepPublish(w, worker, e, now)
    case DropWorker(worker) => StepDropWorker(w, worker)
  }

  const Empty: World :=
    World(Db(map[], map[], map[], None, map[], map[]), Shema(map[], map[]), map[], {}, {}, {}, {}, [], [])

  function Run(cfg: Config, w: World, ops: seq<Op>): World
    requires cfg.window >= 1
    decreases |ops|
  {
    if ops == [] then w else Run(cfg, Step(cfg, w, ops[0]), ops[1..])
  }

  // ----- invariant -----

  /** A reservation is completed exactly when its request exists, with the same request id and payload. */
  ghost predicate TablesOk(w: World) {
    && (forall k | k in w.db.requests :: RequestOk(w, k, w.db.requests[k]))
    && (forall k | k in w.db.reservations ::
          w.db.reservations[k].rid in w.used && (w.db.reservations[k].completed.Some? ==> k in w.db.requests))
    && (forall i | i in w.db.index ::
          i in w.used && w.db.index[i] in w.db.requests && w.db.requests[w.db.index[i]].rid == i)
  }

  /** A request id reserves one key. */
  ghost predicate OneKeyEach(db: Db) {
    forall k, k' | k in db.reservations && k' in db.reservations :: db.reservations[k].rid == db.reservations[k'].rid
      ==> k == k'
  }

  ghost predicate RequestOk(w: World, k: Key, r: Record) {
    && r.key == k && k in w.db.reservations
    && w.db.reservations[k].completed.Some? && w.db.reservations[k].rid == r.rid
       && w.db.reservations[k].payload == r.payload
    && r.rid in w.db.index && w.db.index[r.rid] == k
  }

  ghost predicate CallsOk(w: World) { forall i | i in w.calls :: i in w.used && CallOk(w, i, w.calls[i]) }

  /** A live submission owns at most its own key, and nothing is stored under its id before it commits. */
  ghost predicate CallOk(w: World, rid: Rid, p: Phase) {
    && (forall k | k in w.db.reservations && w.db.reservations[k].rid == rid ::
          k == p.s.key && w.db.reservations[k].payload == p.s.payload)
    && (if p.Committed? || p.Projected? then IsStored(w, rid, p.record) else rid !in w.db.index)
    && (p.Projected? ==> rid in w.shema.contexts)
  }

  ghost predicate IsStored(w: World, rid: Rid, r: Record) {
    && rid in w.db.index && w.db.index[rid] in w.db.requests
    && r == w.db.requests[w.db.index[rid]].(projected := None) && r.rid == rid
  }

  ghost predicate AnswersOk(w: World) {
    forall x | x in w.answers ::
      && x.0.key in w.db.requests && w.db.requests[x.0.key].rid == x.1
      && w.db.requests[x.0.key].payload == x.0.payload
  }

  ghost predicate OutboxOk(db: Db) {
    && (forall e | e in db.outbox :: EventOk(db, e, db.outbox[e]))
    && (forall k | k in db.requests :: forall e | e in EventsOf(db.requests[k]) :: e in db.outbox)
  }

  /** The request with this id is stored. */
  ghost predicate Stored(db: Db, rid: Rid) { rid in db.index && db.index[rid] in db.requests }

  function RequestOf(db: Db, rid: Rid): Record
    requires Stored(db, rid)
  {
    db.requests[db.index[rid]]
  }

  ghost predicate EventOk(db: Db, e: EventId, o: OutEvent) {
    && o.rid == e.call && Stored(db, o.rid)
    && (var r := RequestOf(db, o.rid);
        && e in EventsOf(r) && EventsOf(r)[e] == (o.kind, o.notify)
        && (o.notify && o.published.Some? ==> r.projected.Some?))
  }

  ghost predicate ShemaOk(db: Db, shema: Shema) {
    && (forall i | i in shema.contexts :: ContextOk(db, shema, i))
    && (forall n | n in shema.notices :: n.rid in shema.contexts)
    && (forall k | k in db.requests && db.requests[k].projected.Some? :: db.requests[k].rid in shema.contexts)
  }

  /** A projected request has exactly the notifications it is owed. */
  ghost predicate ContextOk(db: Db, shema: Shema, i: Rid) {
    && Stored(db, i)
    && forall n: NoticeId | n.rid == i :: n in shema.notices <==> n in NoticesOf(RequestOf(db, i))
  }

  ghost predicate ReadyOk(w: World) {
    forall x | x in w.ready :: x.1 in w.db.outbox && w.db.outbox[x.1].rid in w.shema.contexts
  }

  ghost predicate BacklogOk(cfg: Config, w: World) { Backlog(w.db.outbox) <= cfg.maxPending + 1 }

  ghost predicate CircuitOk(cfg: Config, w: World) {
    && w.db.circuit == Circuit.StateAfter(None, cfg.circuitLimit, cfg.window, w.admissions)
    && w.admissions == Circuit.Admitted(None, cfg.circuitLimit, cfg.window, w.admissions)
  }

  /** Exactly-once. */
  ghost predicate IntakeOk(w: World) { TablesOk(w) && CallsOk(w) && AnswersOk(w) && OneKeyEach(w.db) }
  /** Events and projections. */
  ghost predicate DeliveryOk(w: World) { OutboxOk(w.db) && ShemaOk(w.db, w.shema) && ReadyOk(w) }

  ghost predicate Inv(cfg: Config, w: World) {
    IntakeOk(w) && DeliveryOk(w) && BacklogOk(cfg, w) && CircuitOk(cfg, w)
  }

  // ----- every step keeps the invariant -----

  lemma ReserveKeepsTables(w: World, rid: Rid, s: Submission, now: Time)
    requires TablesOk(w) && AnswersOk(w)
    ensures TablesOk(StepReserve(w, rid, s, now)) && AnswersOk(StepReserve(w, rid, s, now))
  {}

  lemma ReserveKeepsOwners(w: World, rid: Rid, s: Submission, now: Time)
    requires TablesOk(w) && OneKeyEach(w.db)
    ensures OneKeyEach(StepReserve(w, rid, s, now).db)
  {}

  lemma ReserveKeepsCalls(w: World, rid: Rid, s: Submission, now: Time)
    requires TablesOk(w) && CallsOk(w)
    ensures CallsOk(StepReserve(w, rid, s, now))
  {
    var w' := StepReserve(w, rid, s, now);
    if w'.db != w.db {
      assert rid !in w.db.index;
      assert forall k | k in w.db.reservations :: w.db.reservations[k].rid != rid;
      hide TablesOk;
      forall i | i in w'.calls ensures i in w'.used && CallOk(w', i, w'.calls[i]) {
        assert i != rid ==> CallOk(w, i, w.calls[i]);
      }
    }
  }

  /** The checks write nothing but the circuit and the budgets. */
  lemma CheckTouches(cfg: Config, db: Db, s: Submission, now: Time)
    requires cfg.window >= 1
    ensures var tx := CheckTx(cfg, db, s, now);
            tx.Commit? ==>
              && tx.db == db.(circuit := tx.db.circuit, rates := tx.db.rates)
              && !Circuit.Blocks(db.circuit, now)
              && tx.db.circuit == Some(Circuit.Consumed(db.circuit, cfg.circuitLimit, cfg.window, now))
              && (tx.answer.Existing? ==>
                    s.key in db.requests && tx.answer.record == db.requests[s.key]
                      && db.requests[s.key].payload == s.payload)
  {
    hide Circuit.Consumed, Circuit.Blocks, Budget.Consume, Backlog;
  }

  /** What the checks may change: the call moves on or ends, and an answer comes from a stored request. */
  ghost predicate Moves(w: World, w': World, rid: Rid) {
    && w'.db == w.db.(circuit := w'.db.circuit, rates := w'.db.rates) && w'.shema == w.shema && w'.used == w.used
    && (forall i | i in w'.calls ::
          && i in w.calls
          && (w'.calls[i] != w.calls[i] ==>
                i == rid && w.calls[i].Reserved? && w'.calls[i].Checked? && w'.calls[i].s == w.calls[i].s))
    && (forall x | x in w'.answers && x !in w.answers ::
          x.0.key in w.db.requests && w.db.requests[x.0.key].rid == x.1
            && w.db.requests[x.0.key].payload == x.0.payload)
  }

  lemma CheckKeepsIntake(cfg: Config, w: World, rid: Rid, now: Time)
    requires IntakeOk(w) && cfg.window >= 1
    ensures IntakeOk(StepCheck(cfg, w, rid, now))
  {
    hide StepCheck, TablesOk, OneKeyEach, CallsOk, AnswersOk;
    CheckMoves(cfg, w, rid, now);
    CheckedWorldIsOk(w, StepCheck(cfg, w, rid, now), rid);
  }

  lemma CheckMoves(cfg: Config, w: World, rid: Rid, now: Time)
    requires cfg.window >= 1
    ensures Moves(w, StepCheck(cfg, w, rid, now), rid)
  {
    if rid in w.calls && w.calls[rid].Reserved? {
      CheckTouches(cfg, w.db, w.calls[rid].s, now);
    }
    hide CheckTx;
  }

  lemma CheckedWorldIsOk(w: World, w': World, rid: Rid)
    requires IntakeOk(w) && Moves(w, w', rid)
    ensures IntakeOk(w')
  {
    forall i | i in w'.calls ensures CallOk(w', i, w'.calls[i]) { assert CallOk(w, i, w.calls[i]); }
  }

  lemma ProjectOwnKeepsIntake(w: World, rid: Rid, now: Time)
    requires IntakeOk(w)
    ensures IntakeOk(StepProjectOwn(w, rid, now))
  {}

  ghost predicate SameFacts(r: Record, r': Record) {
    r'.(projected := None) == r.(projected := None) && (r.projected.Some? ==> r' == r)
  }

  /** Stored requests stay as they are, up to one projection marker. */
  ghost predicate Grows(db: Db, db': Db) {
    forall i | Stored(db, i) :: Stored(db', i) && SameFacts(RequestOf(db, i), RequestOf(db', i))
  }

  lemma SameFactsSameEvents(r: Record, r': Record)
    requires SameFacts(r, r')
    ensures EventsOf(r) == EventsOf(r') && NoticesOf(r) == NoticesOf(r')
  {}

  lemma EventFrame(db: Db, db': Db, e: EventId, o: OutEvent)
    requires EventOk(db, e, o) && Grows(db, db')
    ensures EventOk(db', e, o)
  {
    SameFactsSameEvents(RequestOf(db, o.rid), RequestOf(db', o.rid));
    hide EventsOf, RequestOf, Stored;
  }

  lemma ContextFrame(db: Db, shema: Shema, db': Db, shema': Shema, i: Rid)
    requires ContextOk(db, shema, i) && Grows(db, db')
    requires forall n: NoticeId | n.rid == i :: n in shema'.notices <==> n in shema.notices
    ensures ContextOk(db', shema', i)
  {
    SameFactsSameEvents(RequestOf(db, i), RequestOf(db', i));
    hide NoticesOf, EventsOf, RequestOf, Stored;
  }

  /** The request `r` is stored together with its events. */
  ghost predicate Adds(db: Db, db': Db, r: Record) {
    && r.key !in db.requests && r.rid !in db.index && r.projected.None?
    && db'.requests == db.requests[r.key := r] && db'.index == db.index[r.rid := r.key]
    && db'.outbox == NewEvents(r) + db.outbox
  }

  lemma CommitAdds(cfg: Config, w: World, rid: Rid, now: Time)
    requires CallsOk(w)
    ensures var w' := StepCommit(cfg, w, rid, now);
            && w'.shema == w.shema && w'.ready == w.ready
            && (w'.db == w.db
                || (rid in w.calls && w.calls[rid].Screened?
                    && var Screened(s, at, snapshot) := w.calls[rid];
                       Adds(w.db, w'.db, Record(rid, s.key, s.payload, s.spam, snapshot, at, None))))
  {
    hide NewEvents, Backlog, IsStored;
  }

  lemma AddsGrows(db: Db, db': Db, r: Record)
    requires Adds(db, db', r)
    ensures Grows(db, db')
  {
    hide NewEvents;
  }

  lemma NewEventOk(db: Db, db': Db, r: Record, e: EventId)
    requires Adds(db, db', r) && e in EventsOf(r)
    ensures EventOk(db', e, NewEvents(r)[e])
  {}

  lemma AddsKeepsOutbox(db: Db, db': Db, r: Record)
    requires OutboxOk(db) && Adds(db, db', r)
    ensures OutboxOk(db')
  {
    AddsGrows(db, db', r);
    forall e | e in db'.outbox ensures EventOk(db', e, db'.outbox[e]) {
      if e in db.outbox { EventFrame(db, db', e, db.outbox[e]); } else { NewEventOk(db, db', r, e); }
    }
    hide EventOk, EventsOf, Grows;
  }

  lemma AddsKeepsShema(db: Db, db': Db, shema: Shema, r: Record)
    requires ShemaOk(db, shema) && Adds(db, db', r)
    ensures ShemaOk(db', shema)
  {
    AddsGrows(db, db', r);
    forall i | i in shema.contexts ensures ContextOk(db', shema, i) { ContextFrame(db, shema, db', shema, i); }
    hide ContextOk, Grows, NewEvents;
  }

  lemma CommitKeepsDelivery(cfg: Config, w: World, rid: Rid, now: Time)
    requires CallsOk(w) && DeliveryOk(w)
    ensures DeliveryOk(StepCommit(cfg, w, rid, now))
  {
    var w' := StepCommit(cfg, w, rid, now);
    CommitAdds(cfg, w, rid, now);
    hide StepCommit, OutboxOk, ShemaOk, NewEvents;
    if w'.db != w.db {
      var Screened(s, at, snapshot) := w.calls[rid];
      var r := Record(rid, s.key, s.payload, s.spam, snapshot, at, None);
      AddsKeepsOutbox(w.db, w'.db, r);
      AddsKeepsShema(w.db, w'.db, w.shema, r);
    }
  }

  /** Projecting a stored request, however often, leaves exactly the notifications it is owed. */
  lemma ProjectKeepsShema(db: Db, shema: Shema, r: Record, now: Time)
    requires ShemaOk(db, shema) && Stored(db, r.rid) && SameFacts(r, RequestOf(db, r.rid))
    ensures ShemaOk(db, Project(shema, r, now))
  {
    var shema' := Project(shema, r, now);
    SameFactsSameEvents(r, RequestOf(db, r.rid));
    assert Grows(db, db);
    assert forall n | n in NoticesOf(r) :: n.rid == r.rid;
    hide NoticesOf, Stored, SameFacts, RequestOf;
    forall i | i in shema'.contexts ensures ContextOk(db, shema', i) {
      if i != r.rid { ContextFrame(db, shema, db, shema', i); }
    }
  }

  lemma ProjectOwnKeepsDelivery(w: World, rid: Rid, now: Time)
    requires CallsOk(w) && DeliveryOk(w)
    ensures DeliveryOk(StepProjectOwn(w, rid, now))
  {
    if rid in w.calls && w.calls[rid].Committed? {
      assert CallOk(w, rid, w.calls[rid]);
      ProjectKeepsShema(w.db, w.shema, w.calls[rid].record, now);
      hide ShemaOk, OutboxOk, NoticesOf;
    }
  }

  lemma ProjectEventKeepsDelivery(w: World, worker: Worker, e: EventId, now: Time)
    requires TablesOk(w) && DeliveryOk(w)
    ensures DeliveryOk(StepProjectEvent(w, worker, e, now))
  {
    hide OutboxOk, NoticesOf;
    var w' := StepProjectEvent(w, worker, e, now);
    if w' != w {
      ProjectKeepsShema(w.db, w.shema, RequestOf(w.db, w.db.outbox[e].rid), now);
      hide ShemaOk;
    }
  }

  /** Every request keeps its facts, and the markers added are of projected requests. */
  ghost predicate Marks(db: Db, db': Db, shema: Shema) {
    && db'.index == db.index && db'.requests.Keys == db.requests.Keys
    && forall k | k in db.requests ::
         && SameFacts(db.requests[k], db'.requests[k])
         && (db'.requests[k].projected.Some? ==> db.requests[k].projected.Some? || db.requests[k].rid in shema.contexts)
  }

  lemma MarkMarks(db: Db, shema: Shema, rid: Rid, now: Time)
    requires Stored(db, rid) && RequestOf(db, rid).rid in shema.contexts
    ensures MarkTx(db, rid, now).Commit? && Marks(db, MarkTx(db, rid, now).db, shema)
    ensures MarkTx(db, rid, now).db.outbox == db.outbox && RequestOf(MarkTx(db, rid, now).db, rid).projected.Some?
  {}

  lemma MarksKeepsShema(db: Db, db': Db, shema: Shema)
    requires ShemaOk(db, shema) && Marks(db, db', shema)
    ensures ShemaOk(db', shema)
  {
    assert Grows(db, db');
    forall i | i in shema.contexts ensures ContextOk(db', shema, i) { ContextFrame(db, shema, db', shema, i); }
    hide ContextOk, Grows;
  }

  /** Requests are marked, and the rows in `outbox'` that differ are still in order. */
  lemma MarksKeepsOutbox(db: Db, db': Db, shema: Shema)
    requires OutboxOk(db) && Marks(db, db', shema) && db'.outbox.Keys == db.outbox.Keys
    requires forall e | e in db.outbox :: db'.outbox[e] == db.outbox[e] || EventOk(db', e, db'.outbox[e])
    ensures OutboxOk(db')
  {
    assert Grows(db, db');
    forall e | e in db.outbox ensures EventOk(db', e, db'.outbox[e]) {
      if db'.outbox[e] == db.outbox[e] { EventFrame(db, db', e, db.outbox[e]); }
    }
    forall k | k in db.requests ensures EventsOf(db.requests[k]) == EventsOf(db'.requests[k]) {
      SameFactsSameEvents(db.requests[k], db'.requests[k]);
    }
    hide EventOk, EventsOf, Grows, SameFacts;
  }

  lemma MarkOwnKeepsDelivery(w: World, rid: Rid, now: Time)
    requires CallsOk(w) && DeliveryOk(w)
    ensures DeliveryOk(StepMarkOwn(w, rid, now))
  {
    hide OutboxOk, ShemaOk, Marks;
    if rid in w.calls && w.calls[rid].Projected? {
      assert CallOk(w, rid, w.calls[rid]);
      var db' := MarkTx(w.db, rid, now).db;
      MarkMarks(w.db, w.shema, rid, now);
      MarksKeepsShema(w.db, db', w.shema);
      MarksKeepsOutbox(w.db, db', w.shema);
    }
  }

  lemma ClaimKeepsDelivery(w: World, worker: Worker, e: EventId, now: Time)
    requires DeliveryOk(w)
    ensures DeliveryOk(StepClaim(w, worker, e, now))
  {
    hide EventsOf, NoticesOf, ShemaOk, EventOk, Marks;
    var w' := StepClaim(w, worker, e, now);
    if w' != w {
      var o := ClaimedEvent(w.db.outbox[e], worker, now);
      LeaseKeepsOk(w.db, e, o, w.shema);
      hide OutboxOk;
      MarksKeepsShema(w.db, w'.db, w.shema);
      MarksKeepsOutbox(w.db, w'.db, w.shema);
    }
  }

  lemma LeaseKeepsOk(db: Db, e: EventId, o: OutEvent, shema: Shema)
    requires e in db.outbox && EventOk(db, e, db.outbox[e])
    requires o == db.outbox[e].(lease := o.lease, attempt := o.attempt)
    ensures var db' := db.(outbox := db.outbox[e := o]); Marks(db, db', shema) && EventOk(db', e, o)
  {
    hide EventsOf;
  }

  lemma PublishMarks(db: Db, shema: Shema, e: EventId, worker: Worker, now: Time)
    requires e in db.outbox && EventOk(db, e, db.outbox[e])
    requires db.outbox[e].notify ==> RequestOf(db, e.call).rid in shema.contexts
    ensures var tx := PublishTx(db, e, worker, now);
            tx.Commit? ==>
              && Marks(db, tx.db, shema) && tx.db.outbox.Keys == db.outbox.Keys
              && EventOk(tx.db, e, tx.db.outbox[e])
              && (forall x | x in db.outbox ::
                    tx.db.outbox[x].rid == db.outbox[x].rid
                    && (x == e || tx.db.outbox[x] == db.outbox[x]))
  {
    var o := db.outbox[e];
    if o.notify {
      MarkMarks(db, shema, o.rid, now);
      SameFactsSameEvents(RequestOf(db, o.rid), RequestOf(MarkTx(db, o.rid, now).db, o.rid));
    }
    hide EventsOf;
  }

  lemma PublishKeepsDelivery(w: World, worker: Worker, e: EventId, now: Time)
    requires TablesOk(w) && DeliveryOk(w)
    ensures DeliveryOk(StepPublish(w, worker, e, now))
  {
    var w' := StepPublish(w, worker, e, now);
    if w' != w {
      assert EventOk(w.db, e, w.db.outbox[e]);
      assert w.db.outbox[e].notify ==> (worker, e) in w.ready;
      PublishMarks(w.db, w.shema, e, worker, now);
      hide OutboxOk, ShemaOk, Marks, EventOk, PublishTx;
      MarksKeepsShema(w.db, w'.db, w.shema);
      MarksKeepsOutbox(w.db, w'.db, w.shema);
    }
  }

  // ----- every step keeps exactly-once -----

  lemma CommitKeepsTables(cfg: Config, w: World, rid: Rid, now: Time)
    requires TablesOk(w) && CallsOk(w)
    ensures TablesOk(StepCommit(cfg, w, rid, now))
  {
    var w' := StepCommit(cfg, w, rid, now);
    if rid in w.calls && w.calls[rid].Screened? && w'.db != w.db {
      var Screened(s, at, snapshot) := w.calls[rid];
      CommitStores(cfg, w.db, s, rid, snapshot, at, now);
      hide CommitTx, NewEvents, Backlog, IsStored;
      AddedRequestKeepsTables(w, w', s.key, w'.db.requests[s.key], w'.db.reservations[s.key]);
    }
    hide CommitTx, IsStored;
  }

  lemma CommitStores(cfg: Config, db: Db, s: Submission, rid: Rid, snapshot: Snapshot, at: Time, now: Time)
    ensures var tx := CommitTx(cfg, db, s, rid, snapshot, at, now);
            tx.Commit? ==>
              tx.db == db
              || (s.key !in db.requests && rid !in db.index && s.key in db.reservations
                  && db.reservations[s.key].rid == rid
                  && s.key in tx.db.requests && s.key in tx.db.reservations
                  && tx.db.requests == db.requests[s.key := tx.db.requests[s.key]]
                     && tx.db.index == db.index[rid := s.key]
                  && tx.db.reservations == db.reservations[s.key := tx.db.reservations[s.key]]
                  && tx.db.requests[s.key] == Record(rid, s.key, s.payload, s.spam, snapshot, at, None)
                  && tx.db.reservations[s.key].rid == rid
                  && tx.db.reservations[s.key].payload == db.reservations[s.key].payload
                  && tx.db.reservations[s.key].completed.Some?)
  {
    hide NewEvents, Backlog;
  }

  lemma AddedRequestKeepsTables(w: World, w': World, k: Key, r: Record, v: Reservation)
    requires TablesOk(w) && k !in w.db.requests && r.rid !in w.db.index && r.rid in w.used && w'.used == w.used
    requires w'.db.requests == w.db.requests[k := r] && w'.db.index == w.db.index[r.rid := k]
    requires w'.db.reservations == w.db.reservations[k := v]
    requires r.key == k && v.rid == r.rid && v.payload == r.payload && v.completed.Some?
    ensures TablesOk(w')
  {}

  lemma CommitKeepsOwners(cfg: Config, w: World, rid: Rid, now: Time)
    requires OneKeyEach(w.db)
    ensures OneKeyEach(StepCommit(cfg, w, rid, now).db)
  {
    hide NewEvents, Backlog;
  }

  /** A commit moves its own call on; the others keep what they own. */
  lemma CommitTouches(cfg: Config, w: World, rid: Rid, now: Time)
    requires CallsOk(w)
    ensures var w' := StepCommit(cfg, w, rid, now);
            && w'.used == w.used && w'.shema == w.shema && w'.db.reservations.Keys == w.db.reservations.Keys
            && (forall k | k in w.db.reservations ::
                  w'.db.reservations[k].rid == w.db.reservations[k].rid
                    && w'.db.reservations[k].payload == w.db.reservations[k].payload)
            && (forall i | i in w'.calls && i != rid ::
                  i in w.calls && w'.calls[i] == w.calls[i]
                  && (i in w'.db.index <==> i in w.db.index))
            && (w'.calls != w.calls && rid in w'.calls ==>
                  rid in w.calls && w'.calls[rid].Committed? && w'.calls[rid].s == w.calls[rid].s
                    && IsStored(w', rid, w'.calls[rid].record))
            && Grows(w.db, w'.db)
  {
    CommitAdds(cfg, w, rid, now);
    CommitGrows(cfg, w, rid, now);
    hide CallsOk, NewEvents, Backlog, Adds, Grows;
  }

  lemma CommitGrows(cfg: Config, w: World, rid: Rid, now: Time)
    requires CallsOk(w)
    ensures Grows(w.db, StepCommit(cfg, w, rid, now).db)
  {
    CommitAdds(cfg, w, rid, now);
    hide StepCommit, CallsOk, NewEvents;
  }

  lemma CommitKeepsCalls(cfg: Config, w: World, rid: Rid, now: Time)
    requires CallsOk(w)
    ensures CallsOk(StepCommit(cfg, w, rid, now))
  {
    CommitTouches(cfg, w, rid, now);
    hide StepCommit;
  }

  lemma CommitKeepsAnswers(cfg: Config, w: World, rid: Rid, now: Time)
    requires TablesOk(w) && CallsOk(w) && AnswersOk(w)
    ensures AnswersOk(StepCommit(cfg, w, rid, now))
  {
    hide NewEvents, Backlog, IsStored;
  }

  /** Markers and leases do not matter to the reservations. */
  lemma MarksKeepsIntake(w: World, w': World, shema: Shema)
    requires IntakeOk(w) && Marks(w.db, w'.db, shema) && w'.db.reservations == w.db.reservations
    requires w'.calls.Keys <= w.calls.Keys && (forall i | i in w'.calls :: w'.calls[i] == w.calls[i])
    requires w'.used == w.used && w'.answers == w.answers && w.shema.contexts.Keys <= w'.shema.contexts.Keys
    ensures IntakeOk(w')
  {}

  lemma CommitKeepsBacklog(cfg: Config, w: World, rid: Rid, now: Time)
    requires CallsOk(w) && BacklogOk(cfg, w)
    ensures BacklogOk(cfg, StepCommit(cfg, w, rid, now))
  {
    var w' := StepCommit(cfg, w, rid, now);
    CommitAdds(cfg, w, rid, now);
    hide CallsOk, Pending;
    if w'.db != w.db {
      var Screened(s, at, snapshot) := w.calls[rid];
      var r := Record(rid, s.key, s.payload, s.spam, snapshot, at, None);
      AddedBacklog(w.db, w'.db, r);
    }
  }

  lemma AddedBacklog(db: Db, db': Db, r: Record)
    requires Adds(db, db', r)
    ensures Backlog(db'.outbox) <= Backlog(db.outbox) + 2
  {
    SubsetCard(Pending(db'.outbox), Pending(db.outbox) + EventsOf(r).Keys);
    assert EventsOf(r).Keys <= {EventId(r.rid, None)} + {EventId(r.rid, SubmitFollowUp(r.snapshot))};
    SubsetCard(EventsOf(r).Keys, {EventId(r.rid, None)} + {EventId(r.rid, SubmitFollowUp(r.snapshot))});
  }

  lemma UpdateKeepsBacklog(outbox: map<EventId, OutEvent>, e: EventId, o: OutEvent)
    requires e in outbox && (outbox[e].published.Some? ==> o.published.Some?)
    ensures Backlog(outbox[e := o]) <= Backlog(outbox)
  {
    SubsetCard(Pending(outbox[e := o]), Pending(outbox));
  }

  lemma CheckKeepsCircuit(cfg: Config, w: World, rid: Rid, now: Time)
    requires CircuitOk(cfg, w) && cfg.window >= 1
    ensures CircuitOk(cfg, StepCheck(cfg, w, rid, now))
  {
    if rid in w.calls && w.calls[rid].Reserved? {
      CheckTouches(cfg, w.db, w.calls[rid].s, now);
      hide CheckTx;
      if CheckTx(cfg, w.db, w.calls[rid].s, now).Commit? {
        Circuit.OneMoreAdmission(None, cfg.circuitLimit, cfg.window, w.admissions, now);
      }
    }
  }

  // ----- assembly -----

  lemma ReserveKeepsInv(cfg: Config, w: World, rid: Rid, s: Submission, now: Time)
    requires Inv(cfg, w)
    ensures Inv(cfg, StepReserve(w, rid, s, now))
  {
    hide TablesOk, CallsOk, AnswersOk, OneKeyEach, OutboxOk, ShemaOk, Backlog, Circuit.StateAfter, Circuit.Admitted;
    ReserveKeepsTables(w, rid, s, now);
    ReserveKeepsCalls(w, rid, s, now);
    ReserveKeepsOwners(w, rid, s, now);
    ReservationsKeepOutbox(w.db, StepReserve(w, rid, s, now).db, w.shema);
  }

  /** Events and projections do not depend on reservations, circuit and budgets. */
  lemma ReservationsKeepOutbox(db: Db, db': Db, shema: Shema)
    requires OutboxOk(db) && ShemaOk(db, shema)
    requires db' == db.(reservations := db'.reservations, circuit := db'.circuit, rates := db'.rates)
    ensures OutboxOk(db') && ShemaOk(db', shema)
  {
    assert Marks(db, db', shema);
    MarksKeepsOutbox(db, db', shema);
    MarksKeepsShema(db, db', shema);
  }

  lemma CheckKeepsInv(cfg: Config, w: World, rid: Rid, now: Time)
    requires Inv(cfg, w) && cfg.window >= 1
    ensures Inv(cfg, StepCheck(cfg, w, rid, now))
  {
    hide CheckTx, IntakeOk, CircuitOk, OutboxOk, ShemaOk, Backlog;
    CheckKeepsIntake(cfg, w, rid, now);
    CheckKeepsCircuit(cfg, w, rid, now);
    if rid in w.calls && w.calls[rid].Reserved? {
      CheckTouches(cfg, w.db, w.calls[rid].s, now);
      ReservationsKeepOutbox(w.db, StepCheck(cfg, w, rid, now).db, w.shema);
    }
  }

  lemma CommitKeepsInv(cfg: Config, w: World, rid: Rid, now: Time)
    requires Inv(cfg, w)
    ensures Inv(cfg, StepCommit(cfg, w, rid, now))
  {
    hide TablesOk, CallsOk, AnswersOk, OneKeyEach, DeliveryOk, BacklogOk, NewEvents, Backlog, Circuit.StateAfter,
         Circuit.Admitted;
    CommitKeepsTables(cfg, w, rid, now);
    CommitKeepsCalls(cfg, w, rid, now);
    CommitKeepsOwners(cfg, w, rid, now);
    CommitKeepsAnswers(cfg, w, rid, now);
    CommitKeepsDelivery(cfg, w, rid, now);
    CommitKeepsBacklog(cfg, w, rid, now);
  }

  lemma ProjectOwnKeepsInv(cfg: Config, w: World, rid: Rid, now: Time)
    requires Inv(cfg, w)
    ensures Inv(cfg, StepProjectOwn(w, rid, now))
  {
    hide TablesOk, CallsOk, AnswersOk, OneKeyEach, DeliveryOk, Project, Backlog, Circuit.StateAfter, Circuit.Admitted;
    ProjectOwnKeepsIntake(w, rid, now);
    ProjectOwnKeepsDelivery(w, rid, now);
  }

  lemma MarkOwnKeepsInv(cfg: Config, w: World, rid: Rid, now: Time)
    requires Inv(cfg, w)
    ensures Inv(cfg, StepMarkOwn(w, rid, now))
  {
    hide DeliveryOk, Backlog, Marks, TablesOk, AnswersOk, Circuit.StateAfter, Circuit.Admitted;
    var w' := StepMarkOwn(w, rid, now);
    MarkOwnKeepsDelivery(w, rid, now);
    if rid in w.calls && w.calls[rid].Projected? {
      assert CallOk(w, rid, w.calls[rid]);
      MarkMarks(w.db, w.shema, rid, now);
      hide CallsOk;
      MarksKeepsIntake(w, w', w.shema);
    }
  }

  lemma ClaimKeepsInv(cfg: Config, w: World, worker: Worker, e: EventId, now: Time)
    requires Inv(cfg, w)
    ensures Inv(cfg, StepClaim(w, worker, e, now))
  {
    hide DeliveryOk, Backlog, IntakeOk, Circuit.StateAfter, Circuit.Admitted;
    var w' := StepClaim(w, worker, e, now);
    ClaimKeepsDelivery(w, worker, e, now);
    if w' != w {
      assert Marks(w.db, w'.db, w.shema);
      MarksKeepsIntake(w, w', w.shema);
      UpdateKeepsBacklog(w.db.outbox, e, w'.db.outbox[e]);
    }
  }

  lemma ScreenKeepsIntake(w: World, rid: Rid, snapshot: Snapshot)
    requires IntakeOk(w)
    ensures IntakeOk(StepScreen(w, rid, snapshot))
  {}

  lemma ProjectEventTables(w: World, worker: Worker, e: EventId, now: Time)
    requires IntakeOk(w) && DeliveryOk(w)
    ensures IntakeOk(StepProjectEvent(w, worker, e, now)) && DeliveryOk(StepProjectEvent(w, worker, e, now))
  {
    ProjectEventKeepsDelivery(w, worker, e, now);
    hide DeliveryOk, TablesOk, CallsOk, AnswersOk, OneKeyEach, NoticesOf;
    assert Marks(w.db, w.db, w.shema);
    MarksKeepsIntake(w, StepProjectEvent(w, worker, e, now), w.shema);
  }

  lemma PublishStep(w: World, worker: Worker, e: EventId, now: Time)
    requires TablesOk(w) && DeliveryOk(w) && StepPublish(w, worker, e, now) != w
    ensures var db' := StepPublish(w, worker, e, now).db;
            && Marks(w.db, db', w.shema) && e in w.db.outbox && w.db.outbox[e].published.None?
            && db' == w.db.(requests := db'.requests, outbox := db'.outbox)
            && db'.outbox == w.db.outbox[e := w.db.outbox[e].(published := Some(now), lease := None)]
  {
    assert EventOk(w.db, e, w.db.outbox[e]);
    assert w.db.outbox[e].notify ==> (worker, e) in w.ready;
    PublishMarks(w.db, w.shema, e, worker, now);
    hide DeliveryOk, TablesOk, Marks, EventOk;
  }

  lemma ProjectEventKeepsInv(cfg: Config, w: World, worker: Worker, e: EventId, now: Time)
    requires Inv(cfg, w)
    ensures Inv(cfg, StepProjectEvent(w, worker, e, now))
  {
    hide DeliveryOk, Backlog, IntakeOk, NoticesOf, Circuit.StateAfter, Circuit.Admitted;
    var w' := StepProjectEvent(w, worker, e, now);
    assert Inv(cfg, w) ==> IntakeOk(w) && DeliveryOk(w);
    ProjectEventTables(w, worker, e, now);
  }

  lemma PublishKeepsInv(cfg: Config, w: World, worker: Worker, e: EventId, now: Time)
    requires Inv(cfg, w)
    ensures Inv(cfg, StepPublish(w, worker, e, now))
  {
    hide TablesOk, CallsOk, AnswersOk, OneKeyEach, DeliveryOk, Backlog, Marks, EventOk, PublishTx, Circuit.StateAfter,
         Circuit.Admitted;
    var w' := StepPublish(w, worker, e, now);
    PublishKeepsDelivery(w, worker, e, now);
    if w' != w {
      PublishStep(w, worker, e, now);
      MarksKeepsIntake(w, w', w.shema);
      UpdateKeepsBacklog(w.db.outbox, e, w'.db.outbox[e]);
    }
  }

  lemma LocalKeepsInv(cfg: Config, w: World, rid: Rid, snapshot: Snapshot, worker: Worker)
    requires Inv(cfg, w)
    ensures Inv(cfg, StepScreen(w, rid, snapshot)) && Inv(cfg, Drop(w, rid)) && Inv(cfg, StepDropWorker(w, worker))
  {
    hide OutboxOk, ShemaOk, Backlog, IntakeOk, Circuit.StateAfter, Circuit.Admitted;
    assert Marks(w.db, w.db, w.shema);
    MarksKeepsIntake(w, Drop(w, rid), w.shema);
    MarksKeepsIntake(w, StepDropWorker(w, worker), w.shema);
    ScreenKeepsIntake(w, rid, snapshot);
  }

  lemma StepKeepsInv(cfg: Config, w: World, op: Op)
    requires ValidConfig(cfg) && Inv(cfg, w)
    ensures Inv(cfg, Step(cfg, w, op))
  {
    hide Inv, StepReserve, StepCheck, StepScreen, StepCommit, StepProjectOwn, StepMarkOwn;
    hide StepClaim, StepProjectEvent, StepPublish, StepDropWorker;
    match op
    case Reserve(rid, s, now) => ReserveKeepsInv(cfg, w, rid, s, now);
    case Check(rid, now) => CheckKeepsInv(cfg, w, rid, now);
    case Screen(rid, snapshot) => LocalKeepsInv(cfg, w, rid, snapshot, "");
    case CommitRequest(rid, now) => CommitKeepsInv(cfg, w, rid, now);
    case ProjectOwn(rid, now) => ProjectOwnKeepsInv(cfg, w, rid, now);
    case MarkOwn(rid, now) => MarkOwnKeepsInv(cfg, w, rid, now);
    case DropCall(rid) => LocalKeepsInv(cfg, w, rid, Snapshot(0, Normal, NotChecked, []), "");
    case ClaimEvent(worker, e, now) => ClaimKeepsInv(cfg, w, worker, e, now);
    case ProjectEvent(worker, e, now) => ProjectEventKeepsInv(cfg, w, worker, e, now);
    case PublishEvent(worker, e, now) => PublishKeepsInv(cfg, w, worker, e, now);
    case DropWorker(worker) => LocalKeepsInv(cfg, w, 0, Snapshot(0, Normal, NotChecked, []), worker);
  }

  lemma {:induction false} RunKeepsInv(cfg: Config, w: World, ops: seq<Op>)
    requires ValidConfig(cfg) && Inv(cfg, w)
    ensures Inv(cfg, Run(cfg, w, ops))
    decreases |ops|
  {
    if ops != [] {
      StepKeepsInv(cfg, w, ops[0]);
      RunKeepsInv(cfg, Step(cfg, w, ops[0]), ops[1..]);
    }
  }

  lemma Reachable(cfg: Config, ops: seq<Op>)
    requires ValidConfig(cfg)
    ensures Inv(cfg, Run(cfg, Empty, ops))
  {
    assert Pending(Empty.db.outbox) == {};
    RunKeepsInv(cfg, Empty, ops);
  }

  // ----- exactly once -----

  /** A reservation is completed exactly when its request exists, for the same request id and payload,
      and a key has one request id. */
  lemma CompletedExactlyWhenCommitted(cfg: Config, ops: seq<Op>, k: Key)
    requires ValidConfig(cfg)
    ensures var db := Run(cfg, Empty, ops).db;
            && ((k in db.reservations && db.reservations[k].completed.Some?) <==> k in db.requests)
            && (k in db.requests ==>
                  && db.reservations[k].rid == db.requests[k].rid
                     && db.reservations[k].payload == db.requests[k].payload
                  && forall i | i in db.index :: db.index[i] == k <==> i == db.requests[k].rid)
  {
    Reachable(cfg, ops);
    var w := Run(cfg, Empty, ops);
    if k in w.db.requests { assert RequestOk(w, k, w.db.requests[k]); }
  }

  lemma StepKeepsRequest(cfg: Config, w: World, op: Op, k: Key)
    requires cfg.window >= 1 && k in w.db.requests
    ensures k in Step(cfg, w, op).db.requests && SameFacts(w.db.requests[k], Step(cfg, w, op).db.requests[k])
  {
    hide StepReserve, StepCheck, StepCommit, StepMarkOwn, StepPublish, Project;
    match op
    case Reserve(rid, s, now) => ReserveKeepsRequests(w, rid, s, now);
    case Check(rid, now) => CheckMoves(cfg, w, rid, now);
    case CommitRequest(rid, now) => CommitKeepsRequest(cfg, w, rid, now, k);
    case MarkOwn(rid, now) => MarkKeepsRequest(w, rid, now, k);
    case PublishEvent(worker, e, now) => PublishKeepsRequest(w, worker, e, now, k);
    case _ =>
  }

  lemma ReserveKeepsRequests(w: World, rid: Rid, s: Submission, now: Time)
    ensures StepReserve(w, rid, s, now).db.requests == w.db.requests
  {}

  lemma CommitKeepsRequest(cfg: Config, w: World, rid: Rid, now: Time, k: Key)
    requires k in w.db.requests
    ensures k in StepCommit(cfg, w, rid, now).db.requests
            && StepCommit(cfg, w, rid, now).db.requests[k] == w.db.requests[k]
  {
    hide NewEvents, Backlog;
  }

  lemma MarkKeepsRequest(w: World, rid: Rid, now: Time, k: Key)
    requires k in w.db.requests
    ensures k in StepMarkOwn(w, rid, now).db.requests
            && SameFacts(w.db.requests[k], StepMarkOwn(w, rid, now).db.requests[k])
  {}

  lemma PublishKeepsRequest(w: World, worker: Worker, e: EventId, now: Time, k: Key)
    requires k in w.db.requests
    ensures k in StepPublish(w, worker, e, now).db.requests
            && SameFacts(w.db.requests[k], StepPublish(w, worker, e, now).db.requests[k])
  {
    hide LiveLease;
  }

  /** A committed request is never replaced; all that is ever added to it is its projection marker, once. */
  lemma {:induction false} RequestIsWriteOnce(cfg: Config, w: World, ops: seq<Op>, k: Key)
    requires cfg.window >= 1 && k in w.db.requests
    ensures k in Run(cfg, w, ops).db.requests && SameFacts(w.db.requests[k], Run(cfg, w, ops).db.requests[k])
    decreases |ops|
  {
    if ops != [] {
      StepKeepsRequest(cfg, w, ops[0], k);
      hide Step;
      RequestIsWriteOnce(cfg, Step(cfg, w, ops[0]), ops[1..], k);
    }
  }

  /** All clients that were answered under one key got the same request, and had all submitted its payload. */
  lemma AnswersAgree(cfg: Config, ops: seq<Op>, s: Submission, rid: Rid, s': Submission, rid': Rid)
    requires ValidConfig(cfg)
    requires (s, rid) in Run(cfg, Empty, ops).answers && (s', rid') in Run(cfg, Empty, ops).answers && s.key == s'.key
    ensures rid == rid' && s.payload == s'.payload
    ensures s.key in Run(cfg, Empty, ops).db.requests && Run(cfg, Empty, ops).db.requests[s.key].rid == rid
  {
    Reachable(cfg, ops);
    assert AnswersOk(Run(cfg, Empty, ops));
  }

  // ----- displaced owners -----

  /** The submission `rid` has lost its reservation to another one, before it committed. */
  ghost predicate Displaced(w: World, rid: Rid) {
    && rid in w.used && rid !in w.db.index
    && forall k | k in w.db.reservations :: w.db.reservations[k].rid != rid
  }

  /** Overwriting the uncompleted reservation of `k` leaves its owner without one. */
  lemma OverwriteDisplaces(w: World, w': World, k: Key, r: Reservation)
    requires TablesOk(w) && OneKeyEach(w.db) && k in w.db.reservations && w.db.reservations[k].completed.None?
             && r.rid !in w.used
    requires w'.db.reservations == w.db.reservations[k := r] && w'.db.index == w.db.index && w.used <= w'.used
    ensures Displaced(w', w.db.reservations[k].rid)
  {
    var first := w.db.reservations[k].rid;
    assert first in w.db.index ==> RequestOk(w, w.db.index[first], w.db.requests[w.db.index[first]]);
  }

  lemma TakeoverDisplaces(cfg: Config, w: World, rid: Rid, s: Submission, now: Time)
    requires ValidConfig(cfg) && Inv(cfg, w) && rid !in w.used && s.key in w.db.reservations
    requires w.db.reservations[s.key].completed.None? && w.db.reservations[s.key].until <= now
    ensures Displaced(Step(cfg, w, Reserve(rid, s, now)), w.db.reservations[s.key].rid)
  {
    hide TablesOk, CallsOk, AnswersOk, OneKeyEach, DeliveryOk, BacklogOk, CircuitOk, Displaced;
    OverwriteDisplaces(w, StepReserve(w, rid, s, now), s.key,
                       Reservation(s.payload, rid, now + RESERVATION_SECONDS, None));
  }

  lemma DisplacedStep(cfg: Config, w: World, op: Op, rid: Rid)
    requires cfg.window >= 1 && Displaced(w, rid)
    ensures Displaced(Step(cfg, w, op), rid)
  {
    hide Project, NewEvents, Backlog, Circuit.Blocks, Circuit.Consumed, Budget.Consume;
  }

  /** A displaced owner never commits anything, whatever it and the others still do. */
  lemma {:induction false} DisplacedForever(cfg: Config, w: World, ops: seq<Op>, rid: Rid)
    requires cfg.window >= 1 && Displaced(w, rid)
    ensures Displaced(Run(cfg, w, ops), rid)
    decreases |ops|
  {
    if ops != [] {
      DisplacedStep(cfg, w, ops[0], rid);
      hide Step;
      DisplacedForever(cfg, Step(cfg, w, ops[0]), ops[1..], rid);
    }
  }

  /** The commit of a displaced owner leaves the database alone, and answers its client only if another
      submission has meanwhile committed the same payload. */
  lemma DisplacedOutcome(cfg: Config, w: World, rid: Rid, now: Time)
    requires cfg.window >= 1 && Displaced(w, rid) && rid in w.calls && w.calls[rid].Screened?
    ensures var s := w.calls[rid].s;
            var w' := Step(cfg, w, CommitRequest(rid, now));
            && w'.db == w.db && rid !in w'.calls
            && w'.answers == if s.key in w.db.requests && w.db.requests[s.key].payload == s.payload
                             then w.answers + {(s, w.db.requests[s.key].rid)} else w.answers
  {
    hide NewEvents, Backlog;
  }

  lemma CompletedHasRequest(w: World, s: Submission, rid: Rid, now: Time)
    requires TablesOk(w)
    ensures ReserveTx(w.db, s, rid, now) != Raise(MissingRequest)
            && ReserveTx(w.db, s, rid, now) != Raise(CouldNotAcquire)
  {}

  lemma EventIsStored(db: Db, e: EventId, o: OutEvent)
    requires EventOk(db, e, o)
    ensures Stored(db, o.rid)
  {}

  lemma EventHasRequest(w: World, e: EventId, worker: Worker, now: Time)
    requires OutboxOk(w.db)
    ensures e in w.db.outbox ==> Stored(w.db, w.db.outbox[e].rid)
    ensures PublishTx(w.db, e, worker, now) != Raise(UnknownRequest)
  {
    hide EventOk, EventsOf;
    if e in w.db.outbox { EventIsStored(w.db, e, w.db.outbox[e]); }
    hide OutboxOk;
  }

  lemma CallFindsItsRequest(w: World, rid: Rid, now: Time)
    requires CallsOk(w)
    ensures rid in w.calls && w.calls[rid].Screened? ==> rid !in w.db.index
    ensures rid in w.calls && w.calls[rid].Projected? ==> MarkTx(w.db, rid, now).Commit?
  {
    if rid in w.calls { assert CallOk(w, rid, w.calls[rid]); }
    hide CallsOk;
  }

  /** The branches for a missing request, an unacquirable reservation, a duplicate request id and an event
      without its request are dead, and a submission can always set its own projection marker. */
  lemma DeadBranches(cfg: Config, ops: seq<Op>, s: Submission, rid: Rid, e: EventId, worker: Worker, now: Time)
    requires ValidConfig(cfg)
    ensures var w := Run(cfg, Empty, ops);
            && ReserveTx(w.db, s, rid, now) != Raise(MissingRequest)
            && ReserveTx(w.db, s, rid, now) != Raise(CouldNotAcquire)
            && (rid in w.calls && w.calls[rid].Screened? ==> rid !in w.db.index)
            && (e in w.db.outbox ==> Stored(w.db, w.db.outbox[e].rid))
            && PublishTx(w.db, e, worker, now) != Raise(UnknownRequest)
            && (rid in w.calls && w.calls[rid].Projected? ==> MarkTx(w.db, rid, now).Commit?)
  {
    Reachable(cfg, ops);
    hide Run, TablesOk, CallsOk, OutboxOk, AnswersOk, ShemaOk, Backlog, CircuitOk, ReserveTx, PublishTx, MarkTx, Stored;
    var w := Run(cfg, Empty, ops);
    CompletedHasRequest(w, s, rid, now);
    EventHasRequest(w, e, worker, now);
    CallFindsItsRequest(w, rid, now);
  }

  // ----- bounds -----

  /** The backlog of unpublished events never exceeds its capacity by more than one. */
  lemma BacklogBound(cfg: Config, ops: seq<Op>)
    requires ValidConfig(cfg)
    ensures Backlog(Run(cfg, Empty, ops).db.outbox) <= cfg.maxPending + 1
  {
    Reachable(cfg, ops);
  }

  function CheckTimes(ops: seq<Op>): seq<Time> {
    if ops == [] then [] else (if ops[0].Check? then [ops[0].now] else []) + CheckTimes(ops[1..])
  }

  lemma SortedWithout(a: seq<Time>, t: Time, b: seq<Time>)
    requires Circuit.Sorted(a + ([t] + b))
    ensures Circuit.Sorted(a + b) && Circuit.Sorted((a + [t]) + b)
  {
    var s, c := a + ([t] + b), a + b;
    assert (a + [t]) + b == s;
    forall i, j | 0 <= i < j < |c| ensures c[i] <= c[j] {
      var i', j' := if i < |a| then i else i + 1, if j < |a| then j else j + 1;
      assert c[i] == s[i'] && c[j] == s[j'];
    }
  }

  lemma {:induction false} AdmissionsFollowClock(cfg: Config, w: World, ops: seq<Op>)
    requires cfg.window >= 1 && Circuit.Sorted(w.admissions + CheckTimes(ops))
    ensures Circuit.Sorted(Run(cfg, w, ops).admissions)
    decreases |ops|
  {
    if ops == [] {
      assert w.admissions + [] == w.admissions;
    } else {
      var w' := Step(cfg, w, ops[0]);
      AdmissionsGrow(cfg, w, ops[0]);
      hide Step;
      if ops[0].Check? {
        SortedWithout(w.admissions, ops[0].now, CheckTimes(ops[1..]));
      } else {
        assert [] + CheckTimes(ops[1..]) == CheckTimes(ops[1..]);
      }
      AdmissionsFollowClock(cfg, w', ops[1..]);
    }
  }

  lemma AdmissionsGrow(cfg: Config, w: World, op: Op)
    requires cfg.window >= 1
    ensures Step(cfg, w, op).admissions == w.admissions
            || (op.Check? && Step(cfg, w, op).admissions == w.admissions + [op.now])
  {
    hide CheckTx;
  }

  lemma AdmittedBound(cfg: Config, w: World, from: Time)
    requires ValidConfig(cfg) && Inv(cfg, w) && Circuit.Sorted(w.admissions)
    ensures |Circuit.Within(w.admissions, from, from + cfg.window)| <= Circuit.Capacity(cfg.circuitLimit)
  {
    hide IntakeOk, DeliveryOk, BacklogOk, Circuit.Admitted, Circuit.StateAfter, Circuit.Within;
    Circuit.CircuitBound(cfg.circuitLimit, cfg.window, w.admissions, from);
  }

  /** Over every run on a nondecreasing clock, any interval one window long holds at most
      `Circuit.Capacity` admitted submissions. */
  lemma AdmissionBound(cfg: Config, ops: seq<Op>, from: Time)
    requires ValidConfig(cfg) && Circuit.Sorted(CheckTimes(ops))
    ensures |Circuit.Within(Run(cfg, Empty, ops).admissions, from, from + cfg.window)|
            <= Circuit.Capacity(cfg.circuitLimit)
  {
    hide Inv, Run, CheckTimes, Circuit.Sorted, Circuit.Within, Circuit.Capacity;
    Reachable(cfg, ops);
    assert Empty.admissions + CheckTimes(ops) == CheckTimes(ops);
    AdmissionsFollowClock(cfg, Empty, ops);
    AdmittedBound(cfg, Run(cfg, Empty, ops), from);
  }

  // ----- at-least-once projection, exactly-once notification -----

  lemma AtMostTwoNotices(r: Record)
    ensures |NoticesOf(r)| <= 2
  {
    SubsetCard(NoticesOf(r), {NoticeId(r.rid, None)} + {NoticeId(r.rid, ProjectionFollowUp(r.snapshot))});
  }

  /** However often a request has been projected, its notifications are the fixed set it is owed. */
  lemma NotificationsAreExact(cfg: Config, ops: seq<Op>, rid: Rid)
    requires ValidConfig(cfg) && rid in Run(cfg, Empty, ops).shema.contexts
    ensures var w := Run(cfg, Empty, ops);
            && Stored(w.db, rid) && |NoticesOf(RequestOf(w.db, rid))| <= 2
            && forall n: NoticeId | n.rid == rid :: n in w.shema.notices <==> n in NoticesOf(RequestOf(w.db, rid))
  {
    Reachable(cfg, ops);
    var w := Run(cfg, Empty, ops);
    hide Run, IntakeOk, OutboxOk, ReadyOk, BacklogOk, CircuitOk, NoticesOf;
    assert ContextOk(w.db, w.shema, rid);
    AtMostTwoNotices(RequestOf(w.db, rid));
  }

  /** A published notifying event has had its request projected, and marked so. */
  lemma PublishedMeansProjected(cfg: Config, ops: seq<Op>, e: EventId)
    requires ValidConfig(cfg) && e in Run(cfg, Empty, ops).db.outbox
    requires Run(cfg, Empty, ops).db.outbox[e].notify && Run(cfg, Empty, ops).db.outbox[e].published.Some?
    ensures var w := Run(cfg, Empty, ops);
            && Stored(w.db, e.call) && RequestOf(w.db, e.call).projected.Some? && e.call in w.shema.contexts
            && forall n: NoticeId | n.rid == e.call :: n in w.shema.notices <==> n in NoticesOf(RequestOf(w.db, e.call))
  {
    Reachable(cfg, ops);
    var w := Run(cfg, Empty, ops);
    assert EventOk(w.db, e, w.db.outbox[e]);
    assert RequestOf(w.db, e.call).rid == e.call;
    assert ContextOk(w.db, w.shema, e.call);
    hide Run, OutboxOk, NoticesOf, EventsOf;
  }

  ghost predicate SnapshotsOk(w: World) {
    && (forall i | i in w.calls && w.calls[i].Screened? :: Coherent(w.calls[i].snapshot))
    && (forall k | k in w.db.requests :: Coherent(w.db.requests[k].snapshot))
  }

  lemma StepKeepsSnapshots(cfg: Config, w: World, op: Op)
    requires cfg.window >= 1 && SnapshotsOk(w) && (op.Screen? ==> Coherent(op.snapshot))
    ensures SnapshotsOk(Step(cfg, w, op))
  {
    hide Project, NewEvents, Backlog, Circuit.Blocks, Circuit.Consumed, Budget.Consume, Coherent;
  }

  lemma {:induction false} RunKeepsSnapshots(cfg: Config, w: World, ops: seq<Op>)
    requires cfg.window >= 1 && SnapshotsOk(w)
             && forall i | 0 <= i < |ops| && ops[i].Screen? :: Coherent(ops[i].snapshot)
    ensures SnapshotsOk(Run(cfg, w, ops))
    decreases |ops|
  {
    if ops != [] {
      StepKeepsSnapshots(cfg, w, ops[0]);
      RunKeepsSnapshots(cfg, Step(cfg, w, ops[0]), ops[1..]);
    }
  }

  lemma EventsMatch(cfg: Config, w: World, k: Key, kind: Option<Kind>)
    requires Inv(cfg, w) && SnapshotsOk(w) && k in w.db.requests && !w.db.requests[k].spam
    ensures EventId(w.db.requests[k].rid, kind) in w.db.outbox
            <==> NoticeId(w.db.requests[k].rid, kind) in NoticesOf(w.db.requests[k])
  {
    hide CallsOk, AnswersOk, OneKeyEach, ShemaOk, ReadyOk, Backlog, CircuitOk, EventsOf, NoticesOf;
    var r := w.db.requests[k];
    var e := EventId(r.rid, kind);
    assert RequestOk(w, k, r) && Coherent(r.snapshot);
    assert e in w.db.outbox ==> EventOk(w.db, e, w.db.outbox[e]);
    assert e in EventsOf(r) ==> e in w.db.outbox;
    KindsMatch(r, kind);
  }

  lemma KindsMatch(r: Record, kind: Option<Kind>)
    requires Coherent(r.snapshot) && !r.spam
    ensures EventId(r.rid, kind) in EventsOf(r) <==> NoticeId(r.rid, kind) in NoticesOf(r)
  {
    FollowUpsAgreeIff(r.snapshot);
  }

  /** When every snapshot is one that a preflight can produce, the follow-up events that `submit`
      appended and the follow-up notifications the projection owes are of the same kinds. */
  lemma EventsMatchNotices(cfg: Config, ops: seq<Op>, k: Key, kind: Option<Kind>)
    requires ValidConfig(cfg) && forall i | 0 <= i < |ops| && ops[i].Screen? :: Producible(ops[i].snapshot)
    requires k in Run(cfg, Empty, ops).db.requests && !Run(cfg, Empty, ops).db.requests[k].spam
    ensures var w := Run(cfg, Empty, ops);
            EventId(w.db.requests[k].rid, kind) in w.db.outbox
            <==> NoticeId(w.db.requests[k].rid, kind) in NoticesOf(w.db.requests[k])
  {
    Reachable(cfg, ops);
    forall i | 0 <= i < |ops| && ops[i].Screen? ensures Coherent(ops[i].snapshot) {
      ProducibleIsCoherent(ops[i].snapshot);
    }
    RunKeepsSnapshots(cfg, Empty, ops);
    hide *;
    EventsMatch(cfg, Run(cfg, Empty, ops), k, kind);
  }

  // ----- an undisturbed submission -----

  /** The key is free or its owner's lease has run out, and circuit, outbox and budget have room. */
  ghost predicate Submittable(cfg: Config, w: World, s: Submission, rid: Rid, now: Time)
    requires cfg.window >= 1
  {
    && rid !in w.used && s.key !in w.db.requests
    && (s.key in w.db.reservations ==> w.db.reservations[s.key].until <= now)
    && !Circuit.Blocks(w.db.circuit, now) && Backlog(w.db.outbox) < cfg.maxPending
    && Budget.Consume(w.db.rates, s.client, cfg.submissionLimit, cfg.window, now).Some?
  }

  function ReserveAndCheck(cfg: Config, w: World, s: Submission, rid: Rid, now: Time): World
    requires cfg.window >= 1
  {
    Step(cfg, Step(cfg, w, Reserve(rid, s, now)), Check(rid, now))
  }

  /** All steps of one `submit`, with nobody in between. */
  function Submit(cfg: Config, w: World, s: Submission, rid: Rid, snapshot: Snapshot, now: Time): World
    requires cfg.window >= 1
  {
    var w' := Step(cfg, Step(cfg, ReserveAndCheck(cfg, w, s, rid, now), Screen(rid, snapshot)),
                   CommitRequest(rid, now));
    Step(cfg, Step(cfg, w', ProjectOwn(rid, now)), MarkOwn(rid, now))
  }

  lemma ReservesAndPasses(cfg: Config, w: World, s: Submission, rid: Rid, now: Time)
    requires ValidConfig(cfg) && TablesOk(w) && Submittable(cfg, w, s, rid, now)
    ensures var w' := ReserveAndCheck(cfg, w, s, rid, now);
            && rid in w'.calls && w'.calls[rid] == Checked(s, now)
            && s.key !in w'.db.requests && s.key in w'.db.reservations && w'.db.reservations[s.key].rid == rid
            && w'.db.outbox == w.db.outbox && w'.db.index == w.db.index && w'.answers == w.answers
  {
    hide Backlog, Circuit.Blocks, Circuit.Consumed, Budget.Consume;
  }

  lemma CommitsAndProjects(cfg: Config, w: World, s: Submission, rid: Rid, snapshot: Snapshot, at: Time, now: Time)
    requires cfg.window >= 1 && rid in w.calls && w.calls[rid] == Checked(s, at)
    requires s.key !in w.db.requests && s.key in w.db.reservations && w.db.reservations[s.key].rid == rid
             && rid !in w.db.index
    requires Backlog(w.db.outbox) < cfg.maxPending
    ensures var r := Record(rid, s.key, s.payload, s.spam, snapshot, at, None);
            var w1 := Step(cfg, Step(cfg, w, Screen(rid, snapshot)), CommitRequest(rid, now));
            var w2 := Step(cfg, Step(cfg, w1, ProjectOwn(rid, now)), MarkOwn(rid, now));
            && Stored(w2.db, rid) && RequestOf(w2.db, rid) == r.(projected := Some(now)) && w2.db.index[rid] == s.key
            && w2.db.outbox == NewEvents(r) + w.db.outbox && w2.answers == w.answers + {(s, rid)}
            && rid in w2.shema.contexts
  {
    hide NewEvents, NoticesOf;
  }

  /** An undisturbed submission commits, also over the reservation of a crashed one: it is stored with
      its events, answered, projected, and has exactly the notifications it is owed. */
  lemma UndisturbedSubmission(cfg: Config, w: World, s: Submission, rid: Rid, snapshot: Snapshot, now: Time)
    requires ValidConfig(cfg) && Inv(cfg, w) && Submittable(cfg, w, s, rid, now)
    ensures var r := Record(rid, s.key, s.payload, s.spam, snapshot, now, None);
            var w' := Submit(cfg, w, s, rid, snapshot, now);
            && s.key in w'.db.requests && w'.db.requests[s.key] == r.(projected := Some(now))
            && w'.db.outbox == NewEvents(r) + w.db.outbox && w'.answers == w.answers + {(s, rid)}
            && forall n: NoticeId | n.rid == rid :: n in w'.shema.notices <==> n in NoticesOf(r)
  {
    assert rid !in w.db.index;
    hide Backlog, NewEvents, NoticesOf, Step, TablesOk, CallsOk, AnswersOk, OutboxOk, ReadyOk, CircuitOk,
         Budget.Consume, Circuit.Blocks;
    ReservesAndPasses(cfg, w, s, rid, now);
    var w' := ReserveAndCheck(cfg, w, s, rid, now);
    CommitsAndProjects(cfg, w', s, rid, snapshot, now, now);
    var r := Record(rid, s.key, s.payload, s.spam, snapshot, now, None);
    SameFactsSameEvents(r, r.(projected := Some(now)));
    SubmitKeepsInv(cfg, w, s, rid, snapshot, now);
    assert ContextOk(Submit(cfg, w, s, rid, snapshot, now).db, Submit(cfg, w, s, rid, snapshot, now).shema, rid);
  }

  lemma SubmitKeepsInv(cfg: Config, w: World, s: Submission, rid: Rid, snapshot: Snapshot, now: Time)
    requires ValidConfig(cfg) && Inv(cfg, w)
    ensures Inv(cfg, Submit(cfg, w, s, rid, snapshot, now))
  {
    hide Inv, Step;
    var w1 := Step(cfg, w, Reserve(rid, s, now));
    StepKeepsInv(cfg, w, Reserve(rid, s, now));
    StepKeepsInv(cfg, w1, Check(rid, now));
    var w2 := ReserveAndCheck(cfg, w, s, rid, now);
    StepKeepsInv(cfg, w2, Screen(rid, snapshot));
    var w3 := Step(cfg, w2, Screen(rid, snapshot));
    StepKeepsInv(cfg, w3, CommitRequest(rid, now));
    var w4 := Step(cfg, w3, CommitRequest(rid, now));
    StepKeepsInv(cfg, w4, ProjectOwn(rid, now));
    StepKeepsInv(cfg, Step(cfg, w4, ProjectOwn(rid, now)), MarkOwn(rid, now));
  }

  // ----- the backlog bound is attained -----

  function OpsOf(s: Submission, rid: Rid, snapshot: Snapshot, now: Time): seq<Op> {
    [Reserve(rid, s, now), Check(rid, now), Screen(rid, snapshot), CommitRequest(rid, now), ProjectOwn(rid, now),
     MarkOwn(rid, now)]
  }

  lemma {:induction false} RunSplits(cfg: Config, w: World, a: seq<Op>, b: seq<Op>)
    requires cfg.window >= 1
    ensures Run(cfg, w, a + b) == Run(cfg, Run(cfg, w, a), b)
    decreases |a|
  {
    if a == [] {
      assert a + b == b;
    } else {
      hide Step;
      assert (a + b)[1..] == a[1..] + b;
      RunSplits(cfg, Step(cfg, w, a[0]), a[1..], b);
    }
  }

  lemma RunOne(cfg: Config, w: World, op: Op, rest: seq<Op>)
    requires cfg.window >= 1
    ensures Run(cfg, w, [op] + rest) == Run(cfg, Step(cfg, w, op), rest)
  {
    hide Step;
    assert ([op] + rest)[1..] == rest;
  }

  lemma SubmitIsRun(cfg: Config, w: World, s: Submission, rid: Rid, snapshot: Snapshot, now: Time)
    requires cfg.window >= 1
    ensures Run(cfg, w, OpsOf(s, rid, snapshot, now)) == Submit(cfg, w, s, rid, snapshot, now)
  {
    var ops := OpsOf(s, rid, snapshot, now);
    var last := [MarkOwn(rid, now)];
    assert ops[5..] == last + [] && ops[4..] == [ops[4]] + last && ops[3..] == [ops[3]] + ops[4..];
    assert ops[2..] == [ops[2]] + ops[3..] && ops[1..] == [ops[1]] + ops[2..] && ops == [ops[0]] + ops[1..];
    hide Step;
    var w1 := Step(cfg, w, ops[0]);
    var w2 := Step(cfg, w1, ops[1]);
    var w3 := Step(cfg, w2, ops[2]);
    var w4 := Step(cfg, w3, ops[3]);
    var w5 := Step(cfg, w4, ops[4]);
    RunOne(cfg, w, ops[0], ops[1..]);
    RunOne(cfg, w1, ops[1], ops[2..]);
    RunOne(cfg, w2, ops[2], ops[3..]);
    RunOne(cfg, w3, ops[3], ops[4..]);
    RunOne(cfg, w4, ops[4], last);
    RunOne(cfg, w5, MarkOwn(rid, now), []);
  }

  lemma EventsCard(r: Record)
    ensures |EventsOf(r).Keys| == if !r.spam && SubmitFollowUp(r.snapshot).Some? then 2 else 1
  {
    hide SubmitFollowUp;
    if !r.spam && SubmitFollowUp(r.snapshot).Some? {
      assert EventsOf(r).Keys == {EventId(r.rid, None), EventId(r.rid, SubmitFollowUp(r.snapshot))};
    } else {
      assert EventsOf(r).Keys == {EventId(r.rid, None)};
    }
  }

  lemma EventsAreOwn(r: Record)
    ensures forall e | e in EventsOf(r) :: e.call == r.rid
  {
    hide SubmitFollowUp;
  }

  /** A request brings one event, or two when it calls for a follow-up. */
  lemma EventsAdd(outbox: map<EventId, OutEvent>, r: Record)
    requires forall e | e in outbox :: e.call != r.rid
    ensures Backlog(NewEvents(r) + outbox)
            == Backlog(outbox) + if !r.spam && SubmitFollowUp(r.snapshot).Some? then 2 else 1
  {
    EventsCard(r);
    EventsAreOwn(r);
    hide EventsOf, SubmitFollowUp;
    assert Pending(NewEvents(r) + outbox) == Pending(outbox) + EventsOf(r).Keys;
    assert Pending(outbox) !! EventsOf(r).Keys;
  }

  lemma ReserveAndCheckLeave(cfg: Config, w: World, s: Submission, rid: Rid, now: Time)
    requires ValidConfig(cfg) && TablesOk(w) && Submittable(cfg, w, s, rid, now)
    ensures var w' := ReserveAndCheck(cfg, w, s, rid, now);
            && w'.used == w.used + {rid} && w'.db.reservations.Keys == w.db.reservations.Keys + {s.key}
            && w'.db.circuit == Some(Circuit.Consumed(w.db.circuit, cfg.circuitLimit, cfg.window, now))
            && Some(w'.db.rates) == Budget.Consume(w.db.rates, s.client, cfg.submissionLimit, cfg.window, now)
  {
    hide Backlog, Circuit.Blocks, Circuit.Consumed, Budget.Consume;
  }

  /** Everything but requests, outbox and the projection stands. */
  predicate SameFooting(w: World, w': World) {
    && w'.used == w.used && w'.db.reservations.Keys == w.db.reservations.Keys
    && w'.db.circuit == w.db.circuit && w'.db.rates == w.db.rates
  }

  lemma CommitLeaves(cfg: Config, w: World, rid: Rid, snapshot: Snapshot, now: Time)
    requires cfg.window >= 1
    ensures SameFooting(w, Step(cfg, Step(cfg, w, Screen(rid, snapshot)), CommitRequest(rid, now)))
  {
    hide NewEvents, Backlog, EventsOf;
  }

  lemma ProjectionLeaves(cfg: Config, w: World, rid: Rid, now: Time)
    requires cfg.window >= 1
    ensures SameFooting(w, Step(cfg, Step(cfg, w, ProjectOwn(rid, now)), MarkOwn(rid, now)))
  {
    hide Project;
  }

  /** What one submission leaves behind besides its request. */
  lemma SubmissionLeaves(cfg: Config, w: World, s: Submission, rid: Rid, snapshot: Snapshot, now: Time)
    requires ValidConfig(cfg) && Inv(cfg, w) && Submittable(cfg, w, s, rid, now)
    ensures var w' := Submit(cfg, w, s, rid, snapshot, now);
            && w'.used == w.used + {rid} && w'.db.reservations.Keys == w.db.reservations.Keys + {s.key}
            && w'.db.circuit == Some(Circuit.Consumed(w.db.circuit, cfg.circuitLimit, cfg.window, now))
            && Some(w'.db.rates) == Budget.Consume(w.db.rates, s.client, cfg.submissionLimit, cfg.window, now)
            && Backlog(w'.db.outbox)
               == Backlog(w.db.outbox) + if !s.spam && SubmitFollowUp(snapshot).Some? then 2 else 1
  {
    forall e | e in w.db.outbox ensures e.call != rid { assert EventOk(w.db, e, w.db.outbox[e]); }
    hide Step, Backlog, NewEvents, SubmitFollowUp, Budget.Consume, Circuit.Blocks;
    hide TablesOk, CallsOk, AnswersOk, OneKeyEach, DeliveryOk, CircuitOk;
    ReserveAndCheckLeave(cfg, w, s, rid, now);
    var w' := ReserveAndCheck(cfg, w, s, rid, now);
    CommitLeaves(cfg, w', rid, snapshot, now);
    ProjectionLeaves(cfg, Step(cfg, Step(cfg, w', Screen(rid, snapshot)), CommitRequest(rid, now)), rid, now);
    UndisturbedSubmission(cfg, w, s, rid, snapshot, now);
    EventsAdd(w.db.outbox, Record(rid, s.key, s.payload, s.spam, snapshot, now, None));
  }

  /** The length of the names below: the longest that the service accepts as a key or as a client. */
  const NAME_LENGTH: nat := 128

  function Digits(n: nat, k: nat): (s: string)
    ensures |s| == k
  {
    if k == 0 then "" else Digits(n / 2, k - 1) + [if n % 2 == 0 then '0' else '1']
  }

  lemma {:induction false} DigitsAreUnique(n: nat, m: nat, k: nat)
    requires n < Pow2(k) && m < Pow2(k) && Digits(n, k) == Digits(m, k)
    ensures n == m
  {
    if k > 0 {
      var s, t := Digits(n, k), Digits(m, k);
      assert s[..k - 1] == Digits(n / 2, k - 1) && t[..k - 1] == Digits(m / 2, k - 1) && s[k - 1] == t[k - 1];
      DigitsAreUnique(n / 2, m / 2, k - 1);
    }
  }

  function Name(n: nat): string { Digits(n, NAME_LENGTH) }

  function Names(): nat { Pow2(NAME_LENGTH) }

  /** The names from `n` on are new. */
  ghost predicate Unused(names: set<string>, n: nat) { forall m | n <= m < Names() :: Name(m) !in names }

  lemma NameIsUsedUp(names: set<string>, n: nat)
    requires Unused(names, n) && n < Names()
    ensures Name(n) !in names && Unused(names + {Name(n)}, n + 1)
  {
    forall m | n < m < Names() ensures Name(m) != Name(n) {
      if Name(m) == Name(n) { DigitsAreUnique(n, m, NAME_LENGTH); }
    }
  }

  function Clients(rates: Budget.Rates): set<string> { set s | s in rates :: s.client }

  lemma NewClientIsGranted(cfg: Config, rates: Budget.Rates, client: string, now: Time)
    requires ValidConfig(cfg) && client !in Clients(rates)
    ensures var next := Budget.Consume(rates, client, cfg.submissionLimit, cfg.window, now);
            next.Some? && Clients(next.value) == Clients(rates) + {client}
  {
    var slot := Budget.Slot(client, Budget.WindowStart(cfg.window, now));
    assert slot in rates ==> slot.client in Clients(rates);
    var next := rates[slot := 1];
    forall c ensures c in Clients(next) <==> c in Clients(rates) || c == client {
      if c == client { assert slot in next && slot.client == c; }
      if c in Clients(rates) {
        var s :| s in rates && s.client == c;
        assert s in next;
      }
    }
    hide Budget.WindowStart;
  }

  /** The `n`th submission of a quiet stretch: under a key of its own, by a client of its own. */
  function Visit(n: nat): Submission { Submission(Name(n), "payload", Name(n), false) }

  const PLAIN: Snapshot := Snapshot(0, Normal, NotChecked, [])
  const REORGANIZING: Snapshot := Snapshot(0, Attention, NotChecked, [ReorganizationSignal])

  /** When the `n`th visit comes. */
  function VisitTime(cfg: Config, n: nat): Time { n * cfg.window }

  /** `n` submissions of one event each, a window apart. */
  function Visits(cfg: Config, n: nat): seq<Op> {
    if n == 0 then [] else Visits(cfg, n - 1) + OpsOf(Visit(n - 1), n - 1, PLAIN, VisitTime(cfg, n - 1))
  }

  /** Ids, keys and clients from `n` on are new, and the circuit is closed at `at`. */
  ghost predicate Quiet(w: World, n: nat, at: Time) {
    && (forall r | r in w.used :: r < n) && Unused(w.db.reservations.Keys, n) && Unused(Clients(w.db.rates), n)
    && (w.db.circuit.Some? && w.db.circuit.value.tripped.Some? ==> w.db.circuit.value.tripped.value <= at)
  }

  lemma QuietIsSubmittable(cfg: Config, w: World, n: nat, at: Time)
    requires ValidConfig(cfg) && Inv(cfg, w) && Quiet(w, n, at) && Backlog(w.db.outbox) < cfg.maxPending && n < Names()
    ensures Submittable(cfg, w, Visit(n), n, at)
  {
    NameIsUsedUp(w.db.reservations.Keys, n);
    NameIsUsedUp(Clients(w.db.rates), n);
    NewClientIsGranted(cfg, w.db.rates, Name(n), at);
    assert Name(n) in w.db.requests ==> RequestOk(w, Name(n), w.db.requests[Name(n)]);
    hide Name, Names, Unused, Clients, Budget.Consume, Backlog, CallsOk, AnswersOk, OneKeyEach, DeliveryOk, CircuitOk;
  }

  lemma VisitKeepsQuiet(cfg: Config, w: World, n: nat, snapshot: Snapshot, at: Time)
    requires ValidConfig(cfg) && Inv(cfg, w) && Quiet(w, n, at) && Backlog(w.db.outbox) < cfg.maxPending && n < Names()
    ensures var w' := Submit(cfg, w, Visit(n), n, snapshot, at);
            && Quiet(w', n + 1, at + cfg.window)
            && Backlog(w'.db.outbox) == Backlog(w.db.outbox) + if SubmitFollowUp(snapshot).Some? then 2 else 1
  {
    hide Submit, Submittable, Inv, Backlog, SubmitFollowUp, Name, Names, Unused, Clients, Budget.Consume;
    NameIsUsedUp(w.db.reservations.Keys, n);
    NameIsUsedUp(Clients(w.db.rates), n);
    NewClientIsGranted(cfg, w.db.rates, Name(n), at);
    QuietIsSubmittable(cfg, w, n, at);
    SubmissionLeaves(cfg, w, Visit(n), n, snapshot, at);
  }

  /** One more visit at the end of a run. */
  lemma VisitMore(cfg: Config, ops: seq<Op>, n: nat, snapshot: Snapshot, at: Time)
    requires ValidConfig(cfg) && Quiet(Run(cfg, Empty, ops), n, at) && n < Names()
    requires Backlog(Run(cfg, Empty, ops).db.outbox) < cfg.maxPending
    ensures var before, after := Run(cfg, Empty, ops), Run(cfg, Empty, ops + OpsOf(Visit(n), n, snapshot, at));
            && Quiet(after, n + 1, at + cfg.window)
            && Backlog(after.db.outbox) == Backlog(before.db.outbox) + if SubmitFollowUp(snapshot).Some? then 2 else 1
  {
    Reachable(cfg, ops);
    hide Run, Submit, Quiet, Backlog, Inv, OpsOf, SubmitFollowUp;
    VisitKeepsQuiet(cfg, Run(cfg, Empty, ops), n, snapshot, at);
    RunSplits(cfg, Empty, ops, OpsOf(Visit(n), n, snapshot, at));
    SubmitIsRun(cfg, Run(cfg, Empty, ops), Visit(n), n, snapshot, at);
  }

  lemma NothingVisited(cfg: Config)
    requires cfg.window >= 1
    ensures Quiet(Run(cfg, Empty, Visits(cfg, 0)), 0, VisitTime(cfg, 0))
            && Backlog(Run(cfg, Empty, Visits(cfg, 0)).db.outbox) == 0
  {
    assert Pending(Empty.db.outbox) == {};
  }

  lemma {:induction false} VisitsFill(cfg: Config, n: nat)
    requires ValidConfig(cfg) && cfg.window >= 1 && n <= cfg.maxPending && n <= Names()
    ensures Quiet(Run(cfg, Empty, Visits(cfg, n)), n, VisitTime(cfg, n))
            && Backlog(Run(cfg, Empty, Visits(cfg, n)).db.outbox) == n
  {
    hide *;
    if n == 0 {
      NothingVisited(cfg);
    } else {
      VisitsFill(cfg, n - 1);
      VisitsGrow(cfg, n);
      OneWindowLater(cfg, n);
      PlainHasNoFollowUp();
      VisitMore(cfg, Visits(cfg, n - 1), n - 1, PLAIN, VisitTime(cfg, n - 1));
    }
  }

  lemma VisitsGrow(cfg: Config, n: nat)
    requires n > 0
    ensures Visits(cfg, n) == Visits(cfg, n - 1) + OpsOf(Visit(n - 1), n - 1, PLAIN, VisitTime(cfg, n - 1))
  {
    hide VisitTime, OpsOf;
  }

  lemma OneWindowLater(cfg: Config, n: nat)
    requires n > 0
    ensures VisitTime(cfg, n) == VisitTime(cfg, n - 1) + cfg.window
  {}

  lemma PlainHasNoFollowUp()
    ensures SubmitFollowUp(PLAIN).None? && SubmitFollowUp(REORGANIZING).Some?
  {}

  /** What the service accepts as key and client. */
  predicate Accepted(s: Submission) { 8 <= |s.key| <= 128 && 8 <= |s.client| <= 128 }

  lemma {:induction false} VisitsAreAccepted(cfg: Config, n: nat)
    ensures forall op | op in Visits(cfg, n) && op.Reserve? :: Accepted(op.s)
  {
    if n > 0 {
      VisitsAreAccepted(cfg, n - 1);
      assert Accepted(Visit(n - 1));
    }
  }

  /** Some traffic of acceptable submissions fills the backlog one beyond its capacity, for every capacity of
      at most `Names()`, that is 2^128: single events up to the last free place, and then a request with
      two. */
  lemma BacklogBoundIsAttained(cfg: Config)
    requires ValidConfig(cfg) && cfg.maxPending <= Names()
    ensures var n := cfg.maxPending - 1;
            var ops := Visits(cfg, n) + OpsOf(Visit(n), n, REORGANIZING, VisitTime(cfg, n));
            && Backlog(Run(cfg, Empty, ops).db.outbox) == cfg.maxPending + 1
            && forall op | op in ops && op.Reserve? :: Accepted(op.s)
  {
    var n := cfg.maxPending - 1;
    VisitsAreAccepted(cfg, n);
    assert Accepted(Visit(n));
    hide Run, Quiet, Backlog, Visits, Names, Accepted, Visit, VisitTime, SubmitFollowUp;
    PlainHasNoFollowUp();
    VisitsFill(cfg, n);
    VisitMore(cfg, Visits(cfg, n), n, REORGANIZING, VisitTime(cfg, n));
  }
}
