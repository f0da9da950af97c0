/** The daily counterparty monitoring batch: due monitors are collected page by page while workers claim,
    observe, record, complete or fail the items collected so far, under leases and with counted attempts.

    A claim is named by its monitor and attempt number, so one worker may have several in flight. */
module MonitoringBatch {
  import opened Common
  import I = Idempotency

  /** Monitor ids stand for their rank in the text order by which pages are taken. */
  type MonitorId = nat
  type Worker = string
  type Time = int

  datatype Config = Config(maxAttempts: nat, backoff: nat, maxBackoff: nat, leaseSeconds: nat)

  datatype Monitor = Monitor(
    identifier: string, active: bool, nextCheck: Time, frequency: nat,
    lastSnapshot: Option<Snapshot>, lastError: Option<string>)
  datatype Observation = Observation(identifier: string, payload: map<string, string>, at: Time)
  /** A snapshot is its own id: the id is a hash of these three parts. */
  datatype Snapshot = Snapshot(monitor: MonitorId, at: Time, payload: map<string, string>)

  datatype State = Pending | Running | Retryable | Completed | Failed
  datatype Lease = Lease(worker: Worker, until: Time)
  datatype Item = Item(state: State, attempt: nat, available: Time, lease: Option<Lease>, lastError: Option<string>,
                       completed: Option<Time>)

  datatype BatchStatus = Collecting | InProgress | Done
  datatype Batch = Batch(scheduled: Time, status: BatchStatus, cursor: Option<MonitorId>, collected: bool,
                         completed: Option<Time>)

  /** The snapshots on file and the idempotency records under which they were recorded for this batch. */
  datatype Journal = Journal(records: map<MonitorId, I.Record<MonitorId, Snapshot, Snapshot>>, snapshots: set<Snapshot>)
  datatype Db = Db(monitors: map<MonitorId, Monitor>, batch: Option<Batch>, items: map<MonitorId, Item>,
                   journal: Journal)

  datatype BatchError =
    | BatchNotFound | StaleCompletion | StaleFailure | MonitorMissing | IdentifierMismatch
    | RecordError(e: I.IdempotencyError) | InFlight | SnapshotMissing | OutboxRejected

  // ----- collection -----

  function StartTx(db: Db, scheduled: Time): Db {
    if db.batch.Some? then db else db.(batch := Some(Batch(scheduled, Collecting, None, false, None)))
  }

  predicate Due(m: Monitor, scheduled: Time) { m.active && m.nextCheck <= scheduled }

  predicate Beyond(cursor: Option<MonitorId>, m: MonitorId) { cursor.None? || m > cursor.value }

  function DueBeyond(monitors: map<MonitorId, Monitor>, scheduled: Time, cursor: Option<MonitorId>): set<MonitorId> {
    set m | m in monitors && Due(monitors[m], scheduled) && Beyond(cursor, m)
  }

  /** The first `limit` ids in ascending order. */
  ghost function Page(s: set<MonitorId>, limit: nat): seq<MonitorId>
    decreases limit
  {
    if limit == 0 || s == {} then [] else [Least(s)] + Page(s - {Least(s)}, limit - 1)
  }

  function NewItem(scheduled: Time): Item { Item(Pending, 0, scheduled, None, None, None) }

  function NewItems(rows: seq<MonitorId>, scheduled: Time): map<MonitorId, Item> {
    map m | m in rows :: NewItem(scheduled)
  }

  ghost function MaterializeTx(db: Db, scheduled: Time, limit: nat): Tx<Db, seq<MonitorId>, BatchError> {
    if db.batch.None? then Raise(BatchNotFound)
    else if db.batch.value.collected then Commit(db, [])
    else
      var b := db.batch.value;
      var rows := Page(DueBeyond(db.monitors, scheduled, b.cursor), limit);
      Commit(db.(items := NewItems(rows, scheduled) + db.items,
                 batch := Some(b.(cursor := if rows == [] then b.cursor else Some(rows[|rows| - 1]),
                                  collected := |rows| < limit,
                                  status := if rows != [] || db.items != map[] then InProgress else Collecting))),
             rows)
  }

  // ----- items -----

  predicate Claimable(i: Item, now: Time) {
    && i.available <= now
    && (i.state == Pending || i.state == Retryable
        || (i.state == Running && i.lease.Some? && i.lease.value.until < now))
  }

  function ClaimedItem(cfg: Config, i: Item, worker: Worker, now: Time): Item {
    i.(state := Running, attempt := i.attempt + 1, lease := Some(Lease(worker, now + cfg.leaseSeconds)),
       lastError := None)
  }

  predicate Owns(i: Item, worker: Worker, now: Time) {
    i.state == Running && i.lease.Some? && i.lease.value.worker == worker && i.lease.value.until >= now
  }

  function CompleteItemTx(db: Db, m: MonitorId, worker: Worker, now: Time): Tx<Db, Item, BatchError> {
    if m !in db.items || !Owns(db.items[m], worker, now) then Raise(StaleCompletion)
    else
      var i := db.items[m].(state := Completed, lease := None, completed := Some(now));
      Commit(db.(items := db.items[m := i]), i)
  }

  function Delay(cfg: Config, attempt: nat): nat {
    var d := cfg.backoff * Pow2(if attempt == 0 then 0 else attempt - 1);
    if d <= cfg.maxBackoff then d else cfg.maxBackoff
  }

  /** The failure transition of the item and the error note on its monitor, in one transaction. */
  function FailItemTx(cfg: Config, db: Db, m: MonitorId, attempt: nat, worker: Worker, retryable: bool, code: string,
                      now: Time)
    : Tx<Db, Item, BatchError>
  {
    var again := retryable && attempt < cfg.maxAttempts;
    var available := now + if again then Delay(cfg, attempt) else 0;
    if m !in db.items || !Owns(db.items[m], worker, now) then Raise(StaleFailure)
    else if m !in db.monitors then Raise(MonitorMissing)
    else
      var i := db.items[m].(state := if again then Retryable else Failed, available := available, lease := None,
                            lastError := Some(code), completed := if again then db.items[m].completed else Some(now));
      Commit(db.(items := db.items[m := i],
                 monitors := db.monitors[m := db.monitors[m].(lastError := Some(code), nextCheck := available)]), i)
  }

  /** Record an observation once per monitor of this batch; `outboxAccepts` is whether a change event
      derived from it can be appended. */
  function RecordTx(db: Db, m: MonitorId, o: Observation, outboxAccepts: bool, now: Time)
    : Tx<Db, Snapshot, BatchError> {
    if m !in db.monitors then Raise(MonitorMissing)
    else if o.identifier != db.monitors[m].identifier then Raise(IdentifierMismatch)
    else
      var s := Snapshot(m, o.at, o.payload);
      var reserved := I.ReserveTx(db.journal.records, m, m, I.Pending(s));
      if reserved.Raise? then Raise(RecordError(reserved.error))
      else if reserved.answer.ref != I.Pending(s) then
        if reserved.answer.ref.Pending? then Raise(InFlight)
        else if reserved.answer.ref.result !in db.journal.snapshots then Raise(SnapshotMissing)
        else Commit(db, reserved.answer.ref.result)
      else if !outboxAccepts then Raise(OutboxRejected)
      else
        var done := I.CompleteTx(reserved.db, m, m, I.Done(s));
        if done.Raise? then Raise(RecordError(done.error))
        else
          Commit(db.(journal := Journal(done.db, db.journal.snapshots + {s}),
                     monitors := db.monitors[m := db.monitors[m].(lastSnapshot := Some(s), lastError := None,
                                                                  nextCheck := now + db.monitors[m].frequency)]), s)
  }

  function Unfinished(items: map<MonitorId, Item>): set<MonitorId> {
    set m | m in items && (items[m].state == Pending || items[m].state == Running || items[m].state == Retryable)
  }

  function FinalizeTx(db: Db, now: Time): Tx<Db, Batch, BatchError> {
    if db.batch.None? then Raise(BatchNotFound)
    else
      var b := db.batch.value;
      var next := if b.collected && Unfinished(db.items) == {} then
                    b.(status := Done, completed := if b.completed.Some? then b.completed else Some(now))
                  else b.(status := InProgress, completed := None);
      Commit(db.(batch := Some(next)), next)
  }

  // ----- interleavings -----

  datatype Phase =
    | Claimed
    | Started(at: Time)
    | Loaded(at: Time)
    | Observed(at: Time, observation: Observation)
    | Recorded(at: Time)
    | Failing(at: Time, retryable: bool, code: string, final: bool)
  datatype Call = Call(worker: Worker, phase: Phase)

  /** One claim of an item: the monitor and the attempt number it was given. */
  datatype Claim = Claim(monitor: MonitorId, attempt: nat)

  /** The provider was asked under a claim, and this is what came of it. */
  datatype Asked = Asked(claim: Claim, outcome: Outcome)

  /** History: `rows` are the ids collected, in order; `observations` the questions to the provider;
      `recordings` the snapshots newly recorded. */
  datatype World = World(db: Db, calls: map<Claim, Call>, rows: seq<MonitorId>, observations: seq<Asked>,
                         recordings: seq<Snapshot>)

  datatype Op =
    | Start(scheduled: Time)
    | Materialize(scheduled: Time, limit: nat)
    | ClaimItem(worker: Worker, monitor: MonitorId, now: Time)
    | Begin(claim: Claim, now: Time)
    | Load(claim: Claim)
    | Observe(claim: Claim, outcome: Outcome)
    | RecordObservation(claim: Claim, outboxAccepts: bool)
    | Complete(claim: Claim)
    | Fail(claim: Claim)
    | Crash(claim: Claim)
    | Finalize(now: Time)
    | SaveMonitor(monitor: MonitorId, value: Monitor)
  datatype Outcome = Answer(observation: Observation) | Error(retryable: bool, code: string)

  function Goto(w: World, c: Claim, phase: Phase): World
    requires c in w.calls
  {
    w.(calls := w.calls[c := w.calls[c].(phase := phase)])
  }

  function Drop(w: World, c: Claim): World { w.(calls := w.calls - {c}) }

  ghost function StepMaterialize(w: World, scheduled: Time, limit: nat): World {
    var tx := MaterializeTx(w.db, scheduled, limit);
    if limit == 0 || tx.Raise? then w else w.(db := tx.db, rows := w.rows + tx.answer)
  }

  function StepClaim(cfg: Config, w: World, worker: Worker, m: MonitorId, now: Time): World {
    if m !in w.db.items || !Claimable(w.db.items[m], now) then w
    else
      var i := ClaimedItem(cfg, w.db.items[m], worker, now);
      w.(db := w.db.(items := w.db.items[m := i]), calls := w.calls[Claim(m, i.attempt) := Call(worker, Claimed)])
  }

  function StepBegin(cfg: Config, w: World, c: Claim, now: Time): World {
    if c !in w.calls || !w.calls[c].phase.Claimed? then w
    else Goto(w, c, if c.attempt > cfg.maxAttempts then Failing(now, false, "MAX_ATTEMPTS_EXCEEDED", false)
              else Started(now))
  }

  function StepLoad(w: World, c: Claim): World {
    if c !in w.calls || !w.calls[c].phase.Started? then w
    else
      var at := w.calls[c].phase.at;
      Goto(w, c, if c.monitor !in w.db.monitors || !w.db.monitors[c.monitor].active
                 then Failing(at, false, "MONITOR_NOT_ACTIVE", false) else Loaded(at))
  }

  function StepObserve(w: World, c: Claim, outcome: Outcome): World {
    if c !in w.calls || !w.calls[c].phase.Loaded? then w
    else
      var at := w.calls[c].phase.at;
      Goto(w.(observations := w.observations + [Asked(c, outcome)]), c,
           match outcome
           case Answer(o) => Observed(at, o)
           case Error(retryable, code) => Failing(at, retryable, code, true))
  }

  function StepRecord(w: World, c: Claim, outboxAccepts: bool): World {
    if c !in w.calls || !w.calls[c].phase.Observed? then w
    else
      var Observed(at, o) := w.calls[c].phase;
      var tx := RecordTx(w.db, c.monitor, o, outboxAccepts, at);
      if tx.Raise? then
        if tx.error.RecordError? || tx.error.InFlight?
          then Goto(w, c, Failing(at, true, "UNEXPECTED:IdempotencyConflict", true))
        else Goto(w, c, Failing(at, false, "INTEGRITY_REJECTED", true))
      else
        Goto(w.(db := tx.db, recordings := if c.monitor in w.db.journal.records then w.recordings
                else w.recordings + [tx.answer]),
             c, Recorded(at))
  }

  function StepComplete(w: World, c: Claim): World {
    if c !in w.calls || !w.calls[c].phase.Recorded? then w
    else
      var at := w.calls[c].phase.at;
      var tx := CompleteItemTx(w.db, c.monitor, w.calls[c].worker, at);
      if tx.Raise? then Goto(w, c, Failing(at, false, "INTEGRITY_REJECTED", true)) else Drop(w.(db := tx.db), c)
  }

  /** A rejected failure transition is tried once more, as an integrity error, unless it already was that. */
  function StepFail(cfg: Config, w: World, c: Claim): World {
    if c !in w.calls || !w.calls[c].phase.Failing? then w
    else
      var Failing(at, retryable, code, final) := w.calls[c].phase;
      var tx := FailItemTx(cfg, w.db, c.monitor, c.attempt, w.calls[c].worker, retryable, code, at);
      if tx.Commit? then Drop(w.(db := tx.db), c)
      else if final then Drop(w, c)
      else Goto(w, c, Failing(at, false, "INTEGRITY_REJECTED", true))
  }

  function StepFinalize(w: World, now: Time): World {
    var tx := FinalizeTx(w.db, now);
    if tx.Raise? then w else w.(db := tx.db)
  }

  ghost function Step(cfg: Config, w: World, op: Op): World {
    match op
    case Start(scheduled) => w.(db := StartTx(w.db, scheduled))
    case Materialize(scheduled, limit) => StepMaterialize(w, scheduled, limit)
    case ClaimItem(worker, m, now) => StepClaim(cfg, w, worker, m, now)
    case Begin(c, now) => StepBegin(cfg, w, c, now)
    case Load(c) => StepLoad(w, c)
    case Observe(c, outcome) => StepObserve(w, c, outcome)
    case RecordObservation(c, accepts) => StepRecord(w, c, accepts)
    case Complete(c) => StepComplete(w, c)
    case Fail(c) => StepFail(cfg, w, c)
    case Crash(c) => Drop(w, c)
    case Finalize(now) => StepFinalize(w, now)
    case SaveMonitor(m, value) => w.(db := w.db.(monitors := w.db.monitors[m := value]))
  }

  ghost function Run(cfg: Config, w: World, ops: seq<Op>): World
    decreases |ops|
  {
    if ops == [] then w else Run(cfg, Step(cfg, w, ops[0]), ops[1..])
  }

  function Initial(monitors: map<MonitorId, Monitor>): World {
    World(Db(monitors, None, map[], Journal(map[], {})), map[], [], [], [])
  }

  // ----- invariant -----

  /** The observation of this monitor is on file under the batch's key. */
  ghost predicate OnFile(j: Journal, m: MonitorId) {
    && m in j.records && j.records[m].hash == m && j.records[m].ref.Done?
    && j.records[m].ref.result.monitor == m && j.records[m].ref.result in j.snapshots
  }

  ghost predicate JournalOk(j: Journal, recordings: seq<Snapshot>) {
    && (forall m | m in j.records :: OnFile(j, m) && j.records[m].ref.result in recordings)
    && (forall s | s in recordings :: s.monitor in j.records && j.records[s.monitor].ref == I.Done(s))
    && (forall i, k | 0 <= i < k < |recordings| :: recordings[i].monitor != recordings[k].monitor)
  }

  ghost predicate ItemsOk(w: World) {
    forall m | m in w.db.items ::
      && (w.db.items[m].state == Completed ==> OnFile(w.db.journal, m))
      && (w.db.items[m].state == Running ==> w.db.items[m].lease.Some?)
  }

  ghost predicate CallsOk(cfg: Config, w: World) {
    forall c | c in w.calls ::
      && c.monitor in w.db.items && 1 <= c.attempt <= w.db.items[c.monitor].attempt
      && CallOk(cfg, w, c, w.calls[c].phase)
  }

  ghost predicate CallOk(cfg: Config, w: World, c: Claim, p: Phase) {
    && (p.Claimed? || p.Started? || p.Loaded? ==> forall o | o in w.observations :: o.claim != c)
    && (p.Observed? ==> Asked(c, Answer(p.observation)) in w.observations)
    && (p.Started? || p.Loaded? ==> c.attempt <= cfg.maxAttempts)
    && (p.Recorded? ==> OnFile(w.db.journal, c.monitor))
  }

  ghost predicate ObservationsOk(cfg: Config, w: World) {
    && (forall o | o in w.observations ::
          o.claim.monitor in w.db.items && 1 <= o.claim.attempt <= cfg.maxAttempts
            && o.claim.attempt <= w.db.items[o.claim.monitor].attempt)
    && (forall i, j | 0 <= i < j < |w.observations| :: w.observations[i].claim != w.observations[j].claim)
  }

  /** The snapshot is what the provider answered about its monitor. */
  ghost predicate WasAnswered(observations: seq<Asked>, s: Snapshot) {
    exists attempt, identifier :: Asked(Claim(s.monitor, attempt),
                                        Answer(Observation(identifier, s.payload, s.at))) in observations
  }

  ghost predicate RecordingsOk(w: World) { forall s | s in w.recordings :: WasAnswered(w.observations, s) }

  ghost predicate Ascending(s: seq<MonitorId>) { forall i, j | 0 <= i < j < |s| :: s[i] < s[j] }

  ghost predicate BatchOk(w: World) {
    && Ascending(w.rows) && (forall m :: m in w.db.items <==> m in w.rows)
    && (w.db.batch.None? ==> w.rows == [])
    && (w.db.batch.Some? ==>
          var b := w.db.batch.value;
          && (b.cursor.None? ==> w.rows == [])
          && (b.cursor.Some? ==> w.rows != [] && w.rows[|w.rows| - 1] == b.cursor.value)
          && (b.status == Done <==> b.completed.Some?)
          && (b.status == Done ==> b.collected && Unfinished(w.db.items) == {}))
  }

  ghost predicate WorkOk(cfg: Config, w: World) { CallsOk(cfg, w) && ObservationsOk(cfg, w) && RecordingsOk(w) }

  ghost predicate Inv(cfg: Config, w: World) {
    JournalOk(w.db.journal, w.recordings) && ItemsOk(w) && WorkOk(cfg, w) && BatchOk(w)
  }

  // ----- every step keeps the invariant -----

  lemma AscendingJoin(a: seq<MonitorId>, b: seq<MonitorId>)
    requires Ascending(a) && Ascending(b) && (a != [] && b != [] ==> a[|a| - 1] < b[0])
    ensures Ascending(a + b)
  {
    var s := a + b;
    forall i, j | 0 <= i < j < |s| ensures s[i] < s[j] {
      if i < |a| <= j {
        assert a[i] <= a[|a| - 1] && b[0] <= b[j - |a|];
      }
    }
  }

  lemma {:induction false} PageTakesTheFirst(s: set<MonitorId>, limit: nat)
    ensures var p := Page(s, limit);
            && |p| <= limit && Ascending(p) && (forall m | m in p :: m in s)
            && (forall m | m in s && m !in p :: |p| == limit && forall x | x in p :: x < m)
    decreases limit
  {
    if limit != 0 && s != {} {
      var rest := Page(s - {Least(s)}, limit - 1);
      PageTakesTheFirst(s - {Least(s)}, limit - 1);
      if rest != [] { assert rest[0] in rest; }
      AscendingJoin([Least(s)], rest);
    }
  }

  /** The next page continues the rows collected so far. */
  lemma NextPage(rows: seq<MonitorId>, cursor: Option<MonitorId>, due: set<MonitorId>, limit: nat)
    requires Ascending(rows) && (forall m | m in due :: Beyond(cursor, m))
    requires if cursor.None? then rows == [] else rows != [] && rows[|rows| - 1] == cursor.value
    ensures Ascending(rows + Page(due, limit)) && forall m | m in Page(due, limit) :: m !in rows
  {
    var p := Page(due, limit);
    PageTakesTheFirst(due, limit);
    assert p != [] ==> p[0] in p;
    AscendingJoin(rows, p);
    forall m | m in p ensures m !in rows {
      var j :| 0 <= j < |p| && p[j] == m;
      assert (rows + p)[|rows| + j] == m;
      assert forall i | 0 <= i < |rows| :: rows[i] == (rows + p)[i];
    }
  }

  lemma MaterializeKeepsBatch(w: World, scheduled: Time, limit: nat)
    requires BatchOk(w)
    ensures BatchOk(StepMaterialize(w, scheduled, limit))
  {
    if w.db.batch.Some? && limit != 0 && !w.db.batch.value.collected {
      var b := w.db.batch.value;
      NextPage(w.rows, b.cursor, DueBeyond(w.db.monitors, scheduled, b.cursor), limit);
    }
    hide Page, Ascending;
  }

  lemma MaterializeKeepsInv(cfg: Config, w: World, scheduled: Time, limit: nat)
    requires Inv(cfg, w)
    ensures Inv(cfg, StepMaterialize(w, scheduled, limit))
  {
    MaterializeKeepsBatch(w, scheduled, limit);
    hide BatchOk, JournalOk, OnFile, Page, WasAnswered;
  }

  lemma ClaimKeepsInv(cfg: Config, w: World, worker: Worker, m: MonitorId, now: Time)
    requires Inv(cfg, w)
    ensures Inv(cfg, StepClaim(cfg, w, worker, m, now))
  {
    hide Ascending, OnFile, JournalOk, WasAnswered;
  }

  lemma GotoKeepsInv(cfg: Config, w: World, c: Claim, p: Phase)
    requires Inv(cfg, w) && c in w.calls && CallOk(cfg, w, c, p)
    ensures Inv(cfg, Goto(w, c, p))
  {
    hide Ascending, JournalOk, OnFile, Unfinished, WasAnswered;
  }

  lemma DropKeepsInv(cfg: Config, w: World, c: Claim)
    requires Inv(cfg, w)
    ensures Inv(cfg, Drop(w, c))
  {
    hide Ascending, JournalOk, OnFile, Unfinished, WasAnswered;
  }

  lemma AnswersGrow(w: World, w': World)
    requires RecordingsOk(w) && w'.recordings == w.recordings && forall o | o in w.observations :: o in w'.observations
    ensures RecordingsOk(w')
  {}

  lemma ObserveKeepsWork(cfg: Config, w: World, c: Claim, outcome: Outcome)
    requires CallsOk(cfg, w) && ObservationsOk(cfg, w)
    ensures CallsOk(cfg, StepObserve(w, c, outcome)) && ObservationsOk(cfg, StepObserve(w, c, outcome))
  {
    hide OnFile;
    var w' := StepObserve(w, c, outcome);
    assert forall o | o in w'.observations :: o in w.observations || o == Asked(c, outcome);
  }

  lemma ObserveKeepsInv(cfg: Config, w: World, c: Claim, outcome: Outcome)
    requires Inv(cfg, w)
    ensures Inv(cfg, StepObserve(w, c, outcome))
  {
    hide Ascending, JournalOk, OnFile, Unfinished, RecordingsOk, ObservationsOk, CallsOk;
    ObserveKeepsWork(cfg, w, c, outcome);
    AnswersGrow(w, StepObserve(w, c, outcome));
  }

  /** The owner of a running item settles it. */
  lemma SettleKeepsInv(cfg: Config, w: World, w': World, m: MonitorId, i: Item)
    requires Inv(cfg, w) && m in w.db.items && w.db.items[m].state == Running
    requires i.attempt == w.db.items[m].attempt && i.state != Running
             && (i.state == Completed ==> OnFile(w.db.journal, m))
    requires w' == w.(db := w.db.(items := w.db.items[m := i], monitors := w'.db.monitors))
    ensures Inv(cfg, w')
  {
    hide JournalOk, OnFile, Ascending, WasAnswered;
    assert m in Unfinished(w.db.items);
    hide Unfinished;
  }

  lemma RecordTxGrows(db: Db, recordings: seq<Snapshot>, m: MonitorId, o: Observation, accepts: bool, now: Time)
    requires JournalOk(db.journal, recordings)
    ensures var tx := RecordTx(db, m, o, accepts, now);
            tx.Commit? ==>
              && tx.db == db.(journal := tx.db.journal, monitors := tx.db.monitors)
              && JournalOk(tx.db.journal, if m in db.journal.records then recordings else recordings + [tx.answer])
              && (m !in db.journal.records ==> tx.answer == Snapshot(m, o.at, o.payload))
              && OnFile(tx.db.journal, m) && tx.db.journal.records[m].ref == I.Done(tx.answer)
              && (forall k | OnFile(db.journal, k) :: OnFile(tx.db.journal, k))
              && (m in db.journal.records ==> tx.db == db)
  {
  }

  lemma RecordedKeepsInv(cfg: Config, w: World, w': World, m: MonitorId)
    requires Inv(cfg, w) && JournalOk(w'.db.journal, w'.recordings) && OnFile(w'.db.journal, m)
    requires forall k | OnFile(w.db.journal, k) :: OnFile(w'.db.journal, k)
    requires w' == w.(db := w.db.(journal := w'.db.journal, monitors := w'.db.monitors), recordings := w'.recordings)
    requires forall s | s in w'.recordings :: s in w.recordings || WasAnswered(w.observations, s)
    ensures Inv(cfg, w')
  {
    hide Ascending, Unfinished, OnFile, JournalOk, WasAnswered;
  }

  lemma RecordKeepsInv(cfg: Config, w: World, c: Claim, accepts: bool)
    requires Inv(cfg, w)
    ensures Inv(cfg, StepRecord(w, c, accepts))
  {
    hide OnFile, RecordTx, JournalOk, BatchOk, ItemsOk, ObservationsOk, RecordingsOk;
    if c in w.calls && w.calls[c].phase.Observed? {
      var Observed(at, o) := w.calls[c].phase;
      var tx := RecordTx(w.db, c.monitor, o, accepts, at);
      RecordTxGrows(w.db, w.recordings, c.monitor, o, accepts, at);
      assert Asked(Claim(c.monitor, c.attempt), Answer(Observation(o.identifier, o.payload, o.at))) in w.observations;
      assert WasAnswered(w.observations, Snapshot(c.monitor, o.at, o.payload));
      hide WasAnswered, CallsOk;
      if tx.Commit? {
        var w1 := w.(db := tx.db, recordings := if c.monitor in w.db.journal.records then w.recordings
                     else w.recordings + [tx.answer]);
        RecordedKeepsInv(cfg, w, w1, c.monitor);
        GotoKeepsInv(cfg, w1, c, Recorded(at));
      } else {
        GotoKeepsInv(cfg, w, c, StepRecord(w, c, accepts).calls[c].phase);
      }
    }
  }

  lemma CompleteKeepsInv(cfg: Config, w: World, c: Claim)
    requires Inv(cfg, w)
    ensures Inv(cfg, StepComplete(w, c))
  {
    hide JournalOk, BatchOk, ObservationsOk, OnFile;
    if c in w.calls && w.calls[c].phase.Recorded? {
      var at := w.calls[c].phase.at;
      var tx := CompleteItemTx(w.db, c.monitor, w.calls[c].worker, at);
      if tx.Commit? {
        SettleKeepsInv(cfg, w, w.(db := tx.db), c.monitor, tx.answer);
        DropKeepsInv(cfg, w.(db := tx.db), c);
      } else {
        GotoKeepsInv(cfg, w, c, Failing(at, false, "INTEGRITY_REJECTED", true));
      }
    }
  }

  lemma FailKeepsInv(cfg: Config, w: World, c: Claim)
    requires Inv(cfg, w)
    ensures Inv(cfg, StepFail(cfg, w, c))
  {
    hide JournalOk, BatchOk, ObservationsOk, OnFile, ItemsOk, CallsOk, Delay;
    if c in w.calls && w.calls[c].phase.Failing? {
      var Failing(at, retryable, code, final) := w.calls[c].phase;
      var tx := FailItemTx(cfg, w.db, c.monitor, c.attempt, w.calls[c].worker, retryable, code, at);
      if tx.Commit? {
        SettleKeepsInv(cfg, w, w.(db := tx.db), c.monitor, tx.answer);
        DropKeepsInv(cfg, w.(db := tx.db), c);
      } else {
        GotoKeepsInv(cfg, w, c, Failing(at, false, "INTEGRITY_REJECTED", true));
        DropKeepsInv(cfg, w, c);
      }
    }
  }

  lemma StepKeepsInv(cfg: Config, w: World, op: Op)
    requires Inv(cfg, w)
    ensures Inv(cfg, Step(cfg, w, op))
  {
    hide StepMaterialize, StepClaim, StepObserve, StepRecord, StepComplete, StepFail, JournalOk, Ascending, OnFile;
    var w' := Step(cfg, w, op);
    match op
    case Start(_) =>
    case Materialize(scheduled, limit) => MaterializeKeepsInv(cfg, w, scheduled, limit);
    case ClaimItem(worker, m, now) => ClaimKeepsInv(cfg, w, worker, m, now);
    case Begin(c, now) =>
      if c in w.calls && w.calls[c].phase.Claimed? { GotoKeepsInv(cfg, w, c, w'.calls[c].phase); }
    case Load(c) =>
      if c in w.calls && w.calls[c].phase.Started? { GotoKeepsInv(cfg, w, c, w'.calls[c].phase); }
    case Observe(c, outcome) => ObserveKeepsInv(cfg, w, c, outcome);
    case RecordObservation(c, accepts) => RecordKeepsInv(cfg, w, c, accepts);
    case Complete(c) => CompleteKeepsInv(cfg, w, c);
    case Fail(c) => FailKeepsInv(cfg, w, c);
    case Crash(c) => DropKeepsInv(cfg, w, c);
    case Finalize(now) =>
    case SaveMonitor(_, _) =>
  }

  lemma {:induction false} RunKeepsInv(cfg: Config, w: World, ops: seq<Op>)
    requires Inv(cfg, w)
    ensures Inv(cfg, Run(cfg, w, ops))
    decreases |ops|
  {
    if ops != [] {
      StepKeepsInv(cfg, w, ops[0]);
      hide Inv;
      RunKeepsInv(cfg, Step(cfg, w, ops[0]), ops[1..]);
    }
  }

  lemma Reachable(cfg: Config, monitors: map<MonitorId, Monitor>, ops: seq<Op>)
    ensures Inv(cfg, Run(cfg, Initial(monitors), ops))
  {
    RunKeepsInv(cfg, Initial(monitors), ops);
  }

  // ----- what the batch promises -----

  function TimesAsked(observations: seq<Asked>, m: MonitorId): nat {
    if observations == [] then 0
    else TimesAsked(observations[..|observations| - 1], m)
         + if observations[|observations| - 1].claim.monitor == m then 1 else 0
  }

  /** Distinct claims of one monitor have distinct attempt numbers. */
  lemma {:induction false} AskedByAttempt(observations: seq<Asked>, m: MonitorId, max: nat) returns (attempts: set<nat>)
    requires forall i, j | 0 <= i < j < |observations| :: observations[i].claim != observations[j].claim
    requires forall o | o in observations :: 1 <= o.claim.attempt <= max
    ensures |attempts| == TimesAsked(observations, m)
    ensures forall a | a in attempts :: 1 <= a <= max && exists o :: o in observations && o.claim == Claim(m, a)
  {
    if observations == [] {
      attempts := {};
    } else {
      var n := |observations| - 1;
      var last := observations[n];
      attempts := AskedByAttempt(observations[..n], m, max);
      if last.claim.monitor == m {
        forall o | o in observations[..n] ensures o.claim != last.claim {}
        attempts := attempts + {last.claim.attempt};
      }
    }
  }

  lemma {:induction false} WithinRange(s: set<nat>, n: nat)
    requires forall a | a in s :: 1 <= a <= n
    ensures |s| <= n
  {
    if n > 0 {
      WithinRange(s - {n}, n - 1);
    } else {
      assert s == {};
    }
  }

  lemma AskedWithinBound(cfg: Config, w: World, m: MonitorId)
    requires Inv(cfg, w)
    ensures TimesAsked(w.observations, m) <= cfg.maxAttempts
  {
    hide TimesAsked, JournalOk, ItemsOk, BatchOk, CallsOk, RecordingsOk;
    var attempts := AskedByAttempt(w.observations, m, cfg.maxAttempts);
    WithinRange(attempts, cfg.maxAttempts);
  }

  /** Across all workers, crashes and reclaims, the provider is asked at most `maxAttempts` times per monitor. */
  lemma ObservationBound(cfg: Config, monitors: map<MonitorId, Monitor>, ops: seq<Op>, m: MonitorId)
    ensures TimesAsked(Run(cfg, Initial(monitors), ops).observations, m) <= cfg.maxAttempts
  {
    Reachable(cfg, monitors, ops);
    hide Inv, TimesAsked;
    AskedWithinBound(cfg, Run(cfg, Initial(monitors), ops), m);
  }

  /** At most one snapshot is recorded per monitor, and it is what the provider answered. */
  lemma OneRecording(cfg: Config, monitors: map<MonitorId, Monitor>, ops: seq<Op>)
    ensures var w := Run(cfg, Initial(monitors), ops);
            && (forall i, j | 0 <= i < j < |w.recordings| :: w.recordings[i].monitor != w.recordings[j].monitor)
            && (forall s | s in w.recordings :: s in w.db.journal.snapshots && WasAnswered(w.observations, s))
  {
    Reachable(cfg, monitors, ops);
    hide Run, OnFile, WasAnswered, ItemsOk, BatchOk, CallsOk;
    var w := Run(cfg, Initial(monitors), ops);
    forall s | s in w.recordings ensures s in w.db.journal.snapshots {
      FiledIsStored(w.db.journal, s);
    }
  }

  lemma FiledIsStored(j: Journal, s: Snapshot)
    requires s.monitor in j.records && j.records[s.monitor].ref == I.Done(s) && OnFile(j, s.monitor)
    ensures s in j.snapshots
  {}

  /** A COMPLETED item has its observation recorded, as it was answered. */
  lemma CompletedMeansRecorded(cfg: Config, monitors: map<MonitorId, Monitor>, ops: seq<Op>, m: MonitorId)
    requires m in Run(cfg, Initial(monitors), ops).db.items
             && Run(cfg, Initial(monitors), ops).db.items[m].state == Completed
    ensures var w := Run(cfg, Initial(monitors), ops);
            exists s :: s in w.recordings && s.monitor == m && s in w.db.journal.snapshots
              && WasAnswered(w.observations, s)
  {
    Reachable(cfg, monitors, ops);
    OneRecording(cfg, monitors, ops);
    hide Run, WasAnswered, BatchOk, CallsOk;
    var w := Run(cfg, Initial(monitors), ops);
    assert OnFile(w.db.journal, m);
    assert w.db.journal.records[m].ref.result in w.recordings;
  }

  predicate Terminal(i: Item) { i.state == Completed || i.state == Failed }

  lemma TerminalStep(cfg: Config, w: World, op: Op, m: MonitorId)
    requires m in w.db.items && Terminal(w.db.items[m])
    ensures m in Step(cfg, w, op).db.items && Step(cfg, w, op).db.items[m] == w.db.items[m]
  {
    hide Page, Delay, RecordTx;
    if op.RecordObservation? { RecordLeavesItems(w, op.claim, op.outboxAccepts); hide StepRecord; }
  }

  lemma RecordLeavesItems(w: World, c: Claim, accepts: bool)
    ensures StepRecord(w, c, accepts).db.items == w.db.items && StepRecord(w, c, accepts).db.batch == w.db.batch
  {}

  /** COMPLETED and FAILED items are never touched again, whatever stale workers still do. */
  lemma {:induction false} TerminalItemStays(cfg: Config, w: World, ops: seq<Op>, m: MonitorId)
    requires m in w.db.items && Terminal(w.db.items[m])
    ensures m in Run(cfg, w, ops).db.items && Run(cfg, w, ops).db.items[m] == w.db.items[m]
    decreases |ops|
  {
    if ops != [] {
      TerminalStep(cfg, w, ops[0], m);
      hide Step;
      TerminalItemStays(cfg, Step(cfg, w, ops[0]), ops[1..], m);
    }
  }

  /** A COMPLETED batch is wholly collected with every item terminal. */
  lemma CompletedBatchIsFinished(cfg: Config, monitors: map<MonitorId, Monitor>, ops: seq<Op>)
    requires var b := Run(cfg, Initial(monitors), ops).db.batch; b.Some? && b.value.status == Done
    ensures var w := Run(cfg, Initial(monitors), ops);
            w.db.batch.value.collected && w.db.batch.value.completed.Some?
              && forall m | m in w.db.items :: Terminal(w.db.items[m])
  {
    Reachable(cfg, monitors, ops);
    var w := Run(cfg, Initial(monitors), ops);
    hide Run, JournalOk, CallsOk, ItemsOk, ObservationsOk, RecordingsOk;
    forall m | m in w.db.items ensures Terminal(w.db.items[m]) { assert m !in Unfinished(w.db.items); }
  }

  ghost predicate Finished(w: World) {
    && w.db.batch.Some? && w.db.batch.value.status == Done && w.db.batch.value.completed.Some?
       && w.db.batch.value.collected
    && forall m | m in w.db.items :: Terminal(w.db.items[m])
  }

  lemma FinishedStep(cfg: Config, w: World, op: Op)
    requires Finished(w)
    ensures Step(cfg, w, op).db.batch == w.db.batch && Step(cfg, w, op).db.items == w.db.items
  {
    hide Page, Delay, RecordTx;
    if op.RecordObservation? { RecordLeavesItems(w, op.claim, op.outboxAccepts); hide StepRecord; }
    assert Unfinished(w.db.items) == {};
  }

  /** A COMPLETED batch stays COMPLETED, with the same completion time and the same items. */
  lemma {:induction false} CompletedBatchStays(cfg: Config, w: World, ops: seq<Op>)
    requires Finished(w)
    ensures Run(cfg, w, ops).db.batch == w.db.batch && Run(cfg, w, ops).db.items == w.db.items
    decreases |ops|
  {
    if ops != [] {
      FinishedStep(cfg, w, ops[0]);
      hide Step;
      CompletedBatchStays(cfg, Step(cfg, w, ops[0]), ops[1..]);
    }
  }

  // ----- the pages hold exactly the monitors that were due -----

  /** Not yet reached by the pages. */
  predicate Ahead(batch: Option<Batch>, m: MonitorId) {
    batch.None? || (!batch.value.collected && Beyond(batch.value.cursor, m))
  }

  predicate SameDue(a: Monitor, b: Monitor) { a.active == b.active && a.nextCheck == b.nextCheck }

  ghost predicate Collects(w: World, initial: map<MonitorId, Monitor>, scheduled: Time) {
    && w.db.monitors.Keys == initial.Keys
    && (forall m | m in initial && Ahead(w.db.batch, m) :: SameDue(w.db.monitors[m], initial[m]))
    && (forall m :: m in w.db.items <==> m in initial && Due(initial[m], scheduled) && !Ahead(w.db.batch, m))
  }

  /** Only this protocol changes monitors, and every page is taken for the same schedule. */
  ghost predicate Steady(ops: seq<Op>, scheduled: Time) {
    forall i | 0 <= i < |ops| :: !ops[i].SaveMonitor? && (ops[i].Materialize? ==> ops[i].scheduled == scheduled)
  }

  /** One page leaves ahead exactly what it did not take. */
  lemma PageReaches(b: Batch, due: set<MonitorId>, limit: nat, b': Batch)
    requires limit != 0 && !b.collected && forall m | m in due :: Beyond(b.cursor, m)
    requires var rows := Page(due, limit);
             && b'.cursor == (if rows == [] then b.cursor else Some(rows[|rows| - 1]))
                && b'.collected == (|rows| < limit)
    ensures forall m | m in due :: m in Page(due, limit) <==> !Ahead(Some(b'), m)
    ensures forall m | m in Page(due, limit) :: m in due
    ensures forall m | Ahead(Some(b'), m) :: Ahead(Some(b), m)
  {
    var rows := Page(due, limit);
    PageTakesTheFirst(due, limit);
    if rows != [] {
      assert rows[|rows| - 1] in rows;
      forall m | m in rows ensures m <= rows[|rows| - 1] {}
    }
  }

  /** While the pages are not complete, what is due beyond the cursor is what was due at the start and is still
      ahead. */
  lemma DueIsAhead(w: World, initial: map<MonitorId, Monitor>, scheduled: Time)
    requires Collects(w, initial, scheduled) && w.db.batch.Some? && !w.db.batch.value.collected
    ensures var due := DueBeyond(w.db.monitors, scheduled, w.db.batch.value.cursor);
            forall m :: m in due <==> m in initial && Due(initial[m], scheduled) && Ahead(w.db.batch, m)
  {}

  lemma MaterializeCollects(w: World, initial: map<MonitorId, Monitor>, scheduled: Time, limit: nat)
    requires Collects(w, initial, scheduled)
    ensures Collects(StepMaterialize(w, scheduled, limit), initial, scheduled)
  {
    hide Page, Due, SameDue, Ahead, Beyond, DueBeyond;
    if w.db.batch.Some? && limit != 0 && !w.db.batch.value.collected {
      var due := DueBeyond(w.db.monitors, scheduled, w.db.batch.value.cursor);
      DueIsAhead(w, initial, scheduled);
      AheadIsBeyond(w.db.batch.value);
      PageReaches(w.db.batch.value, due, limit, StepMaterialize(w, scheduled, limit).db.batch.value);
      assert forall m :: m in NewItems(Page(due, limit), scheduled) <==> m in Page(due, limit);
      hide NewItems;
    }
  }

  lemma AheadIsBeyond(b: Batch)
    requires !b.collected
    ensures forall m :: Ahead(Some(b), m) <==> Beyond(b.cursor, m)
  {}

  lemma StepCollects(cfg: Config, w: World, op: Op, initial: map<MonitorId, Monitor>, scheduled: Time)
    requires Inv(cfg, w) && Collects(w, initial, scheduled) && !op.SaveMonitor?
             && (op.Materialize? ==> op.scheduled == scheduled)
    ensures Collects(Step(cfg, w, op), initial, scheduled)
  {
    hide Ascending, JournalOk, OnFile, BatchOk, ObservationsOk, RecordingsOk, ItemsOk, Page, Delay;
    hide StepMaterialize, StepRecord, StepFail;
    match op
    case Materialize(_, limit) => MaterializeCollects(w, initial, scheduled, limit);
    case RecordObservation(c, accepts) => RecordCollects(cfg, w, c, accepts, initial, scheduled);
    case Fail(c) => FailCollects(cfg, w, c, initial, scheduled);
    case _ =>
  }

  lemma RecordCollects(cfg: Config, w: World, c: Claim, accepts: bool, initial: map<MonitorId, Monitor>,
                       scheduled: Time)
    requires Inv(cfg, w) && Collects(w, initial, scheduled)
    ensures Collects(StepRecord(w, c, accepts), initial, scheduled)
  {
    hide Ascending, JournalOk, OnFile, BatchOk, ObservationsOk, RecordingsOk, ItemsOk, Page, Delay;
  }

  lemma FailCollects(cfg: Config, w: World, c: Claim, initial: map<MonitorId, Monitor>, scheduled: Time)
    requires Inv(cfg, w) && Collects(w, initial, scheduled)
    ensures Collects(StepFail(cfg, w, c), initial, scheduled)
  {
    hide Ascending, JournalOk, OnFile, BatchOk, ObservationsOk, RecordingsOk, ItemsOk, Page, Delay;
  }

  lemma {:induction false} RunCollects(cfg: Config, w: World, ops: seq<Op>, initial: map<MonitorId, Monitor>,
                                       scheduled: Time)
    requires Inv(cfg, w) && Collects(w, initial, scheduled) && Steady(ops, scheduled)
    ensures Collects(Run(cfg, w, ops), initial, scheduled)
    decreases |ops|
  {
    if ops != [] {
      StepKeepsInv(cfg, w, ops[0]);
      StepCollects(cfg, w, ops[0], initial, scheduled);
      hide Step, Inv, Collects;
      RunCollects(cfg, Step(cfg, w, ops[0]), ops[1..], initial, scheduled);
    }
  }

  /** Once collection is complete, the pages hold every monitor that was due at the start exactly once,
      in ascending order; and these, and no others, are the batch's items. */
  lemma PagesHoldExactlyTheDue(cfg: Config, monitors: map<MonitorId, Monitor>, ops: seq<Op>, scheduled: Time,
                               m: MonitorId)
    requires Steady(ops, scheduled)
    requires var b := Run(cfg, Initial(monitors), ops).db.batch; b.Some? && b.value.collected
    ensures var w := Run(cfg, Initial(monitors), ops);
            && Ascending(w.rows)
            && (m in w.rows <==> m in monitors && Due(monitors[m], scheduled))
            && (m in w.db.items <==> m in monitors && Due(monitors[m], scheduled))
  {
    Reachable(cfg, monitors, ops);
    RunCollects(cfg, Initial(monitors), ops, monitors, scheduled);
    var w := Run(cfg, Initial(monitors), ops);
    hide Run, JournalOk, CallsOk, ItemsOk, ObservationsOk, RecordingsOk, Ascending;
  }

  // ----- one item, undisturbed -----

  /** All steps of `_process_item`; those whose turn does not come change nothing. */
  ghost function Process(cfg: Config, w: World, c: Claim, now: Time, outcome: Outcome, accepts: bool): World {
    var observed := StepObserve(StepLoad(StepBegin(cfg, w, c, now), c), c, outcome);
    StepFail(cfg, StepFail(cfg, StepComplete(StepRecord(observed, c, accepts), c), c), c)
  }

  /** The observation can be recorded, or already is. */
  predicate Recordable(db: Db, m: MonitorId, o: Observation, accepts: bool) {
    m in db.monitors && db.monitors[m].identifier == o.identifier && (m in db.journal.records || accepts)
  }

  lemma RecordsExactlyIfRecordable(db: Db, recordings: seq<Snapshot>, m: MonitorId, o: Observation, accepts: bool,
                                   now: Time)
    requires JournalOk(db.journal, recordings)
    ensures RecordTx(db, m, o, accepts, now).Commit? <==> Recordable(db, m, o, accepts)
  {}
}
