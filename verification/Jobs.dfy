/** The durable job queue: claims fenced by worker and lease, an attempt number per claim, and an outbox
    event committed together with every outcome.

    `Step` interleaves any number of workers, one unit of work at a time; a worker has one claim in
    flight, and a crash drops it. */
module Jobs {
  import opened Common
  import Text

  type JobId = string
  type Worker = string
  type Time = real

  datatype State = Queued | Running | Succeeded | RetryableFailure | Failed
  datatype Lease = Lease(worker: Worker, until: Time)
  datatype Job = Job(
    kind: string, key: string, payload: string, attempt: nat, state: State, available: Time,
    lease: Option<Lease>, lastError: Option<string>)

  datatype EventType = JobCompleted | RetryScheduled | JobFailed
  /** Event ids are hashes of these three parts. */
  datatype EventId = EventId(what: EventType, job: JobId, attempt: nat)
  datatype Event = Event(kind: string, detail: Option<string>, available: Option<Time>, at: Time)

  datatype Db = Db(jobs: map<JobId, Job>, outbox: map<EventId, Event>)
  datatype JobError = IdCollision | KeyTaken | BlankError | LeaseRejected | EventCollision

  // ----- retry policy -----

  datatype RetryPolicy = RetryPolicy(maxAttempts: nat, initial: real, maxDelay: real)

  predicate ValidPolicy(p: RetryPolicy) { p.maxAttempts >= 1 && p.initial > 0.0 && p.maxDelay > 0.0 }

  function DelayFor(p: RetryPolicy, attempt: nat): real
    requires attempt >= 1
  {
    var d := p.initial * Pow2(attempt - 1) as real;
    if d <= p.maxDelay then d else p.maxDelay
  }

  predicate IsRetryable(p: RetryPolicy, attempt: nat) { attempt < p.maxAttempts }

  lemma {:induction false} Pow2AtLeastOne(n: nat)
    ensures Pow2(n) >= 1
  {
    if n > 0 { Pow2AtLeastOne(n - 1); }
  }

  /** Backoff starts at the initial delay, doubles with every attempt until it reaches the maximum, and stays there. */
  lemma BackoffDoublesToMaximum(p: RetryPolicy, attempt: nat)
    requires ValidPolicy(p) && attempt >= 1
    ensures 0.0 < DelayFor(p, attempt) <= p.maxDelay
    ensures DelayFor(p, attempt + 1)
            == if 2.0 * DelayFor(p, attempt) <= p.maxDelay then 2.0 * DelayFor(p, attempt) else p.maxDelay
    ensures DelayFor(p, 1) == if p.initial <= p.maxDelay then p.initial else p.maxDelay
  {
    Pow2AtLeastOne(attempt - 1);
    var q := Pow2(attempt - 1) as real;
    assert Pow2(attempt) == 2 * Pow2(attempt - 1);
    assert p.initial * q >= p.initial * 1.0;
    assert p.initial * (2.0 * q) == 2.0 * (p.initial * q);
  }

  // ----- units of work -----

  /** Idempotency keys are unique; a conflict on the id itself is looked at first. */
  function EnqueueTx(db: Db, id: JobId, job: Job): Tx<Db, Job, JobError> {
    if id !in db.jobs then
      if exists j :: j in db.jobs && db.jobs[j].key == job.key then Raise(KeyTaken)
      else Commit(db.(jobs := db.jobs[id := job]), job)
    else if db.jobs[id] != job then Raise(IdCollision)
    else Commit(db, job)
  }

  predicate Claimable(j: Job, now: Time) {
    || ((j.state == Queued || j.state == RetryableFailure) && j.available <= now)
    || (j.state == Running && j.lease.Some? && j.lease.value.until <= now)
  }

  function ClaimedJob(j: Job, worker: Worker, leaseSeconds: nat, now: Time): Job {
    j.(state := Running, attempt := if j.state == Queued && j.attempt == 1 then 1 else j.attempt + 1,
       lease := Some(Lease(worker, now + leaseSeconds as real)), lastError := None)
  }

  predicate Holds(j: Job, worker: Worker, now: Time) {
    j.state == Running && j.lease.Some? && j.lease.value.worker == worker && j.lease.value.until > now
  }

  function RenewTx(db: Db, id: JobId, worker: Worker, leaseSeconds: nat, now: Time): Tx<Db, Job, JobError> {
    if id !in db.jobs || !Holds(db.jobs[id], worker, now) then Raise(LeaseRejected)
    else
      var j := db.jobs[id].(lease := Some(Lease(worker, now + leaseSeconds as real)));
      Commit(db.(jobs := db.jobs[id := j]), j)
  }

  function AppendEvent(outbox: map<EventId, Event>, id: EventId, e: Event): Tx<map<EventId, Event>, (), JobError> {
    if id in outbox && outbox[id] != e then Raise(EventCollision)
    else if id in outbox then Commit(outbox, ()) else Commit(outbox[id := e], ())
  }

  /** Completion: the row's own attempt number goes into the event. */
  function CompleteTx(db: Db, id: JobId, worker: Worker, output: Option<string>, now: Time): Tx<Db, Job, JobError> {
    if id !in db.jobs || !Holds(db.jobs[id], worker, now) then Raise(LeaseRejected)
    else
      var j := db.jobs[id].(state := Succeeded, lease := None);
      var appended := AppendEvent(db.outbox, EventId(JobCompleted, id, j.attempt), Event(j.kind, output, None, now));
      if appended.Raise? then Raise(appended.error)
      else Commit(Db(db.jobs[id := j], appended.db), j)
  }

  predicate Blank(s: string) { forall i | 0 <= i < |s| :: Text.IsBlank(s[i]) }

  /** Failure: the attempt number of the worker's own claim decides about a retry and goes into the event. */
  function FailTx(db: Db, p: RetryPolicy, id: JobId, worker: Worker, claimed: Job, retryable: bool, error: string,
                  now: Time)
    : Tx<Db, Job, JobError>
    requires claimed.attempt >= 1
  {
    var again := retryable && IsRetryable(p, claimed.attempt);
    var available := if again then now + DelayFor(p, claimed.attempt) else now;
    if Blank(error) then Raise(BlankError)
    else if id !in db.jobs || !Holds(db.jobs[id], worker, now) then Raise(LeaseRejected)
    else
      var j := db.jobs[id].(state := if again then RetryableFailure else Failed, lease := None,
                            lastError := Some(error), available := available);
      var event := EventId(if again then RetryScheduled else JobFailed, id, claimed.attempt);
      var appended := AppendEvent(db.outbox, event, Event(claimed.kind, Some(error), Some(available), now));
      if appended.Raise? then Raise(appended.error)
      else Commit(Db(db.jobs[id := j], appended.db), j)
  }

  // ----- interleavings -----

  datatype Config = Config(policy: RetryPolicy, leaseSeconds: nat)

  /** The claim a worker is working on. */
  datatype Call = Call(job: JobId, claimed: Job)
  datatype Claim = Claim(job: JobId, attempt: nat, worker: Worker, at: Time)

  /** `claims` is history: all claims ever made, in order. */
  datatype World = World(db: Db, calls: map<Worker, Call>, claims: seq<Claim>)

  datatype Op =
    | Enqueue(id: JobId, job: Job)
    | ClaimNext(worker: Worker, id: JobId, now: Time)
    | Renew(worker: Worker, now: Time)
    | Complete(worker: Worker, output: Option<string>, now: Time)
    | Fail(worker: Worker, retryable: bool, error: string, now: Time)
    | Crash(worker: Worker)

  function Drop(w: World, worker: Worker): World { w.(calls := w.calls - {worker}) }

  /** New jobs are queued, without a lease and with a positive attempt number. */
  function StepEnqueue(w: World, id: JobId, job: Job): World {
    var tx := EnqueueTx(w.db, id, job);
    if tx.Raise? || job.state != Queued || job.lease.Some? || job.attempt == 0 then w else w.(db := tx.db)
  }

  function StepClaim(cfg: Config, w: World, worker: Worker, id: JobId, now: Time): World {
    if worker in w.calls || id !in w.db.jobs || !Claimable(w.db.jobs[id], now) then w
    else
      var j := ClaimedJob(w.db.jobs[id], worker, cfg.leaseSeconds, now);
      w.(db := w.db.(jobs := w.db.jobs[id := j]), calls := w.calls[worker := Call(id, j)],
         claims := w.claims + [Claim(id, j.attempt, worker, now)])
  }

  function StepRenew(cfg: Config, w: World, worker: Worker, now: Time): World {
    if worker !in w.calls then w
    else
      var tx := RenewTx(w.db, w.calls[worker].job, worker, cfg.leaseSeconds, now);
      if tx.Raise? then w else w.(db := tx.db)
  }

  function StepComplete(w: World, worker: Worker, output: Option<string>, now: Time): World {
    if worker !in w.calls then w
    else
      var tx := CompleteTx(w.db, w.calls[worker].job, worker, output, now);
      Drop(if tx.Raise? then w else w.(db := tx.db), worker)
  }

  function StepFail(cfg: Config, w: World, worker: Worker, retryable: bool, error: string, now: Time): World {
    if worker !in w.calls || w.calls[worker].claimed.attempt == 0 then w
    else
      var tx := FailTx(w.db, cfg.policy, w.calls[worker].job, worker, w.calls[worker].claimed, retryable, error, now);
      Drop(if tx.Raise? then w else w.(db := tx.db), worker)
  }

  function Step(cfg: Config, w: World, op: Op): World {
    match op
    case Enqueue(id, job) => StepEnqueue(w, id, job)
    case ClaimNext(worker, id, now) => StepClaim(cfg, w, worker, id, now)
    case Renew(worker, now) => StepRenew(cfg, w, worker, now)
    case Complete(worker, output, now) => StepComplete(w, worker, output, now)
    case Fail(worker, retryable, error, now) => StepFail(cfg, w, worker, retryable, error, now)
    case Crash(worker) => Drop(w, worker)
  }

  const Empty: World := World(Db(map[], map[]), map[], [])

  function Run(cfg: Config, w: World, ops: seq<Op>): World
    decreases |ops|
  {
    if ops == [] then w else Run(cfg, Step(cfg, w, ops[0]), ops[1..])
  }

  // ----- invariant -----

  predicate OwnedBy(j: Job, worker: Worker) { j.state == Running && j.lease.Some? && j.lease.value.worker == worker }

  ghost predicate CallsOk(w: World) {
    forall n | n in w.calls ::
      var c := w.calls[n];
      && c.job in w.db.jobs && c.claimed.kind == w.db.jobs[c.job].kind
      && 1 <= c.claimed.attempt <= w.db.jobs[c.job].attempt
      && (OwnedBy(w.db.jobs[c.job], n) ==> c.claimed.attempt == w.db.jobs[c.job].attempt)
  }

  ghost predicate JobsOk(w: World) {
    forall id | id in w.db.jobs ::
      && w.db.jobs[id].attempt >= 1
      && (w.db.jobs[id].state == Running <==> w.db.jobs[id].lease.Some?)
  }

  /** An event belongs to an attempt that is over; a terminal job's event is of its last attempt. */
  ghost predicate EventsOk(p: RetryPolicy, db: Db) {
    && (forall e | e in db.outbox ::
          && e.job in db.jobs && 1 <= e.attempt <= db.jobs[e.job].attempt
          && db.jobs[e.job].state != Queued
          && (db.jobs[e.job].state == Running ==> e.attempt < db.jobs[e.job].attempt)
          && match e.what
             case JobCompleted => db.jobs[e.job].state == Succeeded && e.attempt == db.jobs[e.job].attempt
             case JobFailed => db.jobs[e.job].state == Failed && e.attempt == db.jobs[e.job].attempt
             case RetryScheduled =>
               e.attempt < p.maxAttempts
               && (e.attempt == db.jobs[e.job].attempt ==> db.jobs[e.job].state == RetryableFailure))
    && (forall id | id in db.jobs ::
          && (db.jobs[id].state == Succeeded ==> EventId(JobCompleted, id, db.jobs[id].attempt) in db.outbox)
          && (db.jobs[id].state == Failed ==> EventId(JobFailed, id, db.jobs[id].attempt) in db.outbox)
          && (db.jobs[id].state == RetryableFailure ==> EventId(RetryScheduled, id, db.jobs[id].attempt) in db.outbox))
  }

  ghost predicate ClaimsOk(w: World) {
    && (forall i | 0 <= i < |w.claims| ::
          && w.claims[i].job in w.db.jobs && w.claims[i].attempt <= w.db.jobs[w.claims[i].job].attempt
          && w.db.jobs[w.claims[i].job].state != Queued)
    && (forall i, j | 0 <= i < j < |w.claims| && w.claims[i].job == w.claims[j].job ::
        w.claims[i].attempt < w.claims[j].attempt)
  }

  ghost predicate Inv(cfg: Config, w: World) { CallsOk(w) && JobsOk(w) && EventsOk(cfg.policy, w.db) && ClaimsOk(w) }

  lemma EnqueueKeepsInv(cfg: Config, w: World, id: JobId, job: Job)
    requires Inv(cfg, w)
    ensures Inv(cfg, StepEnqueue(w, id, job))
  {}

  lemma ClaimKeepsCalls(cfg: Config, w: World, worker: Worker, id: JobId, now: Time)
    requires CallsOk(w) && JobsOk(w)
    ensures CallsOk(StepClaim(cfg, w, worker, id, now)) && JobsOk(StepClaim(cfg, w, worker, id, now))
  {}

  lemma ClaimKeepsEvents(cfg: Config, w: World, worker: Worker, id: JobId, now: Time)
    requires EventsOk(cfg.policy, w.db) && JobsOk(w)
    ensures EventsOk(cfg.policy, StepClaim(cfg, w, worker, id, now).db)
  {}

  lemma ClaimKeepsClaims(cfg: Config, w: World, worker: Worker, id: JobId, now: Time)
    requires ClaimsOk(w)
    ensures ClaimsOk(StepClaim(cfg, w, worker, id, now))
  {}

  lemma ClaimKeepsInv(cfg: Config, w: World, worker: Worker, id: JobId, now: Time)
    requires Inv(cfg, w)
    ensures Inv(cfg, StepClaim(cfg, w, worker, id, now))
  {
    hide StepClaim, CallsOk, JobsOk, EventsOk, ClaimsOk;
    ClaimKeepsCalls(cfg, w, worker, id, now);
    ClaimKeepsEvents(cfg, w, worker, id, now);
    ClaimKeepsClaims(cfg, w, worker, id, now);
  }

  lemma RenewKeepsInv(cfg: Config, w: World, worker: Worker, now: Time)
    requires Inv(cfg, w)
    ensures Inv(cfg, StepRenew(cfg, w, worker, now))
  {
    RenewMovesLease(cfg, w, worker, now);
    hide StepRenew;
  }

  /** A renewal changes nothing but the end of the lease. */
  lemma RenewMovesLease(cfg: Config, w: World, worker: Worker, now: Time)
    ensures var w' := StepRenew(cfg, w, worker, now);
            && w'.calls == w.calls && w'.claims == w.claims && w'.db.outbox == w.db.outbox
               && w'.db.jobs.Keys == w.db.jobs.Keys
            && forall id | id in w.db.jobs ::
                 var j, j' := w.db.jobs[id], w'.db.jobs[id];
                 && j' == j.(lease := j'.lease) && (j'.lease.Some? <==> j.lease.Some?)
                 && (j.lease.Some? ==> j'.lease.value.worker == j.lease.value.worker)
  {}

  /** What state an outcome event speaks of. */
  function Outcome(what: EventType): State {
    match what case JobCompleted => Succeeded case JobFailed => Failed case RetryScheduled => RetryableFailure
  }

  /** A running job is settled together with the event of its last attempt. */
  lemma SettleKeepsEvents(p: RetryPolicy, db: Db, id: JobId, j: Job, what: EventType, e: Event)
    requires EventsOk(p, db) && id in db.jobs && db.jobs[id].state == Running && db.jobs[id].attempt >= 1
    requires j.state == Outcome(what) && j.attempt == db.jobs[id].attempt
    requires what == RetryScheduled ==> j.attempt < p.maxAttempts
    ensures EventId(what, id, j.attempt) !in db.outbox
    ensures EventsOk(p, Db(db.jobs[id := j], db.outbox[EventId(what, id, j.attempt) := e]))
  {}

  lemma CompleteKeepsEvents(cfg: Config, w: World, worker: Worker, output: Option<string>, now: Time)
    requires JobsOk(w) && EventsOk(cfg.policy, w.db)
    ensures EventsOk(cfg.policy, StepComplete(w, worker, output, now).db)
  {
    hide EventsOk;
    if worker in w.calls {
      var id := w.calls[worker].job;
      if id in w.db.jobs && Holds(w.db.jobs[id], worker, now) {
        var j := w.db.jobs[id].(state := Succeeded, lease := None);
        SettleKeepsEvents(cfg.policy, w.db, id, j, JobCompleted, Event(j.kind, output, None, now));
      }
    }
  }

  lemma CompleteKeepsInv(cfg: Config, w: World, worker: Worker, output: Option<string>, now: Time)
    requires Inv(cfg, w)
    ensures Inv(cfg, StepComplete(w, worker, output, now))
  {
    hide EventsOk, AppendEvent;
    CompleteKeepsEvents(cfg, w, worker, output, now);
  }

  /** A worker that still holds its job fails it under the attempt number of its claim, which is the row's. */
  lemma FailKeepsEvents(cfg: Config, w: World, worker: Worker, retryable: bool, error: string, now: Time)
    requires CallsOk(w) && JobsOk(w) && EventsOk(cfg.policy, w.db)
    ensures EventsOk(cfg.policy, StepFail(cfg, w, worker, retryable, error, now).db)
  {
    hide EventsOk, DelayFor, Blank;
    if worker in w.calls {
      var c := w.calls[worker];
      if Holds(w.db.jobs[c.job], worker, now) {
        var again := retryable && IsRetryable(cfg.policy, c.claimed.attempt);
        var available := if again then now + DelayFor(cfg.policy, c.claimed.attempt) else now;
        var j := w.db.jobs[c.job].(state := if again then RetryableFailure else Failed, lease := None,
                                   lastError := Some(error), available := available);
        SettleKeepsEvents(cfg.policy, w.db, c.job, j, if again then RetryScheduled else JobFailed,
                          Event(c.claimed.kind, Some(error), Some(available), now));
      }
    }
  }

  lemma FailKeepsInv(cfg: Config, w: World, worker: Worker, retryable: bool, error: string, now: Time)
    requires Inv(cfg, w)
    ensures Inv(cfg, StepFail(cfg, w, worker, retryable, error, now))
  {
    hide EventsOk, AppendEvent, DelayFor, Blank, IsRetryable;
    FailKeepsEvents(cfg, w, worker, retryable, error, now);
  }

  lemma DropKeepsInv(cfg: Config, w: World, worker: Worker)
    requires Inv(cfg, w)
    ensures Inv(cfg, Drop(w, worker))
  {}

  lemma StepKeepsInv(cfg: Config, w: World, op: Op)
    requires Inv(cfg, w)
    ensures Inv(cfg, Step(cfg, w, op))
  {
    hide Inv, StepEnqueue, StepClaim, StepRenew, StepComplete, StepFail;
    match op
    case Enqueue(id, job) => EnqueueKeepsInv(cfg, w, id, job);
    case ClaimNext(worker, id, now) => ClaimKeepsInv(cfg, w, worker, id, now);
    case Renew(worker, now) => RenewKeepsInv(cfg, w, worker, now);
    case Complete(worker, output, now) => CompleteKeepsInv(cfg, w, worker, output, now);
    case Fail(worker, retryable, error, now) => FailKeepsInv(cfg, w, worker, retryable, error, now);
    case Crash(worker) => DropKeepsInv(cfg, w, worker);
  }

  lemma {:induction false} RunKeepsInv(cfg: Config, w: World, ops: seq<Op>)
    requires Inv(cfg, w)
    ensures Inv(cfg, Run(cfg, w, ops))
    decreases |ops|
  {
    if ops != [] {
      StepKeepsInv(cfg, w, ops[0]);
      RunKeepsInv(cfg, Step(cfg, w, ops[0]), ops[1..]);
    }
  }

  lemma Reachable(cfg: Config, ops: seq<Op>)
    ensures Inv(cfg, Run(cfg, Empty, ops))
  {
    RunKeepsInv(cfg, Empty, ops);
  }

  /** An idempotency key names one job. */
  ghost predicate KeysAreUnique(jobs: map<JobId, Job>) {
    forall i, j | i in jobs && j in jobs && jobs[i].key == jobs[j].key :: i == j
  }

  lemma StepKeepsKeys(cfg: Config, w: World, op: Op)
    ensures forall i | i in w.db.jobs ::
              i in Step(cfg, w, op).db.jobs
              && Step(cfg, w, op).db.jobs[i].key == w.db.jobs[i].key
    ensures KeysAreUnique(w.db.jobs) ==> KeysAreUnique(Step(cfg, w, op).db.jobs)
  {
    hide AppendEvent, DelayFor, Holds, Claimable, Blank;
  }

  /** Over every run an idempotency key names one job, and a job keeps its key. */
  lemma {:induction false} KeyNamesOneJob(cfg: Config, w: World, ops: seq<Op>)
    requires KeysAreUnique(w.db.jobs)
    ensures KeysAreUnique(Run(cfg, w, ops).db.jobs)
    ensures forall i | i in w.db.jobs ::
              i in Run(cfg, w, ops).db.jobs
              && Run(cfg, w, ops).db.jobs[i].key == w.db.jobs[i].key
    decreases |ops|
  {
    if ops != [] {
      StepKeepsKeys(cfg, w, ops[0]);
      hide Step, KeysAreUnique;
      KeyNamesOneJob(cfg, Step(cfg, w, ops[0]), ops[1..]);
    }
  }

  // ----- fencing -----

  /** Every claim of a job has a larger attempt number than all claims of it before. */
  lemma AttemptsIncrease(cfg: Config, ops: seq<Op>, i: nat, j: nat)
    requires i < j < |Run(cfg, Empty, ops).claims|
    requires Run(cfg, Empty, ops).claims[i].job == Run(cfg, Empty, ops).claims[j].job
    ensures Run(cfg, Empty, ops).claims[i].attempt < Run(cfg, Empty, ops).claims[j].attempt
  {
    Reachable(cfg, ops);
  }

  /** While a worker owns a running row, the attempt number it works under is the row's. */
  lemma OwnerKnowsTheAttempt(cfg: Config, ops: seq<Op>, worker: Worker)
    requires worker in Run(cfg, Empty, ops).calls
    ensures var w := Run(cfg, Empty, ops);
            var c := w.calls[worker];
            c.job in w.db.jobs && (OwnedBy(w.db.jobs[c.job], worker) ==> c.claimed.attempt == w.db.jobs[c.job].attempt)
  {
    Reachable(cfg, ops);
  }

  predicate Terminal(j: Job) { j.state == Succeeded || j.state == Failed }

  lemma TerminalStep(cfg: Config, w: World, op: Op, id: JobId)
    requires id in w.db.jobs && Terminal(w.db.jobs[id])
    ensures id in Step(cfg, w, op).db.jobs && Step(cfg, w, op).db.jobs[id] == w.db.jobs[id]
  {
    hide DelayFor, Blank, AppendEvent;
  }

  /** Succeeded and failed are absorbing, whatever stale workers still do. */
  lemma {:induction false} TerminalStays(cfg: Config, w: World, ops: seq<Op>, id: JobId)
    requires id in w.db.jobs && Terminal(w.db.jobs[id])
    ensures id in Run(cfg, w, ops).db.jobs && Run(cfg, w, ops).db.jobs[id] == w.db.jobs[id]
    decreases |ops|
  {
    if ops != [] {
      TerminalStep(cfg, w, ops[0], id);
      hide Step;
      TerminalStays(cfg, Step(cfg, w, ops[0]), ops[1..], id);
    }
  }

  // ----- outcomes and their events -----

  /** The attempt numbers under which a job has an event of one type. */
  function EventAttempts(outbox: map<EventId, Event>, what: EventType, id: JobId): set<nat> {
    set e | e in outbox && e.what == what && e.job == id :: e.attempt
  }

  lemma OutcomeEventsNow(cfg: Config, w: World, id: JobId)
    requires EventsOk(cfg.policy, w.db) && id in w.db.jobs
    ensures EventAttempts(w.db.outbox, JobCompleted, id)
            == (if w.db.jobs[id].state == Succeeded then {w.db.jobs[id].attempt} else {})
    ensures EventAttempts(w.db.outbox, JobFailed, id)
            == (if w.db.jobs[id].state == Failed then {w.db.jobs[id].attempt} else {})
  {}

  /** A job has succeeded exactly when it has a `job.completed` event, and then exactly one; the same for
      failed and `job.failed`. Both carry the last attempt number. */
  lemma OutcomeEvents(cfg: Config, ops: seq<Op>, id: JobId)
    requires id in Run(cfg, Empty, ops).db.jobs
    ensures var db := Run(cfg, Empty, ops).db;
            && EventAttempts(db.outbox, JobCompleted, id)
               == (if db.jobs[id].state == Succeeded then {db.jobs[id].attempt} else {})
            && EventAttempts(db.outbox, JobFailed, id)
               == (if db.jobs[id].state == Failed then {db.jobs[id].attempt} else {})
  {
    Reachable(cfg, ops);
    OutcomeEventsNow(cfg, Run(cfg, Empty, ops), id);
    hide *;
  }

  lemma {:induction false} BelowCard(s: set<nat>, n: nat)
    requires forall a | a in s :: 1 <= a < n
    ensures |s| <= if n == 0 then 0 else n - 1
  {
    if n <= 1 {
      assert s == {};
    } else {
      BelowCard(s - {n - 1}, n - 1);
    }
  }

  /** A job is rescheduled at most `maxAttempts - 1` times, however often workers crash and reclaim it. */
  lemma RetryEventBound(cfg: Config, ops: seq<Op>, id: JobId)
    requires ValidPolicy(cfg.policy)
    ensures |EventAttempts(Run(cfg, Empty, ops).db.outbox, RetryScheduled, id)| <= cfg.policy.maxAttempts - 1
  {
    Reachable(cfg, ops);
    BelowCard(EventAttempts(Run(cfg, Empty, ops).db.outbox, RetryScheduled, id), cfg.policy.maxAttempts);
  }

  /** No outcome event ever collides with another: a worker that still holds its job always commits its
      outcome, and one that does not changes nothing. */
  lemma OutcomeCommitsExactlyIfHeld(cfg: Config, ops: seq<Op>, worker: Worker, output: Option<string>,
                                    retryable: bool, error: string, now: Time)
    requires worker in Run(cfg, Empty, ops).calls && !Blank(error)
    ensures var w := Run(cfg, Empty, ops);
            var c := w.calls[worker];
            var held := c.job in w.db.jobs && Holds(w.db.jobs[c.job], worker, now);
            && c.job in w.db.jobs && c.claimed.attempt >= 1
            && CompleteTx(w.db, c.job, worker, output, now).Commit? == held
            && FailTx(w.db, cfg.policy, c.job, worker, c.claimed, retryable, error, now).Commit? == held
            && (held ==> var completed := Step(cfg, w, Complete(worker, output, now)).db;
                         var failed := Step(cfg, w, Fail(worker, retryable, error, now)).db;
                         && completed.jobs[c.job].state == Succeeded && |completed.outbox| == |w.db.outbox| + 1
                         && |failed.outbox| == |w.db.outbox| + 1
                         && failed.jobs[c.job].state ==
                            if retryable && c.claimed.attempt < cfg.policy.maxAttempts then RetryableFailure
                              else Failed)
            && (!held ==>
                  Step(cfg, w, Complete(worker, output, now)).db == w.db
                  && Step(cfg, w, Fail(worker, retryable, error, now)).db == w.db)
  {
    Reachable(cfg, ops);
    hide Run, Blank, DelayFor;
    var w := Run(cfg, Empty, ops);
    FreshEvents(cfg, w, worker, now);
    hide EventsOk, ClaimsOk, JobsOk;
  }

  lemma FreshEvents(cfg: Config, w: World, worker: Worker, now: Time)
    requires Inv(cfg, w) && worker in w.calls
    ensures w.calls[worker].job in w.db.jobs
    ensures var c := w.calls[worker];
            Holds(w.db.jobs[c.job], worker, now) ==>
              && c.claimed.attempt == w.db.jobs[c.job].attempt
              && forall what :: EventId(what, c.job, c.claimed.attempt) !in w.db.outbox
  {}

  // ----- recovery -----

  /** After a crash the job is claimed again once its lease has run out, under the next attempt number;
      the first worker, should it come back, is then rejected, and the second one completes. */
  lemma CrashRecovery(cfg: Config, w: World, id: JobId, first: Worker, second: Worker, now: Time, later: Time)
    requires Inv(cfg, w) && id in w.db.jobs && OwnedBy(w.db.jobs[id], first) && w.db.jobs[id].lease.value.until <= now
    requires second !in w.calls && first != second && now <= later < now + cfg.leaseSeconds as real
    ensures var w1 := Step(cfg, w, ClaimNext(second, id, now));
            && id in w1.db.jobs && w1.db.jobs[id].attempt == w.db.jobs[id].attempt + 1
            && (forall t, output :: Same(w1, Step(cfg, w1, Complete(first, output, t)), id))
            && (forall t, r, e :: Same(w1, Step(cfg, w1, Fail(first, r, e, t)), id))
            && var w2 := Step(cfg, w1, Complete(second, None, later));
               id in w2.db.jobs && w2.db.jobs[id].state == Succeeded
  {
    var w1 := Step(cfg, w, ClaimNext(second, id, now));
    ClaimKeepsInv(cfg, w, second, id, now);
    FreshEvents(cfg, w1, second, later);
    assert second in w1.calls && w1.calls[second].job == id && OwnedBy(w1.db.jobs[id], second);
    hide EventsOk, ClaimsOk, JobsOk, CallsOk, DelayFor, Blank, StepClaim;
    forall t, output ensures Same(w1, Step(cfg, w1, Complete(first, output, t)), id) {
      StrangerChangesNothing(cfg, w1, first, id);
    }
    forall t, r, e ensures Same(w1, Step(cfg, w1, Fail(first, r, e, t)), id) {
      StrangerChangesNothing(cfg, w1, first, id);
    }
  }

  predicate Same(w: World, w': World, id: JobId) {
    id in w.db.jobs && id in w'.db.jobs && w'.db.jobs[id] == w.db.jobs[id]
  }

  lemma StrangerChangesNothing(cfg: Config, w: World, worker: Worker, id: JobId)
    requires id in w.db.jobs && !OwnedBy(w.db.jobs[id], worker)
    ensures forall t, output :: Same(w, StepComplete(w, worker, output, t), id)
    ensures forall t, r, e :: Same(w, StepFail(cfg, w, worker, r, e, t), id)
  {
    hide DelayFor, Blank, AppendEvent;
  }
}
