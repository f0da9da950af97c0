/** The job repository, the context handed to a handler and the runner, as objects that update in place. */
module JobRunner {
  import opened Common
  import opened Jobs

  class JobRepository {
    var jobs: map<JobId, Job>
    var outbox: map<EventId, Event>

    constructor (db: Db)
      ensures Tables() == db
    {
      jobs, outbox := db.jobs, db.outbox;
    }

    function Tables(): Db
      reads this
    {
      Db(jobs, outbox)
    }

    method Enqueue(id: JobId, job: Job) returns (tx: Tx<Db, Job, JobError>)
      modifies this`jobs
      ensures tx == EnqueueTx(old(Tables()), id, job)
      ensures Tables() == if tx.Commit? then tx.db else old(Tables())
    {
      if id in jobs {
        if jobs[id] != job {
          return Raise(IdCollision);
        }
        return Commit(Tables(), job);
      }
      if exists j :: j in jobs && jobs[j].key == job.key {
        return Raise(KeyTaken);
      }
      jobs := jobs[id := job];
      tx := Commit(Tables(), job);
    }

    /** `candidate` is the row the query has locked. */
    method ClaimNext(candidate: JobId, worker: Worker, leaseSeconds: nat, now: Time) returns (claimed: Option<Job>)
      modifies this`jobs
      ensures claimed.Some? == (candidate in old(jobs) && Claimable(old(jobs[candidate]), now))
      ensures claimed.Some? ==>
                && claimed.value == ClaimedJob(old(jobs[candidate]), worker, leaseSeconds, now)
                && jobs == old(jobs)[candidate := claimed.value]
      ensures claimed.None? ==> jobs == old(jobs)
    {
      if candidate !in jobs || !Claimable(jobs[candidate], now) {
        return None;
      }
      var job := jobs[candidate];
      if !(job.state == Queued && job.attempt == 1) {
        job := job.(attempt := job.attempt + 1);
      }
      job := job.(state := Running, lease := Some(Lease(worker, now + leaseSeconds as real)), lastError := None);
      jobs := jobs[candidate := job];
      claimed := Some(job);
    }

    method Renew(id: JobId, worker: Worker, leaseSeconds: nat, now: Time) returns (tx: Tx<Db, Job, JobError>)
      modifies this`jobs
      ensures tx == RenewTx(old(Tables()), id, worker, leaseSeconds, now)
      ensures Tables() == if tx.Commit? then tx.db else old(Tables())
    {
      if id !in jobs || !Holds(jobs[id], worker, now) {
        return Raise(LeaseRejected);
      }
      var job := jobs[id].(lease := Some(Lease(worker, now + leaseSeconds as real)));
      jobs := jobs[id := job];
      tx := Commit(Tables(), job);
    }

    method AppendOutbox(id: EventId, e: Event) returns (ok: bool)
      modifies this`outbox
      ensures ok == AppendEvent(old(outbox), id, e).Commit?
      ensures outbox == if ok then AppendEvent(old(outbox), id, e).db else old(outbox)
    {
      if id in outbox {
        return outbox[id] == e;
      }
      outbox := outbox[id := e];
      ok := true;
    }

    /** Complete the row and append its event, or neither. */
    method Complete(id: JobId, worker: Worker, output: Option<string>, now: Time) returns (tx: Tx<Db, Job, JobError>)
      modifies this
      ensures tx == CompleteTx(old(Tables()), id, worker, output, now)
      ensures Tables() == if tx.Commit? then tx.db else old(Tables())
    {
      var before := jobs;
      if id !in jobs || !Holds(jobs[id], worker, now) {
        return Raise(LeaseRejected);
      }
      var job := jobs[id].(state := Succeeded, lease := None);
      jobs := jobs[id := job];
      var ok := AppendOutbox(EventId(JobCompleted, id, job.attempt), Event(job.kind, output, None, now));
      if !ok {
        jobs := before;
        return Raise(EventCollision);
      }
      tx := Commit(Tables(), job);
    }

    /** Fail the row and append its event, or neither. */
    method RecordFailure(p: RetryPolicy, id: JobId, worker: Worker, claimed: Job, retryable: bool, error: string,
                         now: Time)
      returns (tx: Tx<Db, Job, JobError>)
      requires claimed.attempt >= 1
      modifies this
      ensures tx == FailTx(old(Tables()), p, id, worker, claimed, retryable, error, now)
      ensures Tables() == if tx.Commit? then tx.db else old(Tables())
    {
      var before := jobs;
      var again := retryable && IsRetryable(p, claimed.attempt);
      var available := if again then now + DelayFor(p, claimed.attempt) else now;
      if Blank(error) {
        return Raise(BlankError);
      }
      if id !in jobs || !Holds(jobs[id], worker, now) {
        return Raise(LeaseRejected);
      }
      var job := jobs[id].(state := if again then RetryableFailure else Failed, lease := None,
                           lastError := Some(error), available := available);
      jobs := jobs[id := job];
      var event := EventId(if job.state == RetryableFailure then RetryScheduled else JobFailed, id, claimed.attempt);
      var ok := AppendOutbox(event, Event(claimed.kind, Some(error), Some(available), now));
      if !ok {
        jobs := before;
        return Raise(EventCollision);
      }
      tx := Commit(Tables(), job);
    }
  }

  /** What the handler sees of its claim; renewing replaces the record it holds. */
  class JobHandlerContext {
    const id: JobId
    const worker: Worker
    var record: Job

    constructor (id: JobId, worker: Worker, record: Job)
      ensures this.id == id && this.worker == worker && this.record == record
    {
      this.id, this.worker, this.record := id, worker, record;
    }

    method RenewLease(repository: JobRepository, leaseSeconds: nat, now: Time) returns (ok: bool)
      modifies this, repository
      ensures var tx := RenewTx(old(repository.Tables()), id, worker, leaseSeconds, now);
              && ok == tx.Commit?
              && repository.Tables() == (if ok then tx.db else old(repository.Tables()))
              && record == if ok then tx.answer else old(record)
    {
      var tx := repository.Renew(id, worker, leaseSeconds, now);
      if tx.Raise? {
        return false;
      }
      record := tx.answer;
      ok := true;
    }
  }

  /** How a handler ends. */
  datatype Ending = Returned(output: Option<string>) | RaisedRetryable(error: string) | RaisedPermanent(error: string)

  function RenewOps(worker: Worker, renewals: seq<Time>): seq<Op> {
    if renewals == [] then [] else [Renew(worker, renewals[0])] + RenewOps(worker, renewals[1..])
  }

  function EndingOp(worker: Worker, ending: Ending, now: Time): Op {
    match ending
    case Returned(output) => Complete(worker, output, now)
    case RaisedRetryable(error) => Fail(worker, true, error, now)
    case RaisedPermanent(error) => Fail(worker, false, error, now)
  }

  /** One `run_next` whose handler renews its lease at the given times and then ends. */
  function RunNextWorld(cfg: Config, w: World, worker: Worker, id: JobId, now: Time, renewals: seq<Time>,
                        ending: Ending, end: Time): World {
    var claimed := Step(cfg, w, ClaimNext(worker, id, now));
    if worker !in claimed.calls then claimed
    else Step(cfg, Run(cfg, claimed, RenewOps(worker, renewals)), EndingOp(worker, ending, end))
  }

  lemma {:induction false} RenewOneMore(cfg: Config, w: World, worker: Worker, renewals: seq<Time>, now: Time)
    ensures Run(cfg, w, RenewOps(worker, renewals + [now]))
            == StepRenew(cfg, Run(cfg, w, RenewOps(worker, renewals)), worker, now)
    decreases |renewals|
  {
    hide StepRenew;
    if renewals == [] {
      assert Run(cfg, w, [Renew(worker, now)]) == Run(cfg, Step(cfg, w, Renew(worker, now)), []);
    } else {
      assert (renewals + [now])[1..] == renewals[1..] + [now];
      assert RenewOps(worker, renewals)[1..] == RenewOps(worker, renewals[1..]);
      assert RenewOps(worker, renewals + [now])[1..] == RenewOps(worker, renewals[1..] + [now]);
      RenewOneMore(cfg, StepRenew(cfg, w, worker, renewals[0]), worker, renewals[1..], now);
    }
  }

  lemma CompletedRow(db: Db, id: JobId, worker: Worker, output: Option<string>, now: Time)
    ensures var tx := CompleteTx(db, id, worker, output, now);
            tx.Commit? ==> id in tx.db.jobs && tx.db.jobs[id] == tx.answer && tx.answer.lease.None?
  {}

  lemma FailedRow(db: Db, p: RetryPolicy, id: JobId, worker: Worker, claimed: Job, retryable: bool, error: string,
                  now: Time)
    requires claimed.attempt >= 1
    ensures var tx := FailTx(db, p, id, worker, claimed, retryable, error, now);
            tx.Commit? ==> id in tx.db.jobs && tx.db.jobs[id] == tx.answer && tx.answer.lease.None?
  {}

  class JobRunner {
    const cfg: Config
    const worker: Worker

    constructor (cfg: Config, worker: Worker)
      ensures this.cfg == cfg && this.worker == worker
    {
      this.cfg, this.worker := cfg, worker;
    }

    /** Claim, run the handler, and settle the job under the attempt number of the claim. The tables end
        up where the protocol's run of the same operations leaves them; the result is none when nothing
        was claimed or the outcome was rejected. */
    /** While the handler runs, it may renew the lease. */
    method HandleJob(ghost w: World, repository: JobRepository, context: JobHandlerContext, renewals: seq<Time>)
      requires w.db == repository.Tables() && worker in w.calls && w.calls[worker].job == context.id
               && context.worker == worker
      modifies repository, context
      ensures var w' := Run(cfg, w, RenewOps(worker, renewals)); repository.Tables() == w'.db && w'.calls == w.calls
    {
      ghost var w' := w;
      var i := 0;
      assert renewals[..0] == [] && Run(cfg, w, RenewOps(worker, [])) == w;
      hide Run, RenewOps, RenewTx;
      while i < |renewals|
        invariant 0 <= i <= |renewals| && repository.Tables() == w'.db
        invariant w' == Run(cfg, w, RenewOps(worker, renewals[..i])) && w'.calls == w.calls
      {
        assert renewals[..i + 1] == renewals[..i] + [renewals[i]];
        RenewOneMore(cfg, w, worker, renewals[..i], renewals[i]);
        w' := StepRenew(cfg, w', worker, renewals[i]);
        var renewed := context.RenewLease(repository, cfg.leaseSeconds, renewals[i]);
        i := i + 1;
      }
      assert renewals[..|renewals|] == renewals;
    }

    method RunNext(ghost w: World, repository: JobRepository, id: JobId, now: Time, renewals: seq<Time>,
                   ending: Ending, end: Time)
      returns (result: Option<Job>)
      requires w.db == repository.Tables() && worker !in w.calls && JobsOk(w)
      modifies repository
      ensures repository.Tables() == RunNextWorld(cfg, w, worker, id, now, renewals, ending, end).db
      ensures result.Some? ==> id in repository.jobs && repository.jobs[id] == result.value && !result.value.lease.Some?
    {
      hide Claimable, RenewTx, CompleteTx, FailTx;
      var claimed := repository.ClaimNext(id, worker, cfg.leaseSeconds, now);
      ghost var w1 := StepClaim(cfg, w, worker, id, now);
      if claimed.None? {
        return None;
      }
      var context := new JobHandlerContext(id, worker, claimed.value);
      HandleJob(w1, repository, context, renewals);
      if ending.Returned? {
        CompletedRow(repository.Tables(), id, worker, ending.output, end);
        var tx := repository.Complete(id, worker, ending.output, end);
        return if tx.Commit? then Some(tx.answer) else None;
      }
      FailedRow(repository.Tables(), cfg.policy, id, worker, claimed.value, ending.RaisedRetryable?, ending.error, end);
      var tx := repository.RecordFailure(cfg.policy, id, worker, claimed.value, ending.RaisedRetryable?,
                                         ending.error, end);
      result := if tx.Commit? then Some(tx.answer) else None;
    }
  }
}
