/** What the steps of the job queue come to, exactly, and when a failed job is tried again. The statements look at
    the table, the events, the calls in flight and the claims made only. */
module JobOutcomes {
  import opened Common
  import opened Jobs
  import Text

  /** The worker works on the job under a live lease. */
  ghost predicate IsLive(db: Db, id: JobId, worker: Worker, now: Time) {
    && id in db.jobs && db.jobs[id].state == Running && db.jobs[id].lease.Some?
    && db.jobs[id].lease.value.worker == worker && now < db.jobs[id].lease.value.until
  }

  /** What is put into the queue is new under id and key, or there already. */
  lemma EnqueueOutcome(cfg: Config, w: World, id: JobId, job: Job)
    requires job.state == Queued && job.lease.None? && job.attempt >= 1
    ensures var tx := EnqueueTx(w.db, id, job);
            if id in w.db.jobs then tx == if w.db.jobs[id] == job then Commit(w.db, job) else Raise(IdCollision)
            else if exists other :: other in w.db.jobs && w.db.jobs[other].key == job.key then tx == Raise(KeyTaken)
            else tx == Commit(w.db.(jobs := w.db.jobs[id := job]), job)
    ensures Step(cfg, w, Enqueue(id, job)).db
            == if EnqueueTx(w.db, id, job).Commit? && id !in w.db.jobs then w.db.(jobs := w.db.jobs[id := job])
               else w.db
  {}

  /** A claim takes a job whose time has come, or whose worker has lost its lease. The attempt number goes up, but for
      the first claim of a job that was queued with attempt 1. */
  lemma ClaimOutcome(cfg: Config, w: World, worker: Worker, id: JobId, now: Time)
    ensures var w' := Step(cfg, w, ClaimNext(worker, id, now));
            if worker !in w.calls && id in w.db.jobs
               && match w.db.jobs[id].state
                  case Queued => w.db.jobs[id].available <= now
                  case RetryableFailure => w.db.jobs[id].available <= now
                  case Running => w.db.jobs[id].lease.Some? && w.db.jobs[id].lease.value.until <= now
                  case _ => false
            then
              var j := w.db.jobs[id];
              var n := if j.state == Queued && j.attempt == 1 then 1 else j.attempt + 1;
              var taken := Job(j.kind, j.key, j.payload, n, Running, j.available,
                               Some(Lease(worker, now + cfg.leaseSeconds as real)), None);
              w' == World(w.db.(jobs := w.db.jobs[id := taken]), w.calls[worker := Call(id, taken)],
                          w.claims + [Claim(id, n, worker, now)])
            else w' == w
  {}

  /** A live lease is renewed, and no other. */
  lemma RenewOutcome(cfg: Config, w: World, worker: Worker, now: Time)
    requires worker in w.calls
    ensures var id := w.calls[worker].job;
            Step(cfg, w, Renew(worker, now))
            == if IsLive(w.db, id, worker, now) then
                 w.(db := w.db.(jobs := w.db.jobs[id := w.db.jobs[id].(
                      lease := Some(Lease(worker, now + cfg.leaseSeconds as real)))]))
               else w
  {}

  /** An outcome is written with its event exactly if the lease is live; the call ends in any case. */
  lemma CompletionOutcome(cfg: Config, ops: seq<Op>, worker: Worker, output: Option<string>, now: Time)
    requires worker in Run(cfg, Empty, ops).calls
    ensures var w := Run(cfg, Empty, ops);
            var id := w.calls[worker].job;
            Step(cfg, w, Complete(worker, output, now))
            == if IsLive(w.db, id, worker, now) then
                 var j := w.db.jobs[id];
                 w.(calls := w.calls - {worker},
                    db := Db(w.db.jobs[id := j.(state := Succeeded, lease := None)],
                             w.db.outbox[EventId(JobCompleted, id, j.attempt) := Event(j.kind, output, None, now)]))
               else w.(calls := w.calls - {worker})
  {
    Reachable(cfg, ops);
    FreshEvents(cfg, Run(cfg, Empty, ops), worker, now);
    hide Run, Inv;
  }

  /** The delay before the next attempt after attempt `n`: the initial delay, doubled `n - 1` times, up to the
      maximum. */
  ghost function Backoff(p: RetryPolicy, n: nat): real
    requires n >= 1
  {
    if p.initial * Pow2(n - 1) as real <= p.maxDelay then p.initial * Pow2(n - 1) as real else p.maxDelay
  }

  /** A failure makes the job wait for its backoff exactly if it is retryable and the attempt is below the maximum, and
      ends it otherwise; the event carries the same time. */
  lemma FailureOutcome(cfg: Config, ops: seq<Op>, worker: Worker, retryable: bool, error: string, now: Time)
    requires worker in Run(cfg, Empty, ops).calls
    requires exists i :: 0 <= i < |error| && !Text.IsBlank(error[i])
    ensures var w := Run(cfg, Empty, ops);
            var id := w.calls[worker].job;
            var w' := Step(cfg, w, Fail(worker, retryable, error, now));
            if IsLive(w.db, id, worker, now) then
              var j := w.db.jobs[id];
              j.attempt >= 1 &&
              var again := retryable && j.attempt < cfg.policy.maxAttempts;
              var next := if again then now + Backoff(cfg.policy, j.attempt) else now;
              var event := EventId(if again then RetryScheduled else JobFailed, id, j.attempt);
              w' == w.(calls := w.calls - {worker},
                       db := Db(w.db.jobs[id := j.(state := if again then RetryableFailure else Failed, lease := None,
                                                   lastError := Some(error), available := next)],
                                w.db.outbox[event := Event(j.kind, Some(error), Some(next), now)]))
            else w' == w.(calls := w.calls - {worker})
  {
    Reachable(cfg, ops);
    var w := Run(cfg, Empty, ops);
    FreshEvents(cfg, w, worker, now);
    assert w.calls[worker].claimed.attempt >= 1 && w.calls[worker].claimed.kind == w.db.jobs[w.calls[worker].job].kind;
    assert !Blank(error);
    hide Run, Inv, Blank;
  }

  // ----- waiting for a retry -----

  /** The job waits to be tried again, until `t` at least. */
  ghost predicate Waits(w: World, id: JobId, t: Time) {
    && id in w.db.jobs && w.db.jobs[id].state == RetryableFailure && w.db.jobs[id].lease.None?
    && t <= w.db.jobs[id].available
  }

  lemma WaitingStep(cfg: Config, w: World, op: Op, id: JobId, t: Time)
    requires Waits(w, id, t) && (op.ClaimNext? && op.id == id ==> op.now < t)
    ensures var w' := Step(cfg, w, op);
            && Waits(w', id, t) && w'.db.jobs[id] == w.db.jobs[id]
            && |w'.claims| >= |w.claims| && w'.claims[..|w.claims|] == w.claims
            && forall i | |w.claims| <= i < |w'.claims| :: w'.claims[i].job != id
  {
    hide DelayFor, Blank;
  }

  lemma {:induction false} ClaimsStay(cfg: Config, w: World, ops: seq<Op>)
    ensures |Run(cfg, w, ops).claims| >= |w.claims| && Run(cfg, w, ops).claims[..|w.claims|] == w.claims
    decreases |ops|
  {
    if ops != [] {
      StepClaims(cfg, w, ops[0]);
      hide Step;
      ClaimsStay(cfg, Step(cfg, w, ops[0]), ops[1..]);
    }
  }

  /** Only a claim makes a claim, of its job at its time. */
  lemma StepClaims(cfg: Config, w: World, op: Op)
    ensures var claims := Step(cfg, w, op).claims;
            claims == w.claims
            || (op.ClaimNext? && exists n :: claims == w.claims + [Claim(op.id, n, op.worker, op.now)])
  {
    hide DelayFor, Blank, EnqueueTx, RenewTx, CompleteTx;
  }

  /** Until its time no claim takes a job that waits, and nothing else changes it; a claim at its time takes it. */
  lemma {:induction false} RetryWaits(cfg: Config, w: World, ops: seq<Op>, id: JobId)
    requires id in w.db.jobs && Waits(w, id, w.db.jobs[id].available)
    requires forall i | 0 <= i < |ops| && ops[i].ClaimNext? && ops[i].id == id :: ops[i].now < w.db.jobs[id].available
    ensures var w' := Run(cfg, w, ops);
            && id in w'.db.jobs && w'.db.jobs[id] == w.db.jobs[id] && |w'.claims| >= |w.claims|
            && (forall i | |w.claims| <= i < |w'.claims| :: w'.claims[i].job != id)
            && (forall worker, now | worker !in w'.calls && w.db.jobs[id].available <= now ::
                  Claim(id, w.db.jobs[id].attempt + 1, worker, now)
                  in Step(cfg, w', ClaimNext(worker, id, now)).claims)
    decreases |ops|
  {
    if ops == [] {
      forall worker, now | worker !in w.calls && w.db.jobs[id].available <= now
        ensures Claim(id, w.db.jobs[id].attempt + 1, worker, now) in Step(cfg, w, ClaimNext(worker, id, now)).claims
      {
        var c := Claim(id, w.db.jobs[id].attempt + 1, worker, now);
        assert Step(cfg, w, ClaimNext(worker, id, now)).claims == w.claims + [c];
      }
    } else {
      var w1 := Step(cfg, w, ops[0]);
      WaitingStep(cfg, w, ops[0], id, w.db.jobs[id].available);
      hide Step;
      RetryWaits(cfg, w1, ops[1..], id);
      ClaimsStay(cfg, w1, ops[1..]);
      var claims := Run(cfg, w1, ops[1..]).claims;
      forall i | |w.claims| <= i < |claims| ensures claims[i].job != id {
        if i < |w1.claims| { assert claims[i] == w1.claims[i]; }
      }
    }
  }

  /** The claims of the job come in the order of their times. */
  ghost predicate InOrder(ops: seq<Op>, id: JobId) {
    forall i, j | 0 <= i < j < |ops| && IsClaimOf(ops[i], id) && IsClaimOf(ops[j], id) :: ops[i].now <= ops[j].now
  }

  predicate IsClaimOf(op: Op, id: JobId) { op.ClaimNext? && op.id == id }

  lemma {:induction false} LaterClaims(cfg: Config, w: World, ops: seq<Op>, id: JobId, t: Time)
    requires InOrder(ops, id)
    requires Waits(w, id, t) || forall i | 0 <= i < |ops| && IsClaimOf(ops[i], id) :: t <= ops[i].now
    ensures var claims := Run(cfg, w, ops).claims;
            forall i | |w.claims| <= i < |claims| && claims[i].job == id :: t <= claims[i].at
    decreases |ops|
  {
    if ops != [] {
      var op, w1 := ops[0], Step(cfg, w, ops[0]);
      StepClaims(cfg, w, op);
      if Waits(w, id, t) && (IsClaimOf(op, id) ==> op.now < t) { WaitingStep(cfg, w, op, id, t); }
      if IsClaimOf(op, id) && t <= op.now {
        forall i | 0 <= i < |ops[1..]| && IsClaimOf(ops[1..][i], id) ensures t <= ops[1..][i].now {
          assert ops[1..][i] == ops[i + 1];
        }
      }
      hide Step, Waits;
      LaterClaims(cfg, w1, ops[1..], id, t);
      ClaimsStay(cfg, w1, ops[1..]);
      var claims := Run(cfg, w1, ops[1..]).claims;
      forall i | |w.claims| <= i < |claims| && claims[i].job == id ensures t <= claims[i].at {
        if i < |w1.claims| { assert claims[i] == w1.claims[i]; }
      }
    }
  }

  /** Once attempt `n` of a job has failed to be retried at `now`, every later claim of the job comes after its
      backoff, as long as claims of the job come in the order of their times. */
  lemma BackoffIsKept(cfg: Config, ops: seq<Op>, worker: Worker, error: string, now: Time, more: seq<Op>)
    requires var w := Run(cfg, Empty, ops);
             && worker in w.calls && IsLive(w.db, w.calls[worker].job, worker, now)
             && w.db.jobs[w.calls[worker].job].attempt < cfg.policy.maxAttempts
             && InOrder(more, w.calls[worker].job)
    requires exists i :: 0 <= i < |error| && !Text.IsBlank(error[i])
    ensures var w := Run(cfg, Empty, ops);
            var id := w.calls[worker].job;
            var failed := Step(cfg, w, Fail(worker, true, error, now));
            var claims := Run(cfg, failed, more).claims;
            && w.db.jobs[id].attempt >= 1 && |failed.claims| <= |claims|
            && forall i | |failed.claims| <= i < |claims| && claims[i].job == id ::
                 now + Backoff(cfg.policy, w.db.jobs[id].attempt) <= claims[i].at
  {
    var w := Run(cfg, Empty, ops);
    FailureOutcome(cfg, ops, worker, true, error, now);
    var id := w.calls[worker].job;
    var failed := Step(cfg, w, Fail(worker, true, error, now));
    hide Run, Step, Backoff;
    ClaimsStay(cfg, failed, more);
    LaterClaims(cfg, failed, more, id, now + Backoff(cfg.policy, w.db.jobs[id].attempt));
  }

  // ----- errors -----

  /** Why an outcome is rejected: a failure needs a reason, and both need a live lease. */
  lemma OutcomeErrors(db: Db, p: RetryPolicy, id: JobId, worker: Worker, claimed: Job, retryable: bool, error: string,
                      output: Option<string>, now: Time)
    requires claimed.attempt >= 1
    ensures var said := exists i :: 0 <= i < |error| && !Text.IsBlank(error[i]);
            var failed, completed := FailTx(db, p, id, worker, claimed, retryable, error, now),
                                     CompleteTx(db, id, worker, output, now);
            && (failed == Raise(BlankError) <==> !said)
            && (failed == Raise(LeaseRejected) <==> said && !IsLive(db, id, worker, now))
            && (completed == Raise(LeaseRejected) <==> !IsLive(db, id, worker, now))
            && (completed == Raise(EventCollision) <==>
                  && IsLive(db, id, worker, now) && EventId(JobCompleted, id, db.jobs[id].attempt) in db.outbox
                  && db.outbox[EventId(JobCompleted, id, db.jobs[id].attempt)]
                     != Event(db.jobs[id].kind, output, None, now))
  {
    hide DelayFor;
  }
}
