/** What the steps of a monitoring batch come to, exactly: claims, retries and their delay, recordings and the
    state of the batch. The statements look at the tables and the calls in flight only. */
module MonitoringOutcomes {
  import opened Common
  import opened MonitoringBatch
  import I = Idempotency

  /** The lease of the item is this worker's, and live. */
  ghost predicate IsLive(db: Db, m: MonitorId, worker: Worker, now: Time) {
    && m in db.items && db.items[m].state == Running && db.items[m].lease.Some?
    && db.items[m].lease.value.worker == worker && now <= db.items[m].lease.value.until
  }

  // ----- claims -----

  /** A claim takes an item that is available and either waits or was left behind by an expired lease; it gives the
      item the next attempt number and a lease. */
  lemma ClaimOutcome(cfg: Config, w: World, worker: Worker, m: MonitorId, now: Time)
    ensures var w' := Step(cfg, w, ClaimItem(worker, m, now));
            if m in w.db.items && w.db.items[m].available <= now
               && (w.db.items[m].state in {Pending, Retryable}
                   || (w.db.items[m].state == Running && w.db.items[m].lease.Some?
                       && w.db.items[m].lease.value.until < now)) then
              var i := w.db.items[m];
              w' == w.(db := w.db.(items := w.db.items[m := Item(
                         Running, i.attempt + 1, i.available, Some(Lease(worker, now + cfg.leaseSeconds)), None,
                         i.completed)]),
                       calls := w.calls[Claim(m, i.attempt + 1) := Call(worker, Claimed)])
            else w' == w
  {}

  // ----- failures and retries -----

  /** The time of the next attempt after attempt `n` has failed at `now`: the delay doubles up to a maximum. */
  ghost function RetryAt(cfg: Config, n: nat, now: Time): Time
    requires n >= 1
  {
    now + if cfg.backoff * Pow2(n - 1) <= cfg.maxBackoff then cfg.backoff * Pow2(n - 1) else cfg.maxBackoff
  }

  /** The item and its monitor after a failure of attempt `n` at `now`: RETRYABLE exactly if the failure is
      retryable and the attempt below the maximum, else FAILED. */
  ghost predicate HasFailed(cfg: Config, db: Db, db': Db, m: MonitorId, n: nat, retryable: bool, code: string,
                            now: Time)
    requires n >= 1 && m in db.items && m in db.monitors
  {
    var again := retryable && n < cfg.maxAttempts;
    var next := if again then RetryAt(cfg, n, now) else now;
    db' == db.(items := db.items[m := Item(
                 if again then Retryable else Failed, db.items[m].attempt, next, None, Some(code),
                 if again then db.items[m].completed else Some(now))],
               monitors := db.monitors[m := db.monitors[m].(lastError := Some(code), nextCheck := next)])
  }

  /** A failing claim settles its item exactly if its lease is live and its monitor is there. Otherwise it tries once
      more, as an integrity error, and then gives up; either way nothing is written. */
  lemma FailureOutcome(cfg: Config, w: World, c: Claim)
    requires c in w.calls && w.calls[c].phase.Failing? && c.attempt >= 1
    ensures var w', Failing(at, retryable, code, final) := Step(cfg, w, Fail(c)), w.calls[c].phase;
            if IsLive(w.db, c.monitor, w.calls[c].worker, at) && c.monitor in w.db.monitors then
              HasFailed(cfg, w.db, w'.db, c.monitor, c.attempt, retryable, code, at)
              && w' == w.(db := w'.db, calls := w.calls - {c})
            else if final then w' == w.(calls := w.calls - {c})
            else w' == w.(calls := w.calls[c := w.calls[c].(phase := Failing(at, false, "INTEGRITY_REJECTED", true))])
  {}

  /** A RETRYABLE item is left alone until its time, whatever else happens: every claim before it changes nothing,
      and the first one at or after it takes the item. */
  lemma {:induction false} RetryWaits(cfg: Config, w: World, ops: seq<Op>, m: MonitorId)
    requires m in w.db.items && w.db.items[m].state == Retryable
    requires forall i | 0 <= i < |ops| && ops[i].ClaimItem? && ops[i].monitor == m ::
               ops[i].now < w.db.items[m].available
    ensures m in Run(cfg, w, ops).db.items && Run(cfg, w, ops).db.items[m] == w.db.items[m]
    ensures forall worker, now ::
              var w' := Run(cfg, w, ops);
              var taken := Step(cfg, w', ClaimItem(worker, m, now));
              if now < w.db.items[m].available then taken == w'
              else m in taken.db.items && taken.db.items[m].state == Running
                   && taken.db.items[m].attempt == w.db.items[m].attempt + 1
    decreases |ops|
  {
    if ops != [] {
      RetryableStep(cfg, w, ops[0], m);
      var w1 := Step(cfg, w, ops[0]);
      RetryWaits(cfg, w1, ops[1..], m);
    }
  }

  lemma RetryableStep(cfg: Config, w: World, op: Op, m: MonitorId)
    requires m in w.db.items && w.db.items[m].state == Retryable
    requires op.ClaimItem? && op.monitor == m ==> op.now < w.db.items[m].available
    ensures m in Step(cfg, w, op).db.items && Step(cfg, w, op).db.items[m] == w.db.items[m]
  {
    hide StepRecord, Delay, Page;
    if op.RecordObservation? { RecordLeavesItems(w, op.claim, op.outboxAccepts); }
  }

  // ----- recordings -----

  /** The answer can be recorded, or this batch has recorded one for the monitor. */
  ghost predicate CanRecord(db: Db, m: MonitorId, o: Observation, accepts: bool) {
    m in db.monitors && db.monitors[m].identifier == o.identifier && (m in db.journal.records || accepts)
  }

  /** The snapshot of the first recorded answer, on file for the batch and on its monitor, which is due again after
      its frequency. */
  ghost predicate IsRecorded(db: Db, db': Db, m: MonitorId, o: Observation, now: Time)
    requires m in db.monitors
  {
    var s := Snapshot(m, o.at, o.payload);
    db' == db.(journal := Journal(db.journal.records[m := I.Record(m, I.Done(s))], db.journal.snapshots + {s}),
                 monitors := db.monitors[m := db.monitors[m].(
                   lastSnapshot := Some(s), lastError := None, nextCheck := now + db.monitors[m].frequency)])
  }

  /** An answer is recorded once per monitor and batch; what cannot be recorded fails, and not to be retried. */
  lemma RecordOutcome(cfg: Config, w: World, c: Claim, accepts: bool)
    requires JournalOk(w.db.journal, w.recordings) && c in w.calls && w.calls[c].phase.Observed?
    ensures var w', Observed(at, o) := Step(cfg, w, RecordObservation(c, accepts)), w.calls[c].phase;
            var m := c.monitor;
            if !CanRecord(w.db, m, o, accepts) then
              w' == w.(calls := w.calls[c := w.calls[c].(phase := Failing(at, false, "INTEGRITY_REJECTED", true))])
            else if m in w.db.journal.records then
              w' == w.(calls := w.calls[c := w.calls[c].(phase := Recorded(at))])
            else
              && IsRecorded(w.db, w'.db, m, o, at)
              && w' == w.(db := w'.db, recordings := w.recordings + [Snapshot(m, o.at, o.payload)],
                          calls := w.calls[c := w.calls[c].(phase := Recorded(at))])
  {
    if c.monitor in w.db.journal.records { assert OnFile(w.db.journal, c.monitor); }
  }

  /** A recorded claim completes its item exactly if its lease is live. */
  lemma CompletionOutcome(cfg: Config, w: World, c: Claim)
    requires c in w.calls && w.calls[c].phase.Recorded?
    ensures var w', at := Step(cfg, w, Complete(c)), w.calls[c].phase.at;
            if IsLive(w.db, c.monitor, w.calls[c].worker, at) then
              var done := w.db.items[c.monitor].(state := Completed, lease := None, completed := Some(at));
              w' == w.(db := w.db.(items := w.db.items[c.monitor := done]), calls := w.calls - {c})
            else
              w' == w.(calls := w.calls[c := w.calls[c].(phase := Failing(at, false, "INTEGRITY_REJECTED", true))])
  {}

  // ----- one item, undisturbed -----

  /** The provider is asked under this claim. */
  ghost predicate Asks(cfg: Config, db: Db, c: Claim) {
    c.attempt <= cfg.maxAttempts && c.monitor in db.monitors && db.monitors[c.monitor].active
  }

  /** The code under which an undisturbed claim fails. */
  ghost function CodeOf(cfg: Config, db: Db, c: Claim, outcome: Outcome): string {
    if c.attempt > cfg.maxAttempts then "MAX_ATTEMPTS_EXCEEDED"
    else if !Asks(cfg, db, c) then "MONITOR_NOT_ACTIVE"
    else if outcome.Error? then outcome.code
    else "INTEGRITY_REJECTED"
  }

  lemma AskedOrFailing(cfg: Config, w: World, c: Claim, worker: Worker, now: Time, outcome: Outcome)
    requires c in w.calls && w.calls[c] == Call(worker, Claimed)
    ensures var w1 := StepObserve(StepLoad(StepBegin(cfg, w, c, now), c), c, outcome);
            && w1.db == w.db && w1.recordings == w.recordings && c in w1.calls && w1.calls[c].worker == worker
            && w1.observations == w.observations + (if Asks(cfg, w.db, c) then [Asked(c, outcome)] else [])
            && if Asks(cfg, w.db, c) && outcome.Answer? then w1.calls[c].phase == Observed(now, outcome.observation)
               else
                 && w1.calls[c].phase.Failing? && w1.calls[c].phase.at == now
                 && w1.calls[c].phase.code == CodeOf(cfg, w.db, c, outcome)
                 && w1.calls[c].phase.retryable == (Asks(cfg, w.db, c) && outcome.Error? && outcome.retryable)
                 && w1.calls[c].phase.final == Asks(cfg, w.db, c)
  {}

  lemma NothingToDo(cfg: Config, w: World, c: Claim, accepts: bool)
    requires c !in w.calls || w.calls[c].phase.Failing?
    ensures StepComplete(StepRecord(w, c, accepts), c) == w && (c !in w.calls ==> StepFail(cfg, w, c) == w)
  {}

  lemma FailingSettles(cfg: Config, w: World, c: Claim)
    requires c in w.calls && w.calls[c].phase.Failing? && c.attempt >= 1
    requires IsLive(w.db, c.monitor, w.calls[c].worker, w.calls[c].phase.at) && c.monitor in w.db.monitors
    ensures var w', Failing(at, retryable, code, _) := StepFail(cfg, StepFail(cfg, w, c), c), w.calls[c].phase;
            HasFailed(cfg, w.db, w'.db, c.monitor, c.attempt, retryable, code, at) && c !in w'.calls
  {
    FailureOutcome(cfg, w, c);
    hide StepFail;
    NothingToDo(cfg, StepFail(cfg, w, c), c, true);
  }

  lemma ClaimsCount(cfg: Config, w: World, c: Claim)
    requires Inv(cfg, w) && c in w.calls
    ensures c.attempt >= 1 && JournalOk(w.db.journal, w.recordings)
  {
    hide JournalOk, ItemsOk, ObservationsOk, RecordingsOk, BatchOk, CallOk;
  }

  /** An owner that nobody disturbs settles its item. The item ends COMPLETED exactly if the attempt is within
      bounds, the monitor active, and the provider answers what can be recorded; RETRYABLE, for its time, exactly if
      the provider was asked, its failure is retryable and the attempt is not the last; and else FAILED. */
  lemma UndisturbedItem(cfg: Config, w: World, c: Claim, worker: Worker, now: Time, outcome: Outcome, accepts: bool)
    requires Inv(cfg, w) && c in w.calls && w.calls[c] == Call(worker, Claimed)
    requires IsLive(w.db, c.monitor, worker, now) && c.monitor in w.db.monitors
    ensures var w', m := Process(cfg, w, c, now, outcome, accepts), c.monitor;
            && c !in w'.calls && c.attempt >= 1
            && if Asks(cfg, w.db, c) && outcome.Answer? && CanRecord(w.db, m, outcome.observation, accepts) then
                 && w'.db.items
                    == w.db.items[m := w.db.items[m].(state := Completed, lease := None, completed := Some(now))]
                 && (m in w.db.journal.records ==> w'.db == w.db.(items := w'.db.items))
                 && (m !in w.db.journal.records ==>
                       IsRecorded(w.db, w'.db.(items := w.db.items), m, outcome.observation, now))
               else
                 var retryable := Asks(cfg, w.db, c) && outcome.Error? && outcome.retryable;
                 HasFailed(cfg, w.db, w'.db, m, c.attempt, retryable, CodeOf(cfg, w.db, c, outcome), now)
  {
    AskedOrFailing(cfg, w, c, worker, now, outcome);
    ClaimsCount(cfg, w, c);
    hide Inv, StepBegin, StepLoad, StepObserve, StepRecord, StepComplete, StepFail, JournalOk, IsRecorded, HasFailed,
         IsLive, CanRecord, Asks, CodeOf;
    var w1 := StepObserve(StepLoad(StepBegin(cfg, w, c, now), c), c, outcome);
    if w1.calls[c].phase.Failing? {
      NothingToDo(cfg, w1, c, accepts);
      FailingSettles(cfg, w1, c);
    } else {
      ObservedSettles(cfg, w1, c, accepts);
    }
  }

  lemma ObservedSettles(cfg: Config, w: World, c: Claim, accepts: bool)
    requires JournalOk(w.db.journal, w.recordings) && c in w.calls && w.calls[c].phase.Observed? && c.attempt >= 1
    requires IsLive(w.db, c.monitor, w.calls[c].worker, w.calls[c].phase.at) && c.monitor in w.db.monitors
    ensures var w', m := StepFail(cfg, StepFail(cfg, StepComplete(StepRecord(w, c, accepts), c), c), c), c.monitor;
            var Observed(at, o) := w.calls[c].phase;
            && c !in w'.calls
            && if CanRecord(w.db, m, o, accepts) then
                 && w'.db.items
                    == w.db.items[m := w.db.items[m].(state := Completed, lease := None, completed := Some(at))]
                 && (m in w.db.journal.records ==> w'.db == w.db.(items := w'.db.items))
                 && (m !in w.db.journal.records ==> IsRecorded(w.db, w'.db.(items := w.db.items), m, o, at))
               else HasFailed(cfg, w.db, w'.db, m, c.attempt, false, "INTEGRITY_REJECTED", at)
  {
    RecordOutcome(cfg, w, c, accepts);
    assert CanRecord(w.db, c.monitor, w.calls[c].phase.observation, accepts) ==> c.monitor in w.db.monitors;
    hide StepRecord, StepComplete, StepFail, JournalOk, HasFailed, CanRecord, OnFile, IsRecorded;
    var w1 := StepRecord(w, c, accepts);
    assert w1.db.items == w.db.items && (c.monitor in w.db.journal.records ==> w1.db == w.db);
    if w1.calls[c].phase.Recorded? {
      CompletionOutcome(cfg, w1, c);
      NothingToDo(cfg, StepComplete(w1, c), c, accepts);
    } else {
      NothingToDo(cfg, w1, c, accepts);
      CompletesNothing(w1, c);
      FailingSettles(cfg, w1, c);
    }
  }

  lemma CompletesNothing(w: World, c: Claim)
    requires c in w.calls && w.calls[c].phase.Failing?
    ensures StepComplete(w, c) == w
  {}

  // ----- the batch -----

  /** The monitors that are due at the scheduled time and come after the cursor. */
  ghost function DueAfter(db: Db, scheduled: Time, cursor: Option<MonitorId>): set<MonitorId> {
    set m | m in db.monitors && db.monitors[m].active && db.monitors[m].nextCheck <= scheduled
            && (cursor.Some? ==> m > cursor.value)
  }

  lemma DueAgrees(db: Db, scheduled: Time, cursor: Option<MonitorId>)
    ensures DueBeyond(db.monitors, scheduled, cursor) == DueAfter(db, scheduled, cursor)
  {}

  /** A page takes the first due monitors beyond the cursor, as many as there are up to the limit; the batch is
      collected exactly if there were fewer. */
  lemma PageOutcome(cfg: Config, w: World, scheduled: Time, limit: nat)
    requires limit >= 1
    ensures var w', b := Step(cfg, w, Materialize(scheduled, limit)), w.db.batch;
            if b.None? || b.value.collected then w' == w
            else
              var rows := Page(DueAfter(w.db, scheduled, b.value.cursor), limit);
              && w'.rows == w.rows + rows && w'.calls == w.calls && w'.db.monitors == w.db.monitors
              && w'.db.journal == w.db.journal
              && (forall m :: m in w'.db.items <==> m in w.db.items || m in rows)
              && (forall m | m in w'.db.items ::
                    w'.db.items[m] == if m in w.db.items then w.db.items[m]
                                      else Item(Pending, 0, scheduled, None, None, None))
              && w'.db.batch == Some(Batch(
                   b.value.scheduled, if w'.db.items == map[] then Collecting else InProgress,
                   if rows == [] then b.value.cursor else Some(rows[|rows| - 1]), |rows| < limit, b.value.completed))
  {
    if w.db.batch.Some? {
      var cursor := w.db.batch.value.cursor;
      DueAgrees(w.db, scheduled, cursor);
      NewItemsAdd(w.db.items, Page(DueAfter(w.db, scheduled, cursor), limit), scheduled);
    }
    assert w.rows + [] == w.rows;
    hide Page, DueBeyond, DueAfter, NewItems;
  }

  lemma NewItemsAdd(items: map<MonitorId, Item>, rows: seq<MonitorId>, scheduled: Time)
    ensures var items' := NewItems(rows, scheduled) + items;
            && (forall m :: m in items' <==> m in items || m in rows)
            && (forall m | m in items' ::
                  items'[m] == if m in items then items[m] else Item(Pending, 0, scheduled, None, None, None))
            && (items' == map[] <==> rows == [] && items == map[])
  {
    if rows != [] { assert rows[0] in NewItems(rows, scheduled) + items; }
    if items != map[] {
      var m :| m in items;
      assert m in NewItems(rows, scheduled) + items;
    }
  }

  /** The batch is done exactly if it is collected and no item waits, runs or is to be retried; it keeps the time at
      which it was done first. */
  lemma FinalOutcome(cfg: Config, w: World, now: Time)
    ensures var w', b := Step(cfg, w, Finalize(now)), w.db.batch;
            if b.None? then w' == w
            else if b.value.collected && (forall m | m in w.db.items :: w.db.items[m].state in {Completed, Failed}) then
              w' == w.(db := w.db.(batch := Some(b.value.(
                status := Done, completed := Some(if b.value.completed.Some? then b.value.completed.value else now)))))
            else w' == w.(db := w.db.(batch := Some(b.value.(status := InProgress, completed := None))))
  {
    assert forall m | m in w.db.items :: w.db.items[m].state in {Completed, Failed} <==> m !in Unfinished(w.db.items);
  }

  /** A batch is opened once. */
  lemma StartOutcome(cfg: Config, w: World, scheduled: Time)
    ensures Step(cfg, w, Start(scheduled))
            == if w.db.batch.Some? then w
               else w.(db := w.db.(batch := Some(Batch(scheduled, Collecting, None, false, None))))
  {}

  // ----- errors -----

  /** Why an item is not settled, and why an answer is not recorded; the second tells a retry from an integrity
      error. */
  lemma SettlementErrors(cfg: Config, db: Db, m: MonitorId, attempt: nat, worker: Worker, retryable: bool, code: string,
                         o: Observation, accepts: bool, now: Time)
    ensures CompleteItemTx(db, m, worker, now) == Raise(StaleCompletion) <==> !IsLive(db, m, worker, now)
    ensures var tx := FailItemTx(cfg, db, m, attempt, worker, retryable, code, now);
            && (tx == Raise(StaleFailure) <==> !IsLive(db, m, worker, now))
            && (tx == Raise(MonitorMissing) <==> IsLive(db, m, worker, now) && m !in db.monitors)
    ensures var tx := RecordTx(db, m, o, accepts, now);
            var mine := m in db.monitors && db.monitors[m].identifier == o.identifier;
            && (tx == Raise(MonitorMissing) <==> m !in db.monitors)
            && (tx == Raise(IdentifierMismatch) <==> m in db.monitors && !mine)
            && (tx == Raise(OutboxRejected) <==>
                  mine && !accepts
                  && (m !in db.journal.records
                      || db.journal.records[m] == I.Record(m, I.Pending(Snapshot(m, o.at, o.payload)))))
  {
    hide Delay;
  }
}
