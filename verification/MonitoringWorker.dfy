/** The batch repository and the worker as objects that update their tables in place. */
module MonitoringWorker {
  import opened Common
  import I = Idempotency
  import opened MonitoringBatch

  method Smallest(s: set<MonitorId>) returns (m: MonitorId)
    requires s != {}
    ensures m == Least(s)
  {
    m :| m in s;
    var rest := s - {m};
    while rest != {}
      invariant m in s && rest <= s && forall x | x in s :: x in rest || m <= x
      decreases rest
    {
      var x :| x in rest;
      rest := rest - {x};
      if x < m {
        m := x;
      }
    }
  }

  /** `order by monitor_id limit`. */
  method QueryPage(s: set<MonitorId>, limit: nat) returns (rows: seq<MonitorId>)
    ensures rows == Page(s, limit)
  {
    rows := [];
    var rest, n := s, limit;
    while rest != {} && n > 0
      invariant Page(s, limit) == rows + Page(rest, n)
      decreases n
    {
      var m := Smallest(rest);
      assert rows + Page(rest, n) == rows + [m] + Page(rest - {m}, n - 1);
      rows := rows + [m];
      rest := rest - {m};
      n := n - 1;
    }
  }

  /** The rows from `i` on are as they were. */
  predicate Untouched(before: map<MonitorId, Item>, items: map<MonitorId, Item>, rows: seq<MonitorId>, i: nat) {
    forall j | i <= j < |rows| && rows[j] in before :: rows[j] in items && items[rows[j]] == before[rows[j]]
  }

  lemma StillUntouched(before: map<MonitorId, Item>, items: map<MonitorId, Item>, rows: seq<MonitorId>, i: nat,
                       claimed: Item)
    requires Untouched(before, items, rows, i) && i < |rows| && forall j, k | 0 <= j < k < |rows| :: rows[j] != rows[k]
    ensures rows[i] in before ==> rows[i] in items && items[rows[i]] == before[rows[i]]
    ensures Untouched(before, items, rows, i + 1) && Untouched(before, items[rows[i] := claimed], rows, i + 1)
  {}

  lemma ClaimWrites(cfg: Config, w: World, worker: Worker, m: MonitorId, now: Time)
    ensures StepClaim(cfg, w, worker, m, now).db
         == if m in w.db.items && Claimable(w.db.items[m], now)
            then w.db.(items := w.db.items[m := ClaimedItem(cfg, w.db.items[m], worker, now)]) else w.db
  {
    hide Claimable;
  }

  lemma ClaimsOneMore(items: map<MonitorId, Item>, rows: seq<MonitorId>, m: MonitorId, now: Time)
    ensures ClaimsOf(items, rows + [m], now)
         == ClaimsOf(items, rows, now)
            + if m in items && Claimable(items[m], now) then [Claim(m, items[m].attempt + 1)] else []
  {
    assert (rows + [m])[..|rows|] == rows;
  }

  class CounterpartyMonitoringBatchRepository {
    var monitors: map<MonitorId, Monitor>
    var batch: Option<Batch>
    var items: map<MonitorId, Item>
    var journal: Journal

    constructor (db: Db)
      ensures Tables() == db
    {
      monitors, batch, items, journal := db.monitors, db.batch, db.items, db.journal;
    }

    function Tables(): Db
      reads this
    {
      Db(monitors, batch, items, journal)
    }

    method Rollback(snapshot: Db)
      modifies this
      ensures Tables() == snapshot
    {
      monitors, batch, items, journal := snapshot.monitors, snapshot.batch, snapshot.items, snapshot.journal;
    }

    method StartOrResumeDailyBatch(scheduled: Time)
      modifies this`batch
      ensures Tables() == StartTx(old(Tables()), scheduled)
    {
      if batch.None? {
        batch := Some(Batch(scheduled, Collecting, None, false, None));
      }
    }

    /** One page of due monitors beyond the cursor. */
    method MaterializeDueItems(scheduled: Time, limit: nat) returns (ok: bool)
      modifies this`items, this`batch
      ensures var tx := MaterializeTx(old(Tables()), scheduled, limit);
              ok == tx.Commit? && Tables() == if ok then tx.db else old(Tables())
    {
      if batch.None? {
        return false;
      }
      if batch.value.collected {
        return true;
      }
      var rows := QueryPage(DueBeyond(monitors, scheduled, batch.value.cursor), limit);
      var last := batch.value.cursor;
      var i := 0;
      ghost var before := items;
      assert NewItems(rows[..0], scheduled) + before == before;
      while i < |rows|
        invariant 0 <= i <= |rows| && batch == old(batch)
        invariant last == if i == 0 then batch.value.cursor else Some(rows[i - 1])
        invariant items == NewItems(rows[..i], scheduled) + before
      {
        last := Some(rows[i]);
        NewItemsGrow(rows, i, scheduled, before);
        if rows[i] !in items {
          items := items[rows[i] := NewItem(scheduled)];
        }
        i := i + 1;
      }
      assert rows[..|rows|] == rows;
      assert rows != [] ==> rows[0] in NewItems(rows, scheduled);
      hide NewItems, Page;
      var status := if rows != [] || items != map[] then InProgress else Collecting;
      batch := Some(batch.value.(cursor := last, collected := |rows| < limit, status := status));
      ok := true;
    }

    /** Claim the rows the query returned, each re-checked as it is updated. */
    method ClaimItems(ghost w: World, cfg: Config, worker: Worker, now: Time, rows: seq<MonitorId>)
      returns (claims: seq<Claim>)
      requires w.db == Tables() && forall i, j | 0 <= i < j < |rows| :: rows[i] != rows[j]
      modifies this`items
      ensures Tables() == Run(cfg, w, ClaimOps(worker, rows, now)).db
      ensures claims == ClaimsOf(old(items), rows, now)
    {
      claims := [];
      ghost var w' := w;
      var i := 0;
      assert rows[..0] == [] && Run(cfg, w, ClaimOps(worker, [], now)) == w && ClaimsOf(items, [], now) == [];
      assert Untouched(old(items), items, rows, 0);
      hide Run, ClaimOps, Claimable, Untouched, ClaimsOf, StepClaim;
      while i < |rows|
        invariant 0 <= i <= |rows| && w' == Run(cfg, w, ClaimOps(worker, rows[..i], now)) && Tables() == w'.db
        invariant claims == ClaimsOf(old(items), rows[..i], now)
        invariant items.Keys == old(items).Keys && Untouched(old(items), items, rows, i)
      {
        var m := rows[i];
        assert rows[..i + 1] == rows[..i] + [m];
        ClaimOneMore(cfg, w, worker, rows[..i], m, now);
        ClaimsOneMore(old(items), rows[..i], m, now);
        StillUntouched(old(items), items, rows, i,
                       ClaimedItem(cfg, if m in items then items[m] else NewItem(now), worker, now));
        ClaimWrites(cfg, w', worker, m, now);
        w' := StepClaim(cfg, w', worker, m, now);
        if m in items && Claimable(items[m], now) {
          items := items[m := ClaimedItem(cfg, items[m], worker, now)];
          claims := claims + [Claim(m, items[m].attempt)];
        }
        i := i + 1;
      }
      assert rows[..|rows|] == rows;
    }

    method CompleteItem(m: MonitorId, worker: Worker, now: Time) returns (tx: Tx<Db, Item, BatchError>)
      modifies this`items
      ensures tx == CompleteItemTx(old(Tables()), m, worker, now)
      ensures Tables() == if tx.Commit? then tx.db else old(Tables())
    {
      if m !in items || !Owns(items[m], worker, now) {
        return Raise(StaleCompletion);
      }
      var item := items[m].(state := Completed, lease := None, completed := Some(now));
      items := items[m := item];
      tx := Commit(Tables(), item);
    }

    method FailItem(m: MonitorId, worker: Worker, again: bool, code: string, available: Time, now: Time)
      returns (failed: Option<Item>)
      modifies this`items
      ensures failed.Some? == (m in old(items) && Owns(old(items[m]), worker, now))
      ensures failed.Some? ==>
                && items == old(items)[m := failed.value]
                && failed.value == old(items[m]).(
                     state := if again then Retryable else Failed, available := available, lease := None,
                     lastError := Some(code), completed := if again then old(items[m]).completed else Some(now))
      ensures failed.None? ==> items == old(items)
    {
      if m !in items || !Owns(items[m], worker, now) {
        return None;
      }
      var item := items[m].(state := if again then Retryable else Failed, available := available,
                            lease := None, lastError := Some(code));
      if !again {
        item := item.(completed := Some(now));
      }
      items := items[m := item];
      failed := Some(item);
    }

    method SetMonitorError(m: MonitorId, code: string, nextCheck: Time) returns (ok: bool)
      modifies this`monitors
      ensures ok == (m in old(monitors))
      ensures monitors == if !ok then old(monitors) else
                old(monitors)[m := old(monitors[m]).(lastError := Some(code), nextCheck := nextCheck)]
    {
      if m !in monitors {
        return false;
      }
      monitors := monitors[m := monitors[m].(lastError := Some(code), nextCheck := nextCheck)];
      ok := true;
    }

    /** The failure transition with the error note on the monitor, or neither. */
    method RecordFailure(cfg: Config, m: MonitorId, attempt: nat, worker: Worker, retryable: bool, code: string,
                         now: Time)
      returns (tx: Tx<Db, Item, BatchError>)
      modifies this
      ensures tx == FailItemTx(cfg, old(Tables()), m, attempt, worker, retryable, code, now)
      ensures Tables() == if tx.Commit? then tx.db else old(Tables())
    {
      hide Delay;
      var before := Tables();
      var again := retryable && attempt < cfg.maxAttempts;
      var available := now + if again then Delay(cfg, attempt) else 0;
      var failed := FailItem(m, worker, again, code, available, now);
      if failed.None? {
        return Raise(StaleFailure);
      }
      var noted := SetMonitorError(m, code, available);
      if !noted {
        Rollback(before);
        return Raise(MonitorMissing);
      }
      tx := Commit(Tables(), failed.value);
    }

    method RecordObservation(m: MonitorId, o: Observation, outboxAccepts: bool, now: Time)
      returns (tx: Tx<Db, Snapshot, BatchError>)
      modifies this
      ensures tx == RecordTx(old(Tables()), m, o, outboxAccepts, now)
      ensures Tables() == if tx.Commit? then tx.db else old(Tables())
    {
      var before := Tables();
      if m !in monitors {
        return Raise(MonitorMissing);
      }
      if o.identifier != monitors[m].identifier {
        return Raise(IdentifierMismatch);
      }
      var s := Snapshot(m, o.at, o.payload);
      var reserved := I.ReserveTx(journal.records, m, m, I.Pending(s));
      if reserved.Raise? {
        return Raise(RecordError(reserved.error));
      }
      journal := journal.(records := reserved.db);
      if reserved.answer.ref != I.Pending(s) {
        if reserved.answer.ref.Pending? {
          Rollback(before);
          return Raise(InFlight);
        }
        if reserved.answer.ref.result !in journal.snapshots {
          Rollback(before);
          return Raise(SnapshotMissing);
        }
        assert journal == before.journal;
        return Commit(Tables(), reserved.answer.ref.result);
      }
      journal := journal.(snapshots := journal.snapshots + {s});
      monitors := monitors[m := monitors[m].(lastSnapshot := Some(s), lastError := None,
                                             nextCheck := now + monitors[m].frequency)];
      if !outboxAccepts {
        Rollback(before);
        return Raise(OutboxRejected);
      }
      var done := I.CompleteTx(journal.records, m, m, I.Done(s));
      if done.Raise? {
        Rollback(before);
        return Raise(RecordError(done.error));
      }
      journal := journal.(records := done.db);
      tx := Commit(Tables(), s);
    }

    method FinalizeBatch(now: Time) returns (tx: Tx<Db, Batch, BatchError>)
      modifies this`batch
      ensures tx == FinalizeTx(old(Tables()), now)
      ensures Tables() == if tx.Commit? then tx.db else old(Tables())
    {
      var unfinished := |Unfinished(items)|;
      if batch.None? {
        return Raise(BatchNotFound);
      }
      var current := batch.value;
      if current.collected && unfinished == 0 {
        current := current.(status := Done,
                            completed := if current.completed.Some? then current.completed else Some(now));
      } else {
        current := current.(status := InProgress, completed := None);
      }
      batch := Some(current);
      tx := Commit(Tables(), current);
    }
  }

  class CounterpartyMonitoringWorker {
    const cfg: Config
    const worker: Worker
    /** How many monitors one page and one claim take. */
    const pageSize: nat
    const parallelism: nat

    constructor (cfg: Config, worker: Worker, pageSize: nat, parallelism: nat)
      ensures this.cfg == cfg && this.worker == worker && this.pageSize == pageSize && this.parallelism == parallelism
    {
      this.cfg, this.worker, this.pageSize, this.parallelism := cfg, worker, pageSize, parallelism;
    }

    /** Report a failure, and once more as an integrity error when that is rejected. */
    method Fail(ghost w: World, repository: CounterpartyMonitoringBatchRepository, c: Claim, phase: Phase)
      requires w.db == repository.Tables() && c in w.calls && w.calls[c] == Call(worker, phase) && phase.Failing?
      modifies repository
      ensures repository.Tables() == StepFail(cfg, StepFail(cfg, w, c), c).db
    {
      hide FailItemTx;
      var tx := repository.RecordFailure(cfg, c.monitor, c.attempt, worker, phase.retryable, phase.code, phase.at);
      if tx.Raise? && !phase.final {
        tx := repository.RecordFailure(cfg, c.monitor, c.attempt, worker, false, "INTEGRITY_REJECTED", phase.at);
      }
    }

    /** One claimed item: check the attempt and the monitor, observe, record, complete. `outcome` is what
        the provider comes up with, if it is asked. */
    method ProcessItem(ghost w: World, repository: CounterpartyMonitoringBatchRepository, c: Claim, now: Time,
                       outcome: Outcome, accepts: bool)
      requires w.db == repository.Tables() && c in w.calls && w.calls[c] == Call(worker, Claimed)
      modifies repository
      ensures repository.Tables() == Process(cfg, w, c, now, outcome, accepts).db
    {
      hide StepFail, RecordTx, CompleteItemTx;
      ghost var observed := StepObserve(StepLoad(StepBegin(cfg, w, c, now), c), c, outcome);
      if c.attempt > cfg.maxAttempts {
        Fail(observed, repository, c, Failing(now, false, "MAX_ATTEMPTS_EXCEEDED", false));
        return;
      }
      if c.monitor !in repository.monitors || !repository.monitors[c.monitor].active {
        Fail(observed, repository, c, Failing(now, false, "MONITOR_NOT_ACTIVE", false));
        return;
      }
      if outcome.Error? {
        Fail(observed, repository, c, Failing(now, outcome.retryable, outcome.code, true));
        return;
      }
      ghost var recorded := StepRecord(observed, c, accepts);
      var tx := repository.RecordObservation(c.monitor, outcome.observation, accepts, now);
      if tx.Raise? {
        if tx.error.RecordError? || tx.error.InFlight? {
          Fail(recorded, repository, c, Failing(now, true, "UNEXPECTED:IdempotencyConflict", true));
        } else {
          Fail(recorded, repository, c, Failing(now, false, "INTEGRITY_REJECTED", true));
        }
        return;
      }
      var done := repository.CompleteItem(c.monitor, worker, now);
      if done.Raise? {
        Fail(StepComplete(recorded, c), repository, c, Failing(now, false, "INTEGRITY_REJECTED", true));
        return;
      }
      CompletedIsQuiet(cfg, StepComplete(recorded, c), c);
    }
  }

  lemma CompletedIsQuiet(cfg: Config, w: World, c: Claim)
    requires c !in w.calls
    ensures StepFail(cfg, StepFail(cfg, w, c), c) == w
  {}

  /** The claims that claiming these rows yields. */
  function ClaimsOf(items: map<MonitorId, Item>, rows: seq<MonitorId>, now: Time): seq<Claim> {
    if rows == [] then []
    else
      var m := rows[|rows| - 1];
      ClaimsOf(items, rows[..|rows| - 1], now)
      + if m in items && Claimable(items[m], now) then [Claim(m, items[m].attempt + 1)] else []
  }

  function ClaimOps(worker: Worker, rows: seq<MonitorId>, now: Time): seq<Op> {
    if rows == [] then [] else [ClaimItem(worker, rows[0], now)] + ClaimOps(worker, rows[1..], now)
  }

  lemma {:induction false} ClaimOneMore(cfg: Config, w: World, worker: Worker, rows: seq<MonitorId>, m: MonitorId,
                                        now: Time)
    ensures Run(cfg, w, ClaimOps(worker, rows + [m], now))
            == StepClaim(cfg, Run(cfg, w, ClaimOps(worker, rows, now)), worker, m, now)
    decreases |rows|
  {
    hide StepClaim;
    if rows == [] {
      assert Run(cfg, w, [ClaimItem(worker, m, now)]) == Run(cfg, Step(cfg, w, ClaimItem(worker, m, now)), []);
    } else {
      assert (rows + [m])[1..] == rows[1..] + [m];
      var ops := ClaimOps(worker, rows, now);
      assert ops[1..] == ClaimOps(worker, rows[1..], now);
      assert ClaimOps(worker, rows + [m], now)[1..] == ClaimOps(worker, rows[1..] + [m], now);
      ClaimOneMore(cfg, StepClaim(cfg, w, worker, rows[0], now), worker, rows[1..], m, now);
    }
  }

  lemma NewItemsGrow(rows: seq<MonitorId>, i: nat, scheduled: Time, before: map<MonitorId, Item>)
    requires i < |rows|
    ensures var items := NewItems(rows[..i], scheduled) + before;
            NewItems(rows[..i + 1], scheduled) + before
            == if rows[i] in items then items else items[rows[i] := NewItem(scheduled)]
  {
    assert rows[..i + 1] == rows[..i] + [rows[i]];
  }

  lemma ClaimTouches(cfg: Config, w: World, worker: Worker, m: MonitorId, now: Time)
    ensures var w' := StepClaim(cfg, w, worker, m, now);
            && w'.db.items.Keys == w.db.items.Keys
            && (forall x | x in w.db.items && x != m :: w'.db.items[x] == w.db.items[x])
            && (forall c | c in w.calls && c.monitor != m :: c in w'.calls && w'.calls[c] == w.calls[c])
            && (m in w.db.items && Claimable(w.db.items[m], now) ==>
                  var c := Claim(m, w.db.items[m].attempt + 1); c in w'.calls && w'.calls[c] == Call(worker, Claimed))
  {
    hide Claimable;
  }

  lemma {:induction false} ClaimsAreDistinct(items: map<MonitorId, Item>, rows: seq<MonitorId>, now: Time)
    requires forall i, j | 0 <= i < j < |rows| :: rows[i] != rows[j]
    ensures var claims := ClaimsOf(items, rows, now);
            (forall c | c in claims :: c.monitor in rows)
              && (forall i, j | 0 <= i < j < |claims| :: claims[i] != claims[j])
  {
    if rows != [] {
      hide Claimable;
      var n := |rows| - 1;
      ClaimsAreDistinct(items, rows[..n], now);
      var before := ClaimsOf(items, rows[..n], now);
      assert forall i | 0 <= i < |before| :: before[i] in before && before[i].monitor in rows[..n];
      assert rows[n] !in rows[..n] && rows == rows[..n] + [rows[n]];
    }
  }

  /** What claiming leaves in flight: one call per claim, of distinct monitors. */
  lemma {:induction false} ClaimsAreCalls(cfg: Config, w: World, worker: Worker, rows: seq<MonitorId>, now: Time)
    requires forall i, j | 0 <= i < j < |rows| :: rows[i] != rows[j]
    ensures var w', claims := Run(cfg, w, ClaimOps(worker, rows, now)), ClaimsOf(w.db.items, rows, now);
            && (forall c | c in claims :: c in w'.calls && w'.calls[c] == Call(worker, Claimed))
            && (forall m | m in w.db.items && m !in rows :: m in w'.db.items && w'.db.items[m] == w.db.items[m])
            && w'.db.items.Keys == w.db.items.Keys
    decreases |rows|
  {
    if rows != [] {
      hide Run, ClaimOps, Claimable, StepClaim, ClaimsOf;
      var n := |rows| - 1;
      ClaimsAreDistinct(w.db.items, rows[..n], now);
      ClaimsAreCalls(cfg, w, worker, rows[..n], now);
      ClaimsOneMore(w.db.items, rows[..n], rows[n], now);
      ClaimTouches(cfg, Run(cfg, w, ClaimOps(worker, rows[..n], now)), worker, rows[n], now);
      assert rows == rows[..n] + [rows[n]];
      ClaimOneMore(cfg, w, worker, rows[..n], rows[n], now);
      assert rows[n] !in rows[..n];
    }
  }

  /** The provider's behaviour in one run: what comes of each claim, and whether its change event can be appended. */
  type Behaviour = Claim -> (Outcome, bool)

  ghost function ProcessAll(cfg: Config, w: World, claims: seq<Claim>, now: Time, b: Behaviour): World {
    if claims == [] then w
    else
      var c := claims[|claims| - 1];
      Process(cfg, ProcessAll(cfg, w, claims[..|claims| - 1], now, b), c, now, b(c).0, b(c).1)
  }

  /** Nothing of `d` in flight is lost. */
  ghost predicate Keeps(w: World, w': World, d: Claim) { d in w.calls ==> d in w'.calls && w'.calls[d] == w.calls[d] }

  lemma StepsLeaveOthers(cfg: Config, w: World, c: Claim, now: Time, outcome: Outcome, accepts: bool, d: Claim)
    requires d != c
    ensures Keeps(w, StepBegin(cfg, w, c, now), d) && Keeps(w, StepLoad(w, c), d)
            && Keeps(w, StepObserve(w, c, outcome), d)
    ensures Keeps(w, StepRecord(w, c, accepts), d) && Keeps(w, StepComplete(w, c), d)
            && Keeps(w, StepFail(cfg, w, c), d)
  {
    hide RecordTx, FailItemTx, CompleteItemTx;
  }

  lemma ProcessLeavesOthers(cfg: Config, w: World, c: Claim, now: Time, outcome: Outcome, accepts: bool, d: Claim)
    requires d != c
    ensures Keeps(w, Process(cfg, w, c, now, outcome, accepts), d)
  {
    hide StepBegin, StepLoad, StepObserve, StepRecord, StepComplete, StepFail;
    var w1 := StepBegin(cfg, w, c, now);
    var w2 := StepLoad(w1, c);
    var w3 := StepObserve(w2, c, outcome);
    var w4 := StepRecord(w3, c, accepts);
    var w5 := StepComplete(w4, c);
    StepsLeaveOthers(cfg, w, c, now, outcome, accepts, d);
    StepsLeaveOthers(cfg, w1, c, now, outcome, accepts, d);
    StepsLeaveOthers(cfg, w2, c, now, outcome, accepts, d);
    StepsLeaveOthers(cfg, w3, c, now, outcome, accepts, d);
    StepsLeaveOthers(cfg, w4, c, now, outcome, accepts, d);
    StepsLeaveOthers(cfg, w5, c, now, outcome, accepts, d);
    StepsLeaveOthers(cfg, StepFail(cfg, w5, c), c, now, outcome, accepts, d);
  }

  /** The claims in flight, one after the other. */
  method ProcessItems(ghost w: World, worker: CounterpartyMonitoringWorker,
                      repository: CounterpartyMonitoringBatchRepository,
                      claims: seq<Claim>, now: Time, b: Behaviour)
    requires w.db == repository.Tables()
    requires forall c | c in claims :: c in w.calls && w.calls[c] == Call(worker.worker, Claimed)
    requires forall i, j | 0 <= i < j < |claims| :: claims[i] != claims[j]
    modifies repository
    ensures repository.Tables() == ProcessAll(worker.cfg, w, claims, now, b).db
  {
    hide Process;
    ghost var current := w;
    var i := 0;
    assert claims[..0] == [];
    while i < |claims|
      invariant 0 <= i <= |claims| && current == ProcessAll(worker.cfg, w, claims[..i], now, b)
                && repository.Tables() == current.db
      invariant forall j | i <= j < |claims| ::
                  claims[j] in current.calls
                  && current.calls[claims[j]] == Call(worker.worker, Claimed)
    {
      var c := claims[i];
      assert claims[..i + 1][..i] == claims[..i];
      ghost var next := Process(worker.cfg, current, c, now, b(c).0, b(c).1);
      forall j | i < j < |claims| ensures Keeps(current, next, claims[j]) {
        ProcessLeavesOthers(worker.cfg, current, c, now, b(c).0, b(c).1, claims[j]);
      }
      worker.ProcessItem(current, repository, c, now, b(c).0, b(c).1);
      current := next;
      i := i + 1;
    }
    assert claims[..|claims|] == claims;
  }

  function ClaimableIds(items: map<MonitorId, Item>, now: Time): set<MonitorId> {
    set m | m in items && Claimable(items[m], now)
  }

  /** What a worker is set up with. */
  datatype Setup = Setup(cfg: Config, worker: Worker, pageSize: nat, parallelism: nat)

  /** One cycle of the protocol without interruption: start, one page, claim what is claimable, process the
      claims one after the other, finalise. The number is that of the items claimed. */
  ghost function Cycle(u: Setup, w: World, scheduled: Time, now: Time, b: Behaviour): (World, nat) {
    var collected := StepMaterialize(w.(db := StartTx(w.db, scheduled)), scheduled, u.pageSize);
    var rows := Page(ClaimableIds(collected.db.items, now), u.parallelism);
    var inFlight := Run(u.cfg, collected, ClaimOps(u.worker, rows, now));
    var claims := ClaimsOf(collected.db.items, rows, now);
    (StepFinalize(ProcessAll(u.cfg, inFlight, claims, now, b), now), |claims|)
  }

  function SetupOf(worker: CounterpartyMonitoringWorker): Setup {
    Setup(worker.cfg, worker.worker, worker.pageSize, worker.parallelism)
  }

  lemma PageIsDistinct(s: set<MonitorId>, limit: nat)
    ensures forall i, j | 0 <= i < j < |Page(s, limit)| :: Page(s, limit)[i] != Page(s, limit)[j]
  {
    PageTakesTheFirst(s, limit);
  }

  method RunOnce(ghost w: World, worker: CounterpartyMonitoringWorker,
                 repository: CounterpartyMonitoringBatchRepository,
                 scheduled: Time, now: Time, b: Behaviour)
    returns (claimed: nat, final: Option<Batch>)
    requires w.db == repository.Tables() && worker.pageSize >= 1
    modifies repository
    ensures var (w', n) := Cycle(SetupOf(worker), w, scheduled, now, b);
            repository.Tables() == w'.db && final == w'.db.batch && claimed == n
  {
    hide Page, ProcessAll, Run, ClaimOps, ClaimsOf, StepFinalize;
    repository.StartOrResumeDailyBatch(scheduled);
    var materialized := repository.MaterializeDueItems(scheduled, worker.pageSize);
    ghost var collected := StepMaterialize(w.(db := StartTx(w.db, scheduled)), scheduled, worker.pageSize);
    var rows := QueryPage(ClaimableIds(repository.items, now), worker.parallelism);
    PageIsDistinct(ClaimableIds(repository.items, now), worker.parallelism);
    ghost var inFlight := Run(worker.cfg, collected, ClaimOps(worker.worker, rows, now));
    ClaimsAreCalls(worker.cfg, collected, worker.worker, rows, now);
    ClaimsAreDistinct(collected.db.items, rows, now);
    var claims := repository.ClaimItems(collected, worker.cfg, worker.worker, now, rows);
    claimed := |claims|;
    ProcessItems(inFlight, worker, repository, claims, now, b);
    FinalizeStep(ProcessAll(worker.cfg, inFlight, claims, now, b), now);
    var tx := repository.FinalizeBatch(now);
    final := if tx.Commit? then Some(tx.answer) else None;
  }

  lemma FinalizeStep(w: World, now: Time)
    ensures var tx := FinalizeTx(w.db, now);
            var w' := StepFinalize(w, now);
            if tx.Commit? then w'.db == tx.db && w'.db.batch == Some(tx.answer) else w'.db == w.db && w.db.batch.None?
  {}

  ghost predicate IsDone(w: World) { w.db.batch.Some? && w.db.batch.value.status == Done }

  /** The world after `n` cycles, at the given times and with the given behaviours. */
  ghost function Cycles(u: Setup, w: World, scheduled: Time, times: seq<Time>, bs: seq<Behaviour>, n: nat): World
    requires n <= |times| == |bs|
  {
    if n == 0 then w else Cycle(u, Cycles(u, w, scheduled, times, bs, n - 1), scheduled, times[n - 1], bs[n - 1]).0
  }

  /** Cycle `k` completes the batch or claims nothing. */
  ghost predicate StopsAt(u: Setup, w: World, scheduled: Time, times: seq<Time>, bs: seq<Behaviour>, k: nat)
    requires k < |times| == |bs|
  {
    var (w', claimed) := Cycle(u, Cycles(u, w, scheduled, times, bs, k), scheduled, times[k], bs[k]);
    IsDone(w') || claimed == 0
  }

  /** The bounded loop: it runs until a cycle completes the batch or claims nothing, and in no case more
      than the given number of cycles. */
  method RunUntilQuiescent(ghost w: World, worker: CounterpartyMonitoringWorker,
                           repository: CounterpartyMonitoringBatchRepository,
                           scheduled: Time, times: seq<Time>, bs: seq<Behaviour>)
    returns (cycles: nat, claimed: nat, final: Option<Batch>)
    requires w.db == repository.Tables() && worker.pageSize >= 1 && |times| == |bs| >= 1
    modifies repository
    ensures 1 <= cycles <= |times|
    ensures var w' := Cycles(SetupOf(worker), w, scheduled, times, bs, cycles);
            repository.Tables() == w'.db && final == w'.db.batch
    ensures forall k | 0 <= k < cycles - 1 :: !StopsAt(SetupOf(worker), w, scheduled, times, bs, k)
    ensures cycles < |times| ==> StopsAt(SetupOf(worker), w, scheduled, times, bs, cycles - 1)
  {
    hide Cycle;
    ghost var u := SetupOf(worker);
    claimed, final := RunOnce(w, worker, repository, scheduled, times[0], bs[0]);
    ghost var before, now := w, Cycle(u, w, scheduled, times[0], bs[0]).0;
    cycles := 1;
    assert Cycles(u, w, scheduled, times, bs, 0) == w;
    while cycles < |times| && !(final.Some? && final.value.status == Done) && claimed != 0
      invariant 1 <= cycles <= |times|
      invariant before == Cycles(u, w, scheduled, times, bs, cycles - 1)
                && now == Cycles(u, w, scheduled, times, bs, cycles)
      invariant repository.Tables() == now.db && final == now.db.batch
      invariant claimed == Cycle(u, before, scheduled, times[cycles - 1], bs[cycles - 1]).1
      invariant forall k | 0 <= k < cycles - 1 :: !StopsAt(u, w, scheduled, times, bs, k)
    {
      claimed, final := RunOnce(now, worker, repository, scheduled, times[cycles], bs[cycles]);
      before, now := now, Cycle(u, now, scheduled, times[cycles], bs[cycles]).0;
      cycles := cycles + 1;
    }
  }

  lemma ProcessKeepsInv(cfg: Config, w: World, c: Claim, now: Time, outcome: Outcome, accepts: bool)
    requires Inv(cfg, w)
    ensures Inv(cfg, Process(cfg, w, c, now, outcome, accepts))
  {
    hide Inv, StepBegin, StepLoad, StepObserve, StepRecord, StepComplete, StepFail;
    StepKeepsInv(cfg, w, Begin(c, now));
    var w1 := StepBegin(cfg, w, c, now);
    StepKeepsInv(cfg, w1, Load(c));
    var w2 := StepLoad(w1, c);
    StepKeepsInv(cfg, w2, Observe(c, outcome));
    var w3 := StepObserve(w2, c, outcome);
    StepKeepsInv(cfg, w3, Op.RecordObservation(c, accepts));
    var w4 := StepRecord(w3, c, accepts);
    StepKeepsInv(cfg, w4, Complete(c));
    var w5 := StepComplete(w4, c);
    StepKeepsInv(cfg, w5, Op.Fail(c));
    StepKeepsInv(cfg, StepFail(cfg, w5, c), Op.Fail(c));
  }

  lemma {:induction false} ProcessAllKeepsInv(cfg: Config, w: World, claims: seq<Claim>, now: Time, b: Behaviour)
    requires Inv(cfg, w)
    ensures Inv(cfg, ProcessAll(cfg, w, claims, now, b))
  {
    hide Inv, Process;
    if claims != [] {
      ProcessAllKeepsInv(cfg, w, claims[..|claims| - 1], now, b);
      var c := claims[|claims| - 1];
      ProcessKeepsInv(cfg, ProcessAll(cfg, w, claims[..|claims| - 1], now, b), c, now, b(c).0, b(c).1);
    }
  }

  /** Every cycle of the worker is a run of the protocol, so all that the protocol keeps holds after any
      number of cycles: the provider has been asked at most `maxAttempts` times per monitor. */
  lemma {:induction false} CyclesKeepTheBounds(u: Setup, w: World, scheduled: Time, times: seq<Time>,
                                               bs: seq<Behaviour>, n: nat, m: MonitorId)
    requires n <= |times| == |bs| && Inv(u.cfg, w)
    ensures var w' := Cycles(u, w, scheduled, times, bs, n);
            Inv(u.cfg, w') && TimesAsked(w'.observations, m) <= u.cfg.maxAttempts
    decreases n
  {
    hide Inv, StepMaterialize, ProcessAll, ClaimOps, ClaimsOf, Run, StepFinalize, TimesAsked;
    if n > 0 {
      CyclesKeepTheBounds(u, w, scheduled, times, bs, n - 1, m);
      var w0, now, b := Cycles(u, w, scheduled, times, bs, n - 1), times[n - 1], bs[n - 1];
      StepKeepsInv(u.cfg, w0, Start(scheduled));
      var started := w0.(db := StartTx(w0.db, scheduled));
      StepKeepsInv(u.cfg, started, Materialize(scheduled, u.pageSize));
      var collected := StepMaterialize(started, scheduled, u.pageSize);
      var rows := Page(ClaimableIds(collected.db.items, now), u.parallelism);
      RunKeepsInv(u.cfg, collected, ClaimOps(u.worker, rows, now));
      var inFlight := Run(u.cfg, collected, ClaimOps(u.worker, rows, now));
      var claims := ClaimsOf(collected.db.items, rows, now);
      ProcessAllKeepsInv(u.cfg, inFlight, claims, now, b);
      StepKeepsInv(u.cfg, ProcessAll(u.cfg, inFlight, claims, now, b), Finalize(now));
    }
    AskedWithinBound(u.cfg, Cycles(u, w, scheduled, times, bs, n), m);
  }
}
