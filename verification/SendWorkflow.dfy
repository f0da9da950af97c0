/** The send workflow and the channel adapter as objects that update their tables in place. */
module SendWorkflow {
  import opened Common
  import opened Idempotency
  import opened SendKeys
  import opened Send

  class MaxAdapter {
    var sent: map<string, Receipt>

    constructor ()
      ensures sent == map[]
    {
      sent := map[];
    }

    method Send(m: Message, key: string) returns (tx: Tx<map<string, Receipt>, string, AdapterError>)
      modifies this
      ensures tx == DeliverTx(old(sent), m, key)
      ensures sent == if tx.Commit? then tx.db else old(sent)
    {
      if m.channel != CHANNEL {
        return Raise(WrongChannel);
      }
      if key in sent {
        var existing := sent[key];
        if existing.fingerprint != m {
          return Raise(KeyReused);
        }
        return Commit(sent, existing.id);
      }
      var id := ReceiptId(key);
      sent := sent[key := Receipt(m, id)];
      tx := Commit(sent, id);
    }
  }

  class CommercialActionSendWorkflow {
    var records: map<Key, Record<SendRequest, ActionId, string>>
    var actions: map<ActionId, Action>
    var outbox: map<EventKey, Event>
    var quarantine: seq<Quarantine>

    constructor (db: Db)
      ensures Tables() == db
    {
      records, actions, outbox, quarantine := db.records, db.actions, db.outbox, db.quarantine;
    }

    function Tables(): Db
      reads this
    {
      Db(records, actions, outbox, quarantine)
    }

    /** Undo everything a unit of work has written. */
    method Rollback(snapshot: Db)
      modifies this
      ensures Tables() == snapshot
    {
      records, actions, outbox, quarantine := snapshot.records, snapshot.actions, snapshot.outbox, snapshot.quarantine;
    }

    method ClaimForSend(id: ActionId, worker: WorkerId, now: Time) returns (claimed: Tx<Action, Action, SendError>)
      requires id in actions
      modifies this`actions
      ensures claimed.Raise? ==> actions == old(actions)
      ensures var a := old(actions[id]);
              if a.status != Ready && a.status != Sending then claimed == Raise(NotAvailable)
              else if !ValidForSend(a) then claimed == Raise(NotValid)
              else if a.status == Sending && !(a.lease.Some? && a.lease.value.until <= now)
                then claimed == Raise(InProgress)
              else
                var b := a.(status := Sending, attempt := a.attempt + 1,
                            lease := Some(Lease(worker, now + LEASE_SECONDS)));
                claimed == Commit(b, b) && actions == old(actions)[id := b]
    {
      var current := actions[id];
      if current.status != Ready && current.status != Sending {
        return Raise(NotAvailable);
      }
      if !ValidForSend(current) {
        return Raise(NotValid);
      }
      var expired := current.lease.Some? && current.lease.value.until <= now;
      if current.status == Ready || expired {
        var next := current.(status := Sending, attempt := current.attempt + 1,
                             lease := Some(Lease(worker, now + LEASE_SECONDS)));
        actions := actions[id := next];
        return Commit(next, next);
      }
      claimed := Raise(InProgress);
    }

    method Admit(actor: string, allowed: bool, r: SendRequest, worker: WorkerId, now: Time)
      returns (tx: Tx<Db, Admission, SendError>)
      modifies this
      ensures tx == AdmitTx(old(Tables()), actor, allowed, r, worker, now)
      ensures Tables() == if tx.Commit? then tx.db else old(Tables())
      ensures tx.Commit? && tx.answer.Replay? ==> Tables() == old(Tables())
    {
      var snapshot := Tables();
      if r.action !in actions {
        return Raise(UnknownAction);
      }
      var action := actions[r.action];
      if action.owner != actor {
        return Raise(OutOfScope);
      }
      if !allowed {
        return Raise(PolicyDenied);
      }
      if r.key in records {
        var existing := records[r.key];
        if existing.hash != r {
          return Raise(RecordError(HashConflict));
        }
        if existing.ref.Done? {
          if action.status != Sent {
            return Raise(ReplayNotSent);
          }
          return Commit(Tables(), Replay(existing.ref.result));
        }
        if existing.ref != Pending(r.action) {
          return Raise(ReservedForOther);
        }
      }
      var reserved := ReserveTx(records, r.key, r, Pending(r.action));
      assert reserved.db == records[r.key := Record(r, Pending(r.action))];
      records := reserved.db;
      var claimed := ClaimForSend(r.action, worker, now);
      if claimed.Raise? {
        Rollback(snapshot);
        return Raise(claimed.error);
      }
      tx := Commit(Tables(), Claimed(claimed.answer));
    }

    method Complete(r: SendRequest, worker: WorkerId, receipt: string, now: Time)
      returns (tx: Tx<Db, string, SendError>)
      modifies this
      ensures tx == FinishTx(old(Tables()), r, worker, receipt, now)
      ensures Tables() == if tx.Commit? then tx.db else old(Tables())
    {
      var snapshot := Tables();
      var completed := CompleteTx(records, r.key, r, Done(receipt));
      if completed.Raise? {
        return Raise(RecordError(completed.error));
      }
      records := completed.db;
      if r.action !in actions {
        Rollback(snapshot);
        return Raise(UnknownAction);
      }
      var current := actions[r.action];
      var stored := completed.answer.ref.result;
      if current.status == Sent {
        if stored != receipt {
          Rollback(snapshot);
          return Raise(ResultDiffers);
        }
        return Commit(Tables(), stored);
      }
      if current.status != Sending {
        Rollback(snapshot);
        return Raise(NotWaiting);
      }
      if !Holds(current, worker, now) {
        Rollback(snapshot);
        return Raise(LeaseLost);
      }
      actions := actions[r.action := current.(status := Sent, lease := None)];
      var appended := AppendEvent(outbox, SentKey(r.action, stored), SentEvent(current.identity, current.channel, now));
      if appended.Raise? {
        Rollback(snapshot);
        return Raise(appended.error);
      }
      outbox := appended.db;
      tx := Commit(Tables(), receipt);
    }

    method QuarantineUnknownEffect(r: SendRequest, worker: WorkerId, now: Time) returns (tx: Tx<Db, bool, SendError>)
      modifies this
      ensures tx == QuarantineTx(old(Tables()), r, worker, now)
      ensures Tables() == if tx.Commit? then tx.db else old(Tables())
    {
      var snapshot := Tables();
      if r.action !in actions {
        return Raise(UnknownAction);
      }
      var current := actions[r.action];
      var stale := true;
      if Holds(current, worker, now) {
        current := current.(status := Failed, lease := None);
        stale := false;
      }
      actions := actions[r.action := current];
      quarantine := quarantine + [Quarantine(r, stale, current.attempt, worker, current.status)];
      var appended := AppendEvent(outbox, UnknownKey(r, worker),
                                  UnknownEvent(current.channel, stale, current.status, current.lease, now));
      if appended.Raise? {
        Rollback(snapshot);
        return Raise(appended.error);
      }
      outbox := appended.db;
      tx := Commit(Tables(), stale);
    }

    /** The adapter call and what follows it, for a worker that has claimed the action. */
    method Deliver(adapter: MaxAdapter, r: SendRequest, sending: Action, worker: WorkerId, outcome: AdapterOutcome,
                   later: Time)
      returns (answer: Option<string>)
      modifies this, adapter
      ensures var delivery := DeliverTx(old(adapter.sent), MessageOf(r, sending), EffectKey(r.action));
              if !GatewayAccepts(r, sending) then answer.None? && Tables() == old(Tables())
                && adapter.sent == old(adapter.sent)
              else if outcome.Loses? then
                var tx := QuarantineTx(old(Tables()), r, worker, later);
                && answer.None? && Tables() == (if tx.Commit? then tx.db else old(Tables()))
                && adapter.sent == if outcome.delivered && delivery.Commit? then delivery.db else old(adapter.sent)
              else if delivery.Raise? then answer.None? && Tables() == old(Tables())
                && adapter.sent == old(adapter.sent)
              else
                var tx := FinishTx(old(Tables()), r, worker, delivery.answer, later);
                && adapter.sent == delivery.db && Tables() == (if tx.Commit? then tx.db else old(Tables()))
                && answer == if tx.Commit? then Some(tx.answer) else None
    {
      hide EffectKey, ReceiptId, FinishTx, QuarantineTx, GatewayAccepts, DeliverTx;
      if !GatewayAccepts(r, sending) {
        return None;
      }
      if outcome.Loses? {
        if outcome.delivered {
          var ignored := adapter.Send(MessageOf(r, sending), EffectKey(r.action));
        }
        var quarantined := QuarantineUnknownEffect(r, worker, later);
        return None;
      }
      var delivered := adapter.Send(MessageOf(r, sending), EffectKey(r.action));
      if delivered.Raise? {
        return None;
      }
      var completed := Complete(r, worker, delivered.answer, later);
      answer := if completed.Commit? then Some(completed.answer) else None;
    }

    /** One `execute` call that nobody interrupts does what `Send.Execute` says of any world with
        these tables, and answers exactly when that world records an answer. */
    method Execute(ghost w: World, adapter: MaxAdapter, actor: string, r: SendRequest, worker: WorkerId,
                   outcome: AdapterOutcome, now: Time, later: Time)
      returns (answer: Option<string>)
      requires w.db == Tables() && w.sent == adapter.sent && worker !in w.used && worker !in w.calls
      modifies this, adapter
      ensures var w' := Send.Execute(w, actor, r, worker, outcome, now, later);
              && Tables() == w'.db && adapter.sent == w'.sent
              && w'.answers == if answer.Some? then w.answers + {(r, answer.value)} else w.answers
    {
      hide EffectKey, ReceiptId, AdmitTx, FinishTx, QuarantineTx, GatewayAccepts, DeliverTx, StepCall, StepLose,
           StepFinish, StepQuarantine;
      var admitted := Admit(actor, true, r, worker, now);
      NothingBegun(Step(w, Begin(actor, true, r, worker, now)), worker, outcome, later);
      if admitted.Raise? {
        return None;
      }
      if admitted.answer.Replay? {
        return Some(admitted.answer.receipt);
      }
      AfterBegin(Step(w, Begin(actor, true, r, worker, now)), worker, outcome, later);
      answer := Deliver(adapter, r, admitted.answer.action, worker, outcome, later);
    }
  }
}
