/** What leaves the platform is what the owner of an action asked for, addressed as the action's row says.
    The statements look at the rows, at the calls made and at the messages only. */
module SendOutcomes {
  import opened Common
  import opened Idempotency
  import opened SendKeys
  import opened Send

  /** The parts of a row that no step changes. */
  ghost predicate SameAddress(a: Action, b: Action) {
    && a.owner == b.owner && a.identity == b.identity && a.contact == b.contact && a.channel == b.channel
    && a.evidence == b.evidence
  }

  ghost predicate RowsStay(db: Db, db': Db) {
    forall a | a in db.actions :: a in db'.actions && SameAddress(db.actions[a], db'.actions[a])
  }

  /** The owner of the action has asked for this, and was allowed to. */
  ghost predicate OwnerAsked(w: World, r: SendRequest) {
    r.action in w.db.actions && Ask(w.db.actions[r.action].owner, true, r) in w.asked
  }

  /** The action's row has everything that a message needs. */
  ghost predicate Complete(a: Action) { a.identity != "" && a.contact != "" && a.channel != "" && a.evidence >= 1 }

  /** The message goes to the channel and the contact of its action's row, with the body that the owner of
      the action gave under some key. */
  ghost predicate IsFaithful(w: World, m: Message) {
    && m.action in w.db.actions && m.channel == w.db.actions[m.action].channel
    && m.contact == w.db.actions[m.action].contact
    && m.action != "" && m.body != "" && m.channel == CHANNEL && Complete(w.db.actions[m.action])
    && exists key :: OwnerAsked(w, SendRequest(m.action, key, m.body))
  }

  ghost predicate IsAsked(w: World, p: Phase) {
    && OwnerAsked(w, p.request)
    && (p.Calling? ==> SameAddress(p.action, w.db.actions[p.request.action]) && Complete(p.action))
  }

  ghost predicate EventIsTrue(db: Db, k: EventKey, e: Event) {
    match k
    case SentKey(a, _) =>
      a in db.actions && e.SentEvent? && e.identity == db.actions[a].identity && e.channel == db.actions[a].channel
    case UnknownKey(r, _) =>
      r.action in db.actions && e.UnknownEvent? && e.channel == db.actions[r.action].channel
  }

  ghost predicate Faithful(w: World) {
    && (forall m | m in w.effects :: IsFaithful(w, m))
    && (forall n | n in w.calls :: IsAsked(w, w.calls[n]))
    && (forall x | x in w.answers :: OwnerAsked(w, x.0))
    && (forall k | k in w.db.outbox :: EventIsTrue(w.db, k, w.db.outbox[k]))
  }

  /** Rows stay and calls are remembered. */
  ghost predicate Remembers(w: World, w': World) { RowsStay(w.db, w'.db) && w.asked <= w'.asked }

  lemma RemembersAsked(w: World, w': World, r: SendRequest)
    requires Remembers(w, w') && OwnerAsked(w, r)
    ensures OwnerAsked(w', r)
  {}

  lemma RemembersFaithful(w: World, w': World, m: Message)
    requires Remembers(w, w') && IsFaithful(w, m)
    ensures IsFaithful(w', m)
  {
    var key :| OwnerAsked(w, SendRequest(m.action, key, m.body));
    RemembersAsked(w, w', SendRequest(m.action, key, m.body));
  }

  lemma RemembersCall(w: World, w': World, p: Phase)
    requires Remembers(w, w') && IsAsked(w, p)
    ensures IsAsked(w', p)
  {}

  /** What was faithful stays so; what is new has to be shown. */
  lemma RemembersAll(w: World, w': World)
    requires Faithful(w) && Remembers(w, w')
    requires forall m | m in w'.effects && m !in w.effects :: IsFaithful(w', m)
    requires forall n | n in w'.calls :: (n in w.calls && w'.calls[n] == w.calls[n]) || IsAsked(w', w'.calls[n])
    requires forall x | x in w'.answers && x !in w.answers :: OwnerAsked(w', x.0)
    requires forall k | k in w'.db.outbox ::
               (k in w.db.outbox && w'.db.outbox[k] == w.db.outbox[k]) || EventIsTrue(w'.db, k, w'.db.outbox[k])
    ensures Faithful(w')
  {
    hide IsFaithful, OwnerAsked;
    forall m | m in w.effects ensures IsFaithful(w', m) { RemembersFaithful(w, w', m); }
    forall x | x in w.answers ensures OwnerAsked(w', x.0) { RemembersAsked(w, w', x.0); }
    forall n | n in w.calls ensures IsAsked(w', w.calls[n]) { RemembersCall(w, w', w.calls[n]); }
  }

  lemma BeginIsFaithful(w: World, op: Op)
    requires Faithful(w) && op.Begin?
    ensures Faithful(StepBegin(w, op))
  {
    hide IsFaithful, EventIsTrue;
    RemembersAll(w, StepBegin(w, op));
  }

  lemma DeliveredIsFaithful(w: World, worker: WorkerId)
    requires Faithful(w) && worker in w.calls && w.calls[worker].Calling?
    ensures var Calling(r, a) := w.calls[worker];
            var w' := Deliver(w, r, a).0;
            && w' == w.(sent := w'.sent, effects := w'.effects)
            && forall m | m in w'.effects && m !in w.effects :: IsFaithful(w', m)
  {
    hide EffectKey, ReceiptId, EventIsTrue;
    var Calling(r, a) := w.calls[worker];
    assert IsAsked(w, w.calls[worker]);
    var w' := Deliver(w, r, a).0;
    assert SendRequest(r.action, r.key, r.body) == r && OwnerAsked(w', r);
  }

  lemma CallIsFaithful(w: World, worker: WorkerId)
    requires Faithful(w) && worker in w.calls && w.calls[worker].Calling?
    ensures Faithful(StepCall(w, worker))
  {
    DeliveredIsFaithful(w, worker);
    assert IsAsked(w, w.calls[worker]);
    hide IsFaithful, EventIsTrue, Deliver, GatewayAccepts, Complete;
    RemembersAll(w, StepCall(w, worker));
  }

  lemma LossIsFaithful(w: World, worker: WorkerId, delivered: bool)
    requires Faithful(w) && worker in w.calls && w.calls[worker].Calling?
    ensures Faithful(StepLose(w, worker, delivered))
  {
    DeliveredIsFaithful(w, worker);
    assert IsAsked(w, w.calls[worker]);
    hide IsFaithful, EventIsTrue, Deliver, GatewayAccepts, Complete;
    RemembersAll(w, StepLose(w, worker, delivered));
  }

  lemma FinishIsFaithful(w: World, worker: WorkerId, now: Time)
    requires Faithful(w)
    ensures Faithful(StepFinish(w, worker, now))
  {
    hide IsFaithful, CompleteTx;
    RemembersAll(w, StepFinish(w, worker, now));
  }

  lemma QuarantineIsFaithful(w: World, worker: WorkerId, now: Time)
    requires Faithful(w)
    ensures Faithful(StepQuarantine(w, worker, now))
  {
    hide IsFaithful;
    RemembersAll(w, StepQuarantine(w, worker, now));
  }

  lemma {:induction false} RunIsFaithful(w: World, ops: seq<Op>)
    requires Faithful(w)
    ensures Faithful(Run(w, ops))
    decreases |ops|
  {
    if ops != [] {
      StepIsFaithful(w, ops[0]);
      RunIsFaithful(Step(w, ops[0]), ops[1..]);
    }
  }

  lemma StepIsFaithful(w: World, op: Op)
    requires Faithful(w)
    ensures Faithful(Step(w, op))
  {
    hide IsFaithful, EventIsTrue, StepBegin, StepCall, StepLose, StepFinish, StepQuarantine;
    match op
    case AddAction(id, a) => RemembersAll(w, Step(w, op));
    case Begin(_, _, _, _, _) => BeginIsFaithful(w, op);
    case CallAdapter(worker) =>
      hide Faithful;
      CallStepIsFaithful(w, worker, false);
    case LoseOutcome(worker, delivered) =>
      hide Faithful;
      CallStepIsFaithful(w, worker, delivered);
    case Finish(worker, now) => FinishIsFaithful(w, worker, now);
    case QuarantineUnknown(worker, now) => QuarantineIsFaithful(w, worker, now);
    case Crash(worker) => RemembersAll(w, Step(w, op));
  }

  lemma CallStepIsFaithful(w: World, worker: WorkerId, delivered: bool)
    requires Faithful(w)
    ensures Faithful(StepCall(w, worker)) && Faithful(StepLose(w, worker, delivered))
  {
    if worker in w.calls && w.calls[worker].Calling? {
      CallIsFaithful(w, worker);
      LossIsFaithful(w, worker, delivered);
    }
  }

  /** Over every run, each message that has left, and the message of each receipt on file, carries the channel
      and the contact of the row of its action, and a body that the owner of the action gave in a call that was
      allowed. The row has everything that a message needs. */
  lemma MessagesAreFaithful(ops: seq<Op>, m: Message)
    requires var w := Run(Empty, ops); m in w.effects || exists k :: k in w.sent && w.sent[k].fingerprint == m
    ensures var w := Run(Empty, ops);
            && m.action in w.db.actions && m.action != "" && m.body != ""
            && (var row := w.db.actions[m.action];
                && m.channel == row.channel == CHANNEL && m.contact == row.contact
                && row.identity != "" && row.contact != "" && row.evidence >= 1
                && exists key :: Ask(row.owner, true, SendRequest(m.action, key, m.body)) in w.asked)
  {
    Reachable(ops);
    RunIsFaithful(Empty, ops);
    var w := Run(Empty, ops);
    hide Run, PromisesOk, RowsOk, EffectKey, ReceiptId;
    assert m in w.effects;
    assert IsFaithful(w, m);
    var key :| OwnerAsked(w, SendRequest(m.action, key, m.body));
  }

  /** Whoever was answered belongs to a call that the owner of the action made and was allowed to make. */
  lemma AnswersAreTheOwners(ops: seq<Op>, r: SendRequest, receipt: string)
    requires (r, receipt) in Run(Empty, ops).answers
    ensures var w := Run(Empty, ops);
            r.action in w.db.actions && Ask(w.db.actions[r.action].owner, true, r) in w.asked
  {
    RunIsFaithful(Empty, ops);
    hide Run, IsFaithful;
  }

  /** Events carry the identity and the channel of the row of their action. */
  lemma EventsAreTrue(ops: seq<Op>, k: EventKey)
    requires k in Run(Empty, ops).db.outbox
    ensures var db := Run(Empty, ops).db;
            match k
            case SentKey(a, _) =>
              a in db.actions && exists at ::
                db.outbox[k] == SentEvent(db.actions[a].identity, db.actions[a].channel, at)
            case UnknownKey(r, _) =>
              r.action in db.actions && db.outbox[k].UnknownEvent?
              && db.outbox[k].channel == db.actions[r.action].channel
  {
    RunIsFaithful(Empty, ops);
    hide Run, IsFaithful;
    assert EventIsTrue(Run(Empty, ops).db, k, Run(Empty, ops).db.outbox[k]);
    if k.SentKey? {
      var e := Run(Empty, ops).db.outbox[k];
      assert e == SentEvent(e.identity, e.channel, e.at);
    }
  }

  /** Owner, identity, contact, channel and evidence of a row never change. */
  lemma {:induction false} AddressIsImmutable(w: World, ops: seq<Op>)
    ensures RowsStay(w.db, Run(w, ops).db)
    decreases |ops|
  {
    if ops != [] {
      StepKeepsAddress(w, ops[0]);
      AddressIsImmutable(Step(w, ops[0]), ops[1..]);
      hide Step;
    }
  }

  lemma StepKeepsAddress(w: World, op: Op)
    ensures RowsStay(w.db, Step(w, op).db)
  {
    hide EffectKey, ReceiptId, Deliver, CompleteTx, GatewayAccepts;
    if op.CallAdapter? || op.LoseOutcome? {
      if op.worker in w.calls && w.calls[op.worker].Calling? {
        DeliverWrites(w, w.calls[op.worker].request, w.calls[op.worker].action);
      }
    }
  }

  // ----- what one step does, exactly -----

  /** The key is free, or reserved for this very request. */
  ghost predicate Fits(db: Db, r: SendRequest) { r.key in db.records ==> db.records[r.key].hash == r }

  /** The action waits to be sent: ready, or left behind by a worker whose lease has run out. */
  ghost predicate Waits(a: Action, now: Time) {
    a.status == Ready || (a.status == Sending && a.lease.Some? && a.lease.value.until <= now)
  }

  /** A call is answered from its key, claims its action, or changes nothing, and exactly when. */
  lemma BeginOutcome(ops: seq<Op>, actor: string, allowed: bool, r: SendRequest, worker: WorkerId, now: Time)
    requires worker !in Run(Empty, ops).used
    ensures var w := Run(Empty, ops);
            var w' := Step(w, Begin(actor, allowed, r, worker, now));
            var quiet := w.(asked := w.asked + {Ask(actor, allowed, r)});
            var owned := r.action in w.db.actions && w.db.actions[r.action].owner == actor;
            var welcome := owned && allowed && Fits(w.db, r);
            if welcome && r.key in w.db.records && w.db.records[r.key].ref.Done? then
              w' == quiet.(answers := w.answers + {(r, w.db.records[r.key].ref.result)})
            else if welcome && Complete(w.db.actions[r.action]) && Waits(w.db.actions[r.action], now) then
              var row := w.db.actions[r.action];
              var claimed := row.(status := Sending, attempt := row.attempt + 1,
                                  lease := Some(Lease(worker, now + 300)));
              w' == quiet.(db := w.db.(records := w.db.records[r.key := Record(r, Pending(r.action))],
                                       actions := w.db.actions[r.action := claimed]),
                           used := w.used + {worker}, calls := w.calls[worker := Calling(r, claimed)])
            else w' == quiet
  {
    Reachable(ops);
    var w := Run(Empty, ops);
    hide Run, EffectKey, ReceiptId;
    if r.key in w.db.records {
      assert RecordOk(w, r.key, w.db.records[r.key]);
      assert w.db.records[r.key] == Record(w.db.records[r.key].hash, w.db.records[r.key].ref);
    }
  }

  /** The message of a call leaves unless one for its action has left before; it is answered unless that one
      was another message, or the channel or the request do not fit. */
  lemma CallOutcome(ops: seq<Op>, worker: WorkerId)
    requires var w := Run(Empty, ops); worker in w.calls && w.calls[worker].Calling?
    ensures var w := Run(Empty, ops);
            var r, k := w.calls[worker].request, EffectKey(w.calls[worker].request.action);
            && r.action in w.db.actions
            && var row := w.db.actions[r.action];
               var m := Message(r.action, row.channel, row.contact, r.body);
               var fits := r.action != "" && r.body != "" && row.channel == "max";
               Step(w, CallAdapter(worker)) ==
               if !fits || (k in w.sent && w.sent[k].fingerprint != m) then w.(calls := w.calls - {worker})
               else
                 var w' := w.(calls := w.calls[worker := Answered(r, ReceiptId(k))]);
                 if k in w.sent then w'
                 else w'.(sent := w.sent[k := Receipt(m, ReceiptId(k))], effects := w.effects + [m])
  {
    Reachable(ops);
    RunIsFaithful(Empty, ops);
    var w := Run(Empty, ops);
    assert IsAsked(w, w.calls[worker]) && CallOk(w, w.calls[worker]);
    hide Run, EffectKey, ReceiptId, IsFaithful, EventIsTrue;
  }

  /** An unknown outcome is quarantined in any case; the action fails exactly if its lease is still live. */
  lemma QuarantineOutcome(ops: seq<Op>, worker: WorkerId, now: Time)
    requires var w := Run(Empty, ops); worker in w.calls && w.calls[worker].OutcomeUnknown?
    ensures var w := Run(Empty, ops);
            var r := w.calls[worker].request;
            var w' := Step(w, QuarantineUnknown(worker, now));
            && r.action in w.db.actions
            && var row := w.db.actions[r.action];
               var live := row.status == Sending && row.lease.Some? && row.lease.value.worker == worker
                           && now < row.lease.value.until;
               var after := if live then row.(status := Failed, lease := None) else row;
               && w'.db.actions == w.db.actions[r.action := after] && w'.db.records == w.db.records
               && w'.db.quarantine == w.db.quarantine + [Quarantine(r, !live, row.attempt, worker, after.status)]
               && w'.db.outbox == w.db.outbox[UnknownKey(r, worker) :=
                    UnknownEvent(row.channel, !live, after.status, after.lease, now)]
               && w'.calls == w.calls - {worker} && w'.effects == w.effects && w'.answers == w.answers
  {
    Reachable(ops);
    var w := Run(Empty, ops);
    assert CallOk(w, w.calls[worker]);
    assert UnknownKey(w.calls[worker].request, worker) !in w.db.outbox;
    hide Run, EffectKey, ReceiptId;
  }

  /** The gateway lets a message through exactly if request and action are complete and the action can still be sent;
      whatever it is called with, the channel answers the key with one message only. */
  lemma GatewayOutcome(w: World, r: SendRequest, a: Action)
    ensures var (w', receipt) := Deliver(w, r, a);
            var m, k := Message(r.action, a.channel, a.contact, r.body), EffectKey(r.action);
            if r.action != "" && r.body != "" && a.status in {Ready, Sending} && Complete(a) && a.channel == "max"
               && (k in w.sent ==> w.sent[k].fingerprint == m) then
              if k in w.sent then w' == w && receipt == Some(w.sent[k].id)
              else receipt == Some(ReceiptId(k))
                   && w' == w.(sent := w.sent[k := Receipt(m, ReceiptId(k))], effects := w.effects + [m])
            else w' == w && receipt.None?
  {
    hide EffectKey, ReceiptId;
  }

  /** An event is appended once; the same again is accepted, another one under its id is not. */
  lemma AppendOutcome(outbox: map<EventKey, Event>, key: EventKey, e: Event)
    ensures AppendEvent(outbox, key, e) == if key !in outbox || outbox[key] == e then Commit(outbox[key := e], ())
                                           else Raise(EventCollision)
  {}

  // ----- errors -----

  /** Why a call is not admitted, whatever the tables say: scope and policy come before the key, the key before the
      action. */
  lemma AdmissionErrors(db: Db, actor: string, allowed: bool, r: SendRequest, worker: WorkerId, now: Time)
    ensures var tx := AdmitTx(db, actor, allowed, r, worker, now);
            var owned := r.action in db.actions && db.actions[r.action].owner == actor;
            var open := owned && allowed && Fits(db, r);
            var kept := r.key in db.records;
            && (tx == Raise(UnknownAction) <==> r.action !in db.actions)
            && (tx == Raise(OutOfScope) <==> r.action in db.actions && !owned)
            && (tx == Raise(PolicyDenied) <==> owned && !allowed)
            && (tx == Raise(RecordError(HashConflict)) <==> owned && allowed && !Fits(db, r))
            && (tx == Raise(ReplayNotSent) <==>
                  open && kept && db.records[r.key].ref.Done? && db.actions[r.action].status != Sent)
            && (tx == Raise(ReservedForOther) <==>
                  open && kept && db.records[r.key].ref.Pending? && db.records[r.key].ref.token != r.action)
            && (open && (!kept || db.records[r.key].ref == Pending(r.action)) ==>
                  var row := db.actions[r.action];
                  && (tx == Raise(NotAvailable) <==> row.status !in {Ready, Sending})
                  && (tx == Raise(NotValid) <==> row.status in {Ready, Sending} && !Complete(row))
                  && (tx == Raise(InProgress) <==> row.status == Sending && Complete(row) && !Waits(row, now)))
  {}

  /** Why a completion is rolled back. */
  lemma CompletionErrors(db: Db, r: SendRequest, worker: WorkerId, receipt: string, now: Time)
    ensures var tx := FinishTx(db, r, worker, receipt, now);
            && (tx == Raise(RecordError(NoReservation)) <==> r.key !in db.records)
            && (tx == Raise(RecordError(HashConflict)) <==> r.key in db.records && db.records[r.key].hash != r)
            && (r.key in db.records && db.records[r.key].hash == r ==>
                  && (tx == Raise(UnknownAction) <==> r.action !in db.actions)
                  && (r.action in db.actions ==>
                        var row := db.actions[r.action];
                        var live := row.lease.Some? && row.lease.value.worker == worker && now < row.lease.value.until;
                        && (tx == Raise(ResultDiffers) <==>
                              row.status == Sent && db.records[r.key].ref.Done?
                              && db.records[r.key].ref.result != receipt)
                        && (tx == Raise(NotWaiting) <==> row.status !in {Sent, Sending})
                        && (tx == Raise(LeaseLost) <==> row.status == Sending && !live)))
  {}
}
