/** The external send of a commercial action: reserve and claim in one transaction, call the channel
    adapter outside any transaction, complete or quarantine in a second transaction.

    `Step` interleaves any number of `execute` calls, one transaction or adapter call at a time;
    a crash drops a call between two of its steps. */
module Send {
  import opened Common
  import opened Idempotency
  import opened SendKeys

  type Key = string
  type ActionId = string
  /** A fresh UUID per `execute` call. */
  type WorkerId = nat
  type Time = int

  const LEASE_SECONDS: int := 300

  datatype Status = Draft | Ready | Sending | Sent | Failed | Closed | Cancelled
  datatype Lease = Lease(worker: WorkerId, until: Time)
  datatype Action = Action(
    owner: string, identity: string, contact: string, channel: string, evidence: nat,
    status: Status, attempt: nat, lease: Option<Lease>)

  /** The request hash, taken as the request itself (see `SendKeys.HashDeterminesRequest`). */
  datatype SendRequest = SendRequest(action: ActionId, key: Key, body: string)

  datatype EventKey =
    | SentKey(action: ActionId, receipt: string)
    | UnknownKey(request: SendRequest, worker: WorkerId)
  datatype Event =
    | SentEvent(identity: string, channel: string, at: Time)
    | UnknownEvent(channel: string, stale: bool, status: Status, holder: Option<Lease>, at: Time)
  datatype Quarantine = Quarantine(request: SendRequest, stale: bool, attempt: nat, worker: WorkerId, status: Status)

  datatype Db = Db(
    records: map<Key, Record<SendRequest, ActionId, string>>,
    actions: map<ActionId, Action>,
    outbox: map<EventKey, Event>,
    quarantine: seq<Quarantine>)

  datatype SendError =
    | UnknownAction | OutOfScope | PolicyDenied | RecordError(e: IdempotencyError) | ReplayNotSent
    | ReservedForOther | NotAvailable | NotValid | InProgress | ResultDiffers | NotWaiting | LeaseLost
    | EventCollision

  datatype Admission = Replay(receipt: string) | Claimed(action: Action)

  predicate ValidForSend(a: Action) {
    a.identity != "" && a.contact != "" && a.channel != "" && a.evidence > 0
  }

  predicate Holds(a: Action, worker: WorkerId, now: Time) {
    a.status == Sending && a.lease.Some? && a.lease.value.worker == worker && now < a.lease.value.until
  }

  /** Reservation and claim: the first transaction of `execute`. */
  function AdmitTx(db: Db, actor: string, allowed: bool, r: SendRequest, worker: WorkerId, now: Time)
    : Tx<Db, Admission, SendError> {
    if r.action !in db.actions then Raise(UnknownAction)
    else
      var a := db.actions[r.action];
      if a.owner != actor then Raise(OutOfScope)
      else if !allowed then Raise(PolicyDenied)
      else if r.key in db.records && db.records[r.key].hash != r then Raise(RecordError(HashConflict))
      else if r.key in db.records && db.records[r.key].ref.Done? then
        if a.status == Sent then Commit(db, Replay(db.records[r.key].ref.result)) else Raise(ReplayNotSent)
      else if r.key in db.records && db.records[r.key].ref != Pending(r.action) then Raise(ReservedForOther)
      else if a.status != Ready && a.status != Sending then Raise(NotAvailable)
      else if !ValidForSend(a) then Raise(NotValid)
      else if a.status == Sending && !(a.lease.Some? && a.lease.value.until <= now) then Raise(InProgress)
      else
        var claimed := a.(status := Sending, attempt := a.attempt + 1,
                          lease := Some(Lease(worker, now + LEASE_SECONDS)));
        Commit(db.(records := db.records[r.key := Record(r, Pending(r.action))],
                   actions := db.actions[r.action := claimed]),
               Claimed(claimed))
  }

  function AppendEvent(outbox: map<EventKey, Event>, key: EventKey, e: Event): Tx<map<EventKey, Event>, (), SendError> {
    if key in outbox && outbox[key] != e then Raise(EventCollision) else Commit(outbox[key := e], ())
  }

  /** Completion: the second transaction of `execute`, once the adapter has answered `receipt`. */
  function FinishTx(db: Db, r: SendRequest, worker: WorkerId, receipt: string, now: Time): Tx<Db, string, SendError> {
    var done := CompleteTx(db.records, r.key, r, Done(receipt));
    if done.Raise? then Raise(RecordError(done.error))
    else if r.action !in db.actions then Raise(UnknownAction)
    else
      var a := db.actions[r.action];
      var stored := done.answer.ref.result;
      if a.status == Sent then
        if stored == receipt then Commit(db.(records := done.db), stored) else Raise(ResultDiffers)
      else if a.status != Sending then Raise(NotWaiting)
      else if !Holds(a, worker, now) then Raise(LeaseLost)
      else
        var appended := AppendEvent(db.outbox, SentKey(r.action, stored), SentEvent(a.identity, a.channel, now));
        if appended.Raise? then Raise(appended.error)
        else Commit(db.(records := done.db, actions := db.actions[r.action := a.(status := Sent, lease := None)],
                        outbox := appended.db), receipt)
  }

  /** The quarantine transaction, after the adapter reported an unknown outcome. */
  function QuarantineTx(db: Db, r: SendRequest, worker: WorkerId, now: Time): Tx<Db, bool, SendError> {
    if r.action !in db.actions then Raise(UnknownAction)
    else
      var a := db.actions[r.action];
      var stale := !Holds(a, worker, now);
      var current := if stale then a else a.(status := Failed, lease := None);
      var appended := AppendEvent(db.outbox, UnknownKey(r, worker),
                                  UnknownEvent(current.channel, stale, current.status, current.lease, now));
      if appended.Raise? then Raise(appended.error)
      else Commit(db.(actions := db.actions[r.action := current], outbox := appended.db,
                      quarantine := db.quarantine + [Quarantine(r, stale, current.attempt, worker, current.status)]),
                  stale)
  }

  // ----- the channel adapter -----

  datatype Message = Message(action: ActionId, channel: string, contact: string, body: string)
  datatype Receipt = Receipt(fingerprint: Message, id: string)
  datatype AdapterError = WrongChannel | KeyReused

  const CHANNEL: string := "max"

  /** The adapter's own deduplication; the fingerprint hash is taken as the message itself. */
  function DeliverTx(sent: map<string, Receipt>, m: Message, key: string)
    : Tx<map<string, Receipt>, string, AdapterError> {
    if m.channel != CHANNEL then Raise(WrongChannel)
    else if key in sent then
      if sent[key].fingerprint != m then Raise(KeyReused) else Commit(sent, sent[key].id)
    else Commit(sent[key := Receipt(m, ReceiptId(key))], ReceiptId(key))
  }

  function MessageOf(r: SendRequest, a: Action): Message { Message(r.action, a.channel, a.contact, r.body) }

  /** What the gateway lets through before it reaches the adapter. */
  predicate GatewayAccepts(r: SendRequest, a: Action) {
    r.action != "" && r.body != "" && (a.status == Ready || a.status == Sending) && ValidForSend(a)
  }

  // ----- interleavings -----

  datatype Phase =
    | Calling(request: SendRequest, action: Action)
    | Answered(request: SendRequest, receipt: string)
    | OutcomeUnknown(request: SendRequest)

  /** A call of `execute`: who asks, and whether role and policy allow it. */
  datatype Ask = Ask(actor: string, allowed: bool, request: SendRequest)

  /** `effects` and `asked` are history: the messages that really left, in order, and the calls made,
      admitted or not. `answers` holds the results `execute` has returned to its callers. */
  datatype World = World(
    db: Db, sent: map<string, Receipt>, calls: map<WorkerId, Phase>, used: set<WorkerId>,
    effects: seq<Message>, answers: set<(SendRequest, string)>, asked: set<Ask>)

  datatype Op =
    | AddAction(id: ActionId, action: Action)
    | Begin(actor: string, allowed: bool, request: SendRequest, worker: WorkerId, now: Time)
    | CallAdapter(worker: WorkerId)
    | LoseOutcome(worker: WorkerId, delivered: bool)
    | Finish(worker: WorkerId, now: Time)
    | QuarantineUnknown(worker: WorkerId, now: Time)
    | Crash(worker: WorkerId)

  function Deliver(w: World, r: SendRequest, a: Action): (World, Option<string>) {
    var tx := DeliverTx(w.sent, MessageOf(r, a), EffectKey(r.action));
    if !GatewayAccepts(r, a) || tx.Raise? then (w, None)
    else if EffectKey(r.action) in w.sent then (w, Some(tx.answer))
    else (w.(sent := tx.db, effects := w.effects + [MessageOf(r, a)]), Some(tx.answer))
  }

  function Drop(w: World, worker: WorkerId): World { w.(calls := w.calls - {worker}) }

  function StepBegin(w: World, op: Op): World
    requires op.Begin?
  {
    if op.worker in w.used then w
    else
      var w' := w.(asked := w.asked + {Ask(op.actor, op.allowed, op.request)});
      var tx := AdmitTx(w.db, op.actor, op.allowed, op.request, op.worker, op.now);
      if tx.Raise? then w'
      else if tx.answer.Replay? then w'.(answers := w.answers + {(op.request, tx.answer.receipt)})
      else w'.(db := tx.db, used := w.used + {op.worker},
               calls := w.calls[op.worker := Calling(op.request, tx.answer.action)])
  }

  function StepCall(w: World, worker: WorkerId): World {
    if worker !in w.calls || !w.calls[worker].Calling? then w
    else
      var Calling(r, a) := w.calls[worker];
      var (w', receipt) := Deliver(w, r, a);
      if receipt.None? then Drop(w, worker)
      else w'.(calls := w'.calls[worker := Answered(r, receipt.value)])
  }

  function StepLose(w: World, worker: WorkerId, delivered: bool): World {
    if worker !in w.calls || !w.calls[worker].Calling? then w
    else if !GatewayAccepts(w.calls[worker].request, w.calls[worker].action) then Drop(w, worker)
    else
      var Calling(r, a) := w.calls[worker];
      var w' := if delivered then Deliver(w, r, a).0 else w;
      w'.(calls := w'.calls[worker := OutcomeUnknown(r)])
  }

  function StepFinish(w: World, worker: WorkerId, now: Time): World {
    if worker !in w.calls || !w.calls[worker].Answered? then w
    else
      var Answered(r, receipt) := w.calls[worker];
      var tx := FinishTx(w.db, r, worker, receipt, now);
      if tx.Raise? then Drop(w, worker)
      else Drop(w.(db := tx.db, answers := w.answers + {(r, tx.answer)}), worker)
  }

  function StepQuarantine(w: World, worker: WorkerId, now: Time): World {
    if worker !in w.calls || !w.calls[worker].OutcomeUnknown? then w
    else
      var tx := QuarantineTx(w.db, w.calls[worker].request, worker, now);
      if tx.Raise? then Drop(w, worker) else Drop(w.(db := tx.db), worker)
  }

  /** New actions arrive drafted or ready; no other workflow step is part of this protocol. */
  function StepAdd(w: World, id: ActionId, a: Action): World {
    if id in w.db.actions || a.lease.Some? || (a.status != Draft && a.status != Ready) then w
    else w.(db := w.db.(actions := w.db.actions[id := a]))
  }

  function Step(w: World, op: Op): World {
    match op
    case AddAction(id, a) => StepAdd(w, id, a)
    case Begin(_, _, _, _, _) => StepBegin(w, op)
    case CallAdapter(worker) => StepCall(w, worker)
    case LoseOutcome(worker, delivered) => StepLose(w, worker, delivered)
    case Finish(worker, now) => StepFinish(w, worker, now)
    case QuarantineUnknown(worker, now) => StepQuarantine(w, worker, now)
    case Crash(worker) => Drop(w, worker)
  }

  const Empty: World := World(Db(map[], map[], map[], []), map[], map[], {}, [], {}, {})

  function Run(w: World, ops: seq<Op>): World
    decreases |ops|
  {
    if ops == [] then w else Run(Step(w, ops[0]), ops[1..])
  }

  // ----- invariant -----

  /** The message of request `r` has left and its receipt is on file. */
  ghost predicate Delivered(w: World, r: SendRequest) {
    var k := EffectKey(r.action);
    k in w.sent && w.sent[k].fingerprint.action == r.action && w.sent[k].fingerprint.body == r.body
  }

  ghost predicate IsSent(w: World, a: ActionId) { a in w.db.actions && w.db.actions[a].status == Sent }

  ghost predicate RecordsOk(w: World) {
    forall k | k in w.db.records :: RecordOk(w, k, w.db.records[k])
  }

  ghost predicate RecordOk(w: World, k: Key, rec: Record<SendRequest, ActionId, string>) {
    && rec.hash.key == k && rec.hash.action in w.db.actions
    && (match rec.ref
        case Pending(a) => a == rec.hash.action
        case Done(id) =>
            id == ReceiptId(EffectKey(rec.hash.action)) && IsSent(w, rec.hash.action)
            && Delivered(w, rec.hash))
  }

  ghost predicate ReceiptsOk(w: World) {
    && (forall k | k in w.sent ::
          && k == EffectKey(w.sent[k].fingerprint.action) && w.sent[k].id == ReceiptId(k)
          && w.sent[k].fingerprint in w.effects)
    && (forall i | 0 <= i < |w.effects| ::
          && EffectKey(w.effects[i].action) in w.sent
          && w.sent[EffectKey(w.effects[i].action)].fingerprint == w.effects[i])
    && (forall i, j | 0 <= i < j < |w.effects| :: w.effects[i].action != w.effects[j].action)
  }

  ghost predicate ActionsOk(w: World) {
    forall a | a in w.db.actions ::
      && (w.db.actions[a].status == Sending <==> w.db.actions[a].lease.Some?)
      && (w.db.actions[a].status == Sending ==> w.db.actions[a].lease.value.worker in w.used)
      && (IsSent(w, a) ==> SentKey(a, ReceiptId(EffectKey(a))) in w.db.outbox && EffectKey(a) in w.sent)
  }

  ghost predicate OutboxOk(w: World) {
    forall k | k in w.db.outbox ::
      match k
      case SentKey(a, id) => IsSent(w, a) && id == ReceiptId(EffectKey(a))
      case UnknownKey(r, worker) => worker in w.used && worker !in w.calls
  }

  ghost predicate CallsOk(w: World) {
    forall n | n in w.calls :: n in w.used && CallOk(w, w.calls[n])
  }

  ghost predicate CallOk(w: World, p: Phase) {
    && p.request.action in w.db.actions
    && p.request.key in w.db.records && w.db.records[p.request.key].hash == p.request
    && (p.Calling? ==> p.action.status == Sending)
    && (p.Answered? ==> p.receipt == ReceiptId(EffectKey(p.request.action)) && Delivered(w, p.request))
  }

  ghost predicate AnswersOk(w: World) { forall x | x in w.answers :: AnswerOk(w, x.0, x.1) }

  ghost predicate AnswerOk(w: World, r: SendRequest, receipt: string) {
    receipt == ReceiptId(EffectKey(r.action)) && IsSent(w, r.action) && Delivered(w, r)
  }

  /** What callers and the table have been promised. */
  ghost predicate PromisesOk(w: World) { RecordsOk(w) && CallsOk(w) && AnswersOk(w) }

  /** What the action rows and the outbox say about each other. */
  ghost predicate RowsOk(w: World) { ActionsOk(w) && OutboxOk(w) }

  ghost predicate Inv(w: World) { PromisesOk(w) && RowsOk(w) && ReceiptsOk(w) }

  /** Everything a promise rests on only grows. */
  ghost predicate Grows(w: World, w': World) {
    && (forall a | a in w.db.actions ::
          a in w'.db.actions
          && (w.db.actions[a].status == Sent ==> w'.db.actions[a].status == Sent))
    && (forall k | k in w.sent :: k in w'.sent && w'.sent[k] == w.sent[k])
    && (forall k | k in w.db.records :: k in w'.db.records && w'.db.records[k].hash == w.db.records[k].hash)
  }

  lemma GrowthKeepsRecords(w: World, w': World)
    requires RecordsOk(w) && Grows(w, w')
    ensures forall k | k in w.db.records :: RecordOk(w', k, w.db.records[k])
  {}

  lemma GrowthKeepsCalls(w: World, w': World)
    requires CallsOk(w) && Grows(w, w')
    ensures forall n | n in w.calls :: CallOk(w', w.calls[n])
  {}

  lemma GrowthKeepsCall(w: World, w': World, p: Phase)
    requires CallOk(w, p) && Grows(w, w')
    ensures CallOk(w', p)
  {}

  lemma GrowthKeepsAnswers(w: World, w': World)
    requires AnswersOk(w) && Grows(w, w')
    ensures forall x | x in w.answers :: AnswerOk(w', x.0, x.1)
  {}

  /** A first delivery adds one receipt and one effect, for an action that had neither. */
  lemma FirstDelivery(w: World, m: Message)
    requires ReceiptsOk(w) && EffectKey(m.action) !in w.sent
    ensures var k := EffectKey(m.action);
            ReceiptsOk(w.(sent := w.sent[k := Receipt(m, ReceiptId(k))], effects := w.effects + [m]))
  {
    forall b: ActionId ensures EffectKey(b) == EffectKey(m.action) ==> b == m.action {
      ReferencesAreDistinct(b, m.action);
    }
    hide EffectKey, ReceiptId;
    forall i | 0 <= i < |w.effects| ensures w.effects[i].action != m.action {
      assert EffectKey(w.effects[i].action) in w.sent;
    }
  }

  /** Delivering keeps the books: a receipt is written at most once per action. */
  lemma DeliverKeepsReceipts(w: World, r: SendRequest, a: Action)
    requires ReceiptsOk(w)
    ensures var (w', receipt) := Deliver(w, r, a);
            && ReceiptsOk(w') && Grows(w, w') && w' == w.(sent := w'.sent, effects := w'.effects)
            && (receipt.Some? ==> receipt.value == ReceiptId(EffectKey(r.action)) && Delivered(w', r))
  {
    if EffectKey(r.action) !in w.sent { FirstDelivery(w, MessageOf(r, a)); }
    hide EffectKey, ReceiptId, GatewayAccepts;
  }

  lemma DropKeepsInv(w: World, worker: WorkerId)
    requires Inv(w)
    ensures Inv(Drop(w, worker))
  {}

  lemma BeginGrows(w: World, op: Op)
    requires op.Begin?
    ensures Grows(w, StepBegin(w, op))
  {}

  lemma BeginKeepsRecords(w: World, op: Op)
    requires RecordsOk(w) && op.Begin?
    ensures RecordsOk(StepBegin(w, op))
  {
    hide EffectKey, ReceiptId;
    BeginGrows(w, op);
    GrowthKeepsRecords(w, StepBegin(w, op));
  }

  lemma BeginKeepsCalls(w: World, op: Op)
    requires PromisesOk(w) && op.Begin?
    ensures CallsOk(StepBegin(w, op)) && AnswersOk(StepBegin(w, op))
  {
    hide EffectKey, ReceiptId, Grows;
    BeginGrows(w, op);
    GrowthKeepsCalls(w, StepBegin(w, op));
    GrowthKeepsAnswers(w, StepBegin(w, op));
  }

  lemma BeginKeepsRows(w: World, op: Op)
    requires CallsOk(w) && RowsOk(w) && op.Begin?
    ensures RowsOk(StepBegin(w, op))
  {}

  lemma BeginKeepsInv(w: World, op: Op)
    requires Inv(w) && op.Begin?
    ensures Inv(StepBegin(w, op))
  {
    hide RecordsOk, CallsOk, AnswersOk, RowsOk, EffectKey, ReceiptId;
    BeginKeepsRecords(w, op);
    BeginKeepsCalls(w, op);
    BeginKeepsRows(w, op);
  }

  lemma DeliverKeepsInv(w: World, r: SendRequest, a: Action)
    requires Inv(w)
    ensures Inv(Deliver(w, r, a).0)
  {
    hide Grows, EffectKey, ReceiptId, Deliver;
    var w' := Deliver(w, r, a).0;
    DeliverKeepsReceipts(w, r, a);
    GrowthKeepsRecords(w, w');
    GrowthKeepsCalls(w, w');
    GrowthKeepsAnswers(w, w');
    DeliverKeepsRows(w, w');
  }

  lemma DeliverKeepsRows(w: World, w': World)
    requires RowsOk(w) && Grows(w, w') && w' == w.(sent := w'.sent, effects := w'.effects)
    ensures RowsOk(w')
  {}

  /** The call `worker` moves on to phase `p`, which keeps the promises a phase carries. */
  lemma PhaseKeepsInv(w: World, worker: WorkerId, p: Phase)
    requires Inv(w) && worker in w.calls && CallOk(w, p)
    ensures Inv(w.(calls := w.calls[worker := p]))
  {
    var w' := w.(calls := w.calls[worker := p]);
    assert Grows(w, w');
    hide Grows, RecordOk, CallOk, AnswerOk, ReceiptsOk, RowsOk;
    ReceiptsFrame(w, w');
    RowsFrame(w, w');
    GrowthKeepsRecords(w, w');
    GrowthKeepsCalls(w, w');
    GrowthKeepsAnswers(w, w');
    GrowthKeepsCall(w, w', p);
  }

  lemma RowsFrame(w: World, w': World)
    requires RowsOk(w) && w' == w.(calls := w'.calls) && w'.calls.Keys == w.calls.Keys
    ensures RowsOk(w')
  {}

  lemma ReceiptsFrame(w: World, w': World)
    requires ReceiptsOk(w) && w'.sent == w.sent && w'.effects == w.effects
    ensures ReceiptsOk(w')
  {}

  lemma CallKeepsInv(w: World, worker: WorkerId, delivered: bool)
    requires Inv(w) && worker in w.calls && w.calls[worker].Calling?
    ensures Inv(StepCall(w, worker)) && Inv(StepLose(w, worker, delivered))
  {
    hide Grows, EffectKey, ReceiptId, Deliver, ReceiptsOk, RowsOk;
    var Calling(r, a) := w.calls[worker];
    var (w', receipt) := Deliver(w, r, a);
    DeliverKeepsReceipts(w, r, a);
    DeliverKeepsInv(w, r, a);
    DropKeepsInv(w, worker);
    assert CallOk(w', OutcomeUnknown(r)) && CallOk(w, OutcomeUnknown(r));
    PhaseKeepsInv(w, worker, OutcomeUnknown(r));
    PhaseKeepsInv(w', worker, OutcomeUnknown(r));
    if receipt.Some? {
      PhaseKeepsInv(w', worker, Answered(r, receipt.value));
    }
  }

  lemma FinishGrows(w: World, worker: WorkerId, now: Time)
    ensures Grows(w, StepFinish(w, worker, now))
  {}

  lemma FinishKeepsRecords(w: World, worker: WorkerId, now: Time)
    requires RecordsOk(w) && CallsOk(w)
    ensures RecordsOk(StepFinish(w, worker, now))
  {
    hide EffectKey, ReceiptId;
    FinishGrows(w, worker, now);
    GrowthKeepsRecords(w, StepFinish(w, worker, now));
  }

  lemma FinishKeepsCalls(w: World, worker: WorkerId, now: Time)
    requires PromisesOk(w)
    ensures CallsOk(StepFinish(w, worker, now)) && AnswersOk(StepFinish(w, worker, now))
  {
    hide EffectKey, ReceiptId, Grows;
    FinishGrows(w, worker, now);
    GrowthKeepsCalls(w, StepFinish(w, worker, now));
    GrowthKeepsAnswers(w, StepFinish(w, worker, now));
  }

  lemma FinishKeepsRows(w: World, worker: WorkerId, now: Time)
    requires PromisesOk(w) && RowsOk(w)
    ensures RowsOk(StepFinish(w, worker, now))
  {
    hide EffectKey, ReceiptId;
  }

  lemma FinishKeepsInv(w: World, worker: WorkerId, now: Time)
    requires Inv(w)
    ensures Inv(StepFinish(w, worker, now))
  {
    hide RecordsOk, CallsOk, AnswersOk, RowsOk, EffectKey, ReceiptId;
    FinishKeepsRecords(w, worker, now);
    FinishKeepsCalls(w, worker, now);
    FinishKeepsRows(w, worker, now);
  }

  lemma QuarantineGrows(w: World, worker: WorkerId, now: Time)
    ensures Grows(w, StepQuarantine(w, worker, now))
  {}

  lemma QuarantineKeepsPromises(w: World, worker: WorkerId, now: Time)
    requires PromisesOk(w)
    ensures PromisesOk(StepQuarantine(w, worker, now))
  {
    hide EffectKey, ReceiptId, Grows, RecordOk, CallOk, AnswerOk;
    var w' := StepQuarantine(w, worker, now);
    QuarantineGrows(w, worker, now);
    GrowthKeepsRecords(w, w');
    GrowthKeepsCalls(w, w');
    GrowthKeepsAnswers(w, w');
  }

  lemma QuarantineKeepsRows(w: World, worker: WorkerId, now: Time)
    requires CallsOk(w) && RowsOk(w)
    ensures RowsOk(StepQuarantine(w, worker, now))
  {
    hide EffectKey, ReceiptId;
  }

  lemma QuarantineKeepsInv(w: World, worker: WorkerId, now: Time)
    requires Inv(w)
    ensures Inv(StepQuarantine(w, worker, now))
  {
    hide RecordsOk, CallsOk, AnswersOk, RowsOk, EffectKey, ReceiptId;
    QuarantineKeepsPromises(w, worker, now);
    QuarantineKeepsRows(w, worker, now);
  }

  lemma AddKeepsInv(w: World, id: ActionId, a: Action)
    requires Inv(w)
    ensures Inv(StepAdd(w, id, a))
  {
    hide EffectKey, ReceiptId, RecordOk, CallOk, AnswerOk, ReceiptsOk;
    var w' := StepAdd(w, id, a);
    ReceiptsFrame(w, w');
    GrowthKeepsRecords(w, w');
    GrowthKeepsCalls(w, w');
    GrowthKeepsAnswers(w, w');
  }

  lemma StepKeepsInv(w: World, op: Op)
    requires Inv(w)
    ensures Inv(Step(w, op))
  {
    hide Inv, StepAdd, StepBegin, StepFinish, StepQuarantine, Deliver;
    match op
    case AddAction(id, a) => AddKeepsInv(w, id, a);
    case Begin(_, _, _, _, _) => BeginKeepsInv(w, op);
    case CallAdapter(worker) =>
      if worker in w.calls && w.calls[worker].Calling? { CallKeepsInv(w, worker, false); }
    case LoseOutcome(worker, delivered) =>
      if worker in w.calls && w.calls[worker].Calling? { CallKeepsInv(w, worker, delivered); }
    case Finish(worker, now) => FinishKeepsInv(w, worker, now);
    case QuarantineUnknown(worker, now) => QuarantineKeepsInv(w, worker, now);
    case Crash(worker) => DropKeepsInv(w, worker);
  }

  lemma {:induction false} RunKeepsInv(w: World, ops: seq<Op>)
    requires Inv(w)
    ensures Inv(Run(w, ops))
    decreases |ops|
  {
    if ops != [] {
      StepKeepsInv(w, ops[0]);
      RunKeepsInv(Step(w, ops[0]), ops[1..]);
    }
  }

  lemma Reachable(ops: seq<Op>)
    ensures Inv(Run(Empty, ops))
  {
    RunKeepsInv(Empty, ops);
  }

  // ----- what the protocol promises -----

  /** Over every interleaving, an action leaves the platform at most once. */
  lemma AtMostOneEffect(ops: seq<Op>, i: nat, j: nat)
    requires i < |Run(Empty, ops).effects| && j < |Run(Empty, ops).effects|
    requires Run(Empty, ops).effects[i].action == Run(Empty, ops).effects[j].action
    ensures i == j
  {
    Reachable(ops);
  }

  /** A SENT action has left, with its receipt on file and exactly its own event in the outbox. */
  lemma SentMeansDelivered(ops: seq<Op>, a: ActionId)
    ensures var w := Run(Empty, ops);
            IsSent(w, a) ==>
              && EffectKey(a) in w.sent && w.sent[EffectKey(a)].fingerprint in w.effects
              && w.sent[EffectKey(a)].fingerprint.action == a
              && (forall id :: SentKey(a, id) in w.db.outbox <==> id == w.sent[EffectKey(a)].id)
    ensures var w := Run(Empty, ops);
            !IsSent(w, a) ==> forall id :: SentKey(a, id) !in w.db.outbox
  {
    Reachable(ops);
    var w := Run(Empty, ops);
    if IsSent(w, a) {
      var k := EffectKey(a);
      assert k in w.sent;
      ReferencesAreDistinct(a, w.sent[k].fingerprint.action);
    }
  }

  /** A completed idempotency record names the receipt of its own SENT action, and the body that
      left is the body of the request that reserved the key. */
  lemma CompletedRecordIsTrue(ops: seq<Op>, k: Key)
    requires k in Run(Empty, ops).db.records && Run(Empty, ops).db.records[k].ref.Done?
    ensures var w := Run(Empty, ops);
            var r := w.db.records[k].hash;
            && r.key == k && IsSent(w, r.action)
            && EffectKey(r.action) in w.sent && w.sent[EffectKey(r.action)].id == w.db.records[k].ref.result
            && exists m | m in w.effects :: m.action == r.action && m.body == r.body
  {
    Reachable(ops);
    var w := Run(Empty, ops);
    var r := w.db.records[k].hash;
    assert RecordOk(w, k, w.db.records[k]);
    assert w.sent[EffectKey(r.action)].fingerprint in w.effects;
  }

  /** Every result `execute` has ever returned: callers of one action all got the same receipt, and
      all of them had asked for the one body that left. */
  lemma AnswersAgree(ops: seq<Op>, r: SendRequest, x: string, r': SendRequest, x': string)
    requires (r, x) in Run(Empty, ops).answers && (r', x') in Run(Empty, ops).answers
    requires r.action == r'.action
    ensures x == x' && r.body == r'.body
    ensures exists m | m in Run(Empty, ops).effects :: m.action == r.action && m.body == r.body
  {
    Reachable(ops);
    var w := Run(Empty, ops);
    assert AnswerOk(w, r, x) && AnswerOk(w, r', x');
    assert w.sent[EffectKey(r.action)].fingerprint in w.effects;
  }

  /** SENT and FAILED are absorbing, whatever stale workers still do. */
  lemma {:induction false} TerminalIsAbsorbing(w: World, ops: seq<Op>, a: ActionId)
    requires a in w.db.actions && (w.db.actions[a].status == Sent || w.db.actions[a].status == Failed)
    ensures a in Run(w, ops).db.actions && Run(w, ops).db.actions[a] == w.db.actions[a]
    decreases |ops|
  {
    if ops != [] {
      TerminalStep(w, ops[0], a);
      TerminalIsAbsorbing(Step(w, ops[0]), ops[1..], a);
    }
  }

  lemma TerminalStep(w: World, op: Op, a: ActionId)
    requires a in w.db.actions && (w.db.actions[a].status == Sent || w.db.actions[a].status == Failed)
    ensures a in Step(w, op).db.actions && Step(w, op).db.actions[a] == w.db.actions[a]
  {
    hide EffectKey, ReceiptId, DeliverTx, GatewayAccepts;
  }

  /** The completion of `worker`: answered and recorded if its action is SENT already; that and the row and its
      event if the worker's lease is still live; and otherwise nothing. */
  ghost predicate IsCompleted(w: World, w': World, worker: WorkerId, r: SendRequest, receipt: string, now: Time)
    requires r.action in w.db.actions
  {
    var row := w.db.actions[r.action];
    var ended := w.(calls := w.calls - {worker});
    var recorded := w.db.(records := w.db.records[r.key := Record(r, Done(receipt))]);
    var answered := ended.(db := recorded, answers := w.answers + {(r, receipt)});
    if row.status == Sent then w' == answered
    else if row.status == Sending && row.lease.Some? && row.lease.value.worker == worker
            && now < row.lease.value.until then
      w' == answered.(db := recorded.(
        actions := w.db.actions[r.action := row.(status := Sent, lease := None)],
        outbox := w.db.outbox[SentKey(r.action, receipt) := SentEvent(row.identity, row.channel, now)]))
    else w' == ended
  }

  lemma FinishOutcome(w: World, worker: WorkerId, now: Time)
    requires worker in w.calls && w.calls[worker].Answered?
    requires var Answered(r, receipt) := w.calls[worker];
             && r.action in w.db.actions && r.key in w.db.records && w.db.records[r.key].hash == r
             && (w.db.records[r.key].ref.Done? ==> w.db.records[r.key].ref.result == receipt && IsSent(w, r.action))
             && (IsSent(w, r.action) || SentKey(r.action, receipt) !in w.db.outbox)
    ensures var Answered(r, receipt) := w.calls[worker];
            var w' := StepFinish(w, worker, now);
            IsCompleted(w, w', worker, r, receipt, now)
  {}

  /** A worker whose adapter call was accepted completes exactly when the action is already SENT or
      it still holds the lease; otherwise its whole transaction is rolled back. */
  lemma CompletionOutcome(ops: seq<Op>, worker: WorkerId, now: Time)
    requires worker in Run(Empty, ops).calls && Run(Empty, ops).calls[worker].Answered?
    ensures var w := Run(Empty, ops);
            var Answered(r, receipt) := w.calls[worker];
            var w' := Step(w, Finish(worker, now));
            r.action in w.db.actions && IsCompleted(w, w', worker, r, receipt, now)
  {
    Reachable(ops);
    var w := Run(Empty, ops);
    var Answered(r, receipt) := w.calls[worker];
    hide EffectKey, ReceiptId, Run;
    assert CallOk(w, w.calls[worker]);
    assert RecordOk(w, r.key, w.db.records[r.key]);
    assert IsSent(w, r.action) || SentKey(r.action, receipt) !in w.db.outbox;
    hide Inv, CallOk, StepFinish;
    FinishOutcome(w, worker, now);
  }

  /** While a lease is live, nobody but its holder can move the action. */
  lemma LeaseExcludes(w: World, op: Op, a: ActionId)
    requires a in w.db.actions && w.db.actions[a].status == Sending && w.db.actions[a].lease.Some?
    requires match op
             case Begin(_, _, _, _, now) => now < w.db.actions[a].lease.value.until
             case Finish(n, _) => n != w.db.actions[a].lease.value.worker
             case QuarantineUnknown(n, _) => n != w.db.actions[a].lease.value.worker
             case _ => true
    ensures Step(w, op).db.actions[a] == w.db.actions[a]
    ensures op.Begin? && op.request.action == a ==> Step(w, op).calls == w.calls && Step(w, op).db == w.db
  {
    hide EffectKey, ReceiptId, DeliverTx, GatewayAccepts;
  }

  /** How the adapter answers: with a result, or with an unknown outcome after the message has left or not. */
  datatype AdapterOutcome = Replies | Loses(delivered: bool)

  /** Begin, adapter call, and completion or quarantine of one `execute` with nobody in between. */
  function Execute(w: World, actor: string, r: SendRequest, worker: WorkerId, outcome: AdapterOutcome, now: Time,
                   later: Time): World {
    var begun := Step(w, Begin(actor, true, r, worker, now));
    match outcome
    case Replies => Step(Step(begun, CallAdapter(worker)), Finish(worker, later))
    case Loses(delivered) => Step(Step(begun, LoseOutcome(worker, delivered)), QuarantineUnknown(worker, later))
  }

  lemma DeliverWrites(w: World, r: SendRequest, a: Action)
    ensures var (w', receipt) := Deliver(w, r, a);
            var tx := DeliverTx(w.sent, MessageOf(r, a), EffectKey(r.action));
            && w' == w.(sent := w'.sent, effects := w'.effects)
            && w'.sent == (if GatewayAccepts(r, a) && tx.Commit? then tx.db else w.sent)
            && receipt == if GatewayAccepts(r, a) && tx.Commit? then Some(tx.answer) else None
  {
    hide EffectKey, ReceiptId, GatewayAccepts;
  }

  lemma NothingBegun(w: World, worker: WorkerId, outcome: AdapterOutcome, later: Time)
    ensures worker !in w.calls ==>
              match outcome
              case Replies => Step(Step(w, CallAdapter(worker)), Finish(worker, later)) == w
              case Loses(delivered) => Step(Step(w, LoseOutcome(worker, delivered)),
                                            QuarantineUnknown(worker, later)) == w
  {}

  /** What the steps after the claim come to. */
  lemma AfterBegin(w: World, worker: WorkerId, outcome: AdapterOutcome, later: Time)
    requires worker in w.calls && w.calls[worker].Calling?
    ensures var Calling(r, a) := w.calls[worker];
            var delivery := DeliverTx(w.sent, MessageOf(r, a), EffectKey(r.action));
            var w' := match outcome
                      case Replies => Step(Step(w, CallAdapter(worker)), Finish(worker, later))
                      case Loses(delivered) => Step(Step(w, LoseOutcome(worker, delivered)),
                                                    QuarantineUnknown(worker, later));
            if !GatewayAccepts(r, a) then w' == Drop(w, worker)
            else if outcome.Loses? then
              var tx := QuarantineTx(w.db, r, worker, later);
              && w'.db == (if tx.Commit? then tx.db else w.db) && w'.answers == w.answers
              && w'.sent == if outcome.delivered && delivery.Commit? then delivery.db else w.sent
            else if delivery.Raise? then w' == Drop(w, worker)
            else
              var tx := FinishTx(w.db, r, worker, delivery.answer, later);
              && w'.sent == delivery.db && w'.db == (if tx.Commit? then tx.db else w.db)
              && w'.answers == if tx.Commit? then w.answers + {(r, tx.answer)} else w.answers
  {
    DeliverWrites(w, w.calls[worker].request, w.calls[worker].action);
    hide Deliver, DeliverTx, GatewayAccepts, EffectKey, ReceiptId, FinishTx, QuarantineTx;
  }

  /** The request can be sent now: its action is claimable and its key free or reserved by itself. */
  predicate Sendable(w: World, r: SendRequest, worker: WorkerId, now: Time) {
    && worker !in w.used && r.action in w.db.actions && r.action != "" && r.body != ""
    && (r.key in w.db.records ==> w.db.records[r.key] == Record(r, Pending(r.action)))
    && (var a := w.db.actions[r.action];
        && ValidForSend(a) && a.channel == CHANNEL
        && (a.status == Ready || (a.status == Sending && a.lease.Some? && a.lease.value.until <= now)))
  }

  lemma BeginClaims(w: World, r: SendRequest, worker: WorkerId, now: Time)
    requires Sendable(w, r, worker, now)
    ensures var a := w.db.actions[r.action].(status := Sending, attempt := w.db.actions[r.action].attempt + 1,
                                             lease := Some(Lease(worker, now + LEASE_SECONDS)));
            Step(w, Begin(a.owner, true, r, worker, now)) ==
            w.(db := w.db.(records := w.db.records[r.key := Record(r, Pending(r.action))],
                           actions := w.db.actions[r.action := a]),
               used := w.used + {worker}, calls := w.calls[worker := Calling(r, a)],
               asked := w.asked + {Ask(a.owner, true, r)})
  {}

  lemma FinishSends(w: World, worker: WorkerId, now: Time)
    requires worker in w.calls && w.calls[worker].Answered?
    requires var r := w.calls[worker].request;
             && r.key in w.db.records && w.db.records[r.key] == Record(r, Pending(r.action))
             && r.action in w.db.actions && Holds(w.db.actions[r.action], worker, now)
             && SentKey(r.action, w.calls[worker].receipt) !in w.db.outbox
    ensures var w', Answered(r, receipt) := Step(w, Finish(worker, now)), w.calls[worker];
            IsSent(w', r.action) && w'.answers == w.answers + {(r, receipt)} && w'.effects == w.effects
  {}

  lemma CallDelivers(w: World, worker: WorkerId)
    requires worker in w.calls && w.calls[worker].Calling?
    requires var Calling(r, a) := w.calls[worker];
             && GatewayAccepts(r, a) && a.channel == CHANNEL
             && (EffectKey(r.action) in w.sent ==>
                   w.sent[EffectKey(r.action)] == Receipt(MessageOf(r, a), ReceiptId(EffectKey(r.action))))
    ensures var Calling(r, a) := w.calls[worker];
            var w' := Step(w, CallAdapter(worker));
            && w'.db == w.db && w'.answers == w.answers
            && w'.calls == w.calls[worker := Answered(r, ReceiptId(EffectKey(r.action)))]
            && w'.effects == if EffectKey(r.action) in w.sent then w.effects else w.effects + [MessageOf(r, a)]
  {
    hide EffectKey, ReceiptId;
  }

  /** An undisturbed call sends: to SENT, with one answer, and with one new effect unless this very
      message had already left under an earlier call. */
  lemma UndisturbedSend(w: World, r: SendRequest, worker: WorkerId, now: Time, later: Time)
    requires Inv(w) && Sendable(w, r, worker, now) && later < now + LEASE_SECONDS
    requires EffectKey(r.action) in w.sent ==>
               w.sent[EffectKey(r.action)].fingerprint
               == Message(r.action, CHANNEL, w.db.actions[r.action].contact, r.body)
    ensures var a := w.db.actions[r.action];
            var w' := Execute(w, a.owner, r, worker, Replies, now, later);
            && IsSent(w', r.action) && w'.answers == w.answers + {(r, ReceiptId(EffectKey(r.action)))}
            && w'.effects == if EffectKey(r.action) in w.sent then w.effects
                             else w.effects + [Message(r.action, CHANNEL, a.contact, r.body)]
  {
    var a := w.db.actions[r.action];
    assert SentKey(r.action, ReceiptId(EffectKey(r.action))) !in w.db.outbox by { ReadyHasNoEvent(w, r.action); }
    assert EffectKey(r.action) in w.sent ==> w.sent[EffectKey(r.action)].id == ReceiptId(EffectKey(r.action));
    hide Inv, EffectKey, ReceiptId, AdmitTx, FinishTx, IsSent, StepCall, StepFinish;
    var w1 := Step(w, Begin(a.owner, true, r, worker, now));
    BeginClaims(w, r, worker, now);
    var w2 := Step(w1, CallAdapter(worker));
    CallDelivers(w1, worker);
    FinishSends(w2, worker, later);
  }

  /** A worker that dies after the adapter accepted its message is recovered from: once its lease has
      run out, the same request completes, and still only one message has left. */
  lemma CrashRecovery(w: World, r: SendRequest, first: WorkerId, second: WorkerId, t0: Time, t1: Time, t2: Time)
    requires Inv(w) && Sendable(w, r, first, t0) && EffectKey(r.action) !in w.sent
    requires second !in w.used && second != first
    requires t0 + LEASE_SECONDS <= t1 && t2 < t1 + LEASE_SECONDS
    ensures var a := w.db.actions[r.action];
            var crashed := Step(Step(Step(w, Begin(a.owner, true, r, first, t0)), CallAdapter(first)), Crash(first));
            var w' := Execute(crashed, a.owner, r, second, Replies, t1, t2);
            && !IsSent(crashed, r.action)
            && crashed.effects == w.effects + [Message(r.action, CHANNEL, a.contact, r.body)]
            && IsSent(w', r.action) && w'.effects == crashed.effects
            && w'.answers == w.answers + {(r, ReceiptId(EffectKey(r.action)))}
  {
    hide EffectKey, ReceiptId, Inv, Execute, AdmitTx;
    var a := w.db.actions[r.action];
    var w1 := Step(w, Begin(a.owner, true, r, first, t0));
    BeginClaims(w, r, first, t0);
    StepKeepsInv(w, Begin(a.owner, true, r, first, t0));
    assert w1.calls[first] == Calling(r, w1.db.actions[r.action]) && w1.sent == w.sent;
    var w2 := Step(w1, CallAdapter(first));
    StepKeepsInv(w1, CallAdapter(first));
    assert w2.db == w1.db && w2.effects == w.effects + [MessageOf(r, a)];
    var crashed := Step(w2, Crash(first));
    StepKeepsInv(w2, Crash(first));
    UndisturbedSend(crashed, r, second, t1, t2);
  }

  lemma ReadyHasNoEvent(w: World, a: ActionId)
    requires Inv(w) && !IsSent(w, a)
    ensures forall id :: SentKey(a, id) !in w.db.outbox
  {}

  // ----- quarantine -----

  /** A quarantine entry that the lease holder has made. */
  predicate Own(q: Quarantine, a: ActionId) { q.request.action == a && !q.stale }

  ghost predicate Quarantined(db: Db, a: ActionId) { exists i :: 0 <= i < |db.quarantine| && Own(db.quarantine[i], a) }

  predicate HasUnknownEvent(db: Db, q: Quarantine) {
    var key := UnknownKey(q.request, q.worker);
    && key in db.outbox && db.outbox[key].UnknownEvent?
    && db.outbox[key].stale == q.stale && db.outbox[key].status == q.status
  }

  /** FAILED is entered by a quarantine of the lease holder, and by nothing else. */
  ghost predicate QuarantineOk(db: Db) {
    && (forall a | a in db.actions :: db.actions[a].status == Failed <==> Quarantined(db, a))
    && (forall i | 0 <= i < |db.quarantine| ::
          db.quarantine[i].request.action in db.actions && HasUnknownEvent(db, db.quarantine[i])
          && (!db.quarantine[i].stale ==> db.quarantine[i].status == Failed))
    && (forall i, j | 0 <= i < j < |db.quarantine| && !db.quarantine[i].stale && !db.quarantine[j].stale ::
          db.quarantine[i].request.action != db.quarantine[j].request.action)
  }

  /** Nothing is quarantined, FAILED stays where it is, and events stay. */
  ghost predicate LeavesQuarantine(db: Db, db': Db) {
    && db'.quarantine == db.quarantine
    && (forall a | a in db.actions ::
          a in db'.actions
          && (db'.actions[a].status == Failed <==> db.actions[a].status == Failed))
    && (forall a | a in db'.actions && a !in db.actions :: db'.actions[a].status != Failed)
    && (forall k | k in db.outbox :: k in db'.outbox && db'.outbox[k] == db.outbox[k])
  }

  lemma OthersLeaveQuarantine(w: World, op: Op)
    requires !op.QuarantineUnknown?
    ensures LeavesQuarantine(w.db, Step(w, op).db)
  {
    hide StepBegin, StepFinish, Deliver;
    match op
    case Begin(_, _, _, _, _) => BeginLeavesQuarantine(w, op);
    case Finish(worker, now) => FinishLeavesQuarantine(w, worker, now);
    case CallAdapter(worker) =>
      if worker in w.calls && w.calls[worker].Calling? {
        DeliverWrites(w, w.calls[worker].request, w.calls[worker].action);
      }
    case LoseOutcome(worker, _) =>
      if worker in w.calls && w.calls[worker].Calling? {
        DeliverWrites(w, w.calls[worker].request, w.calls[worker].action);
      }
    case _ =>
  }

  lemma BeginLeavesQuarantine(w: World, op: Op)
    requires op.Begin?
    ensures LeavesQuarantine(w.db, StepBegin(w, op).db)
  {}

  lemma FinishLeavesQuarantine(w: World, worker: WorkerId, now: Time)
    ensures LeavesQuarantine(w.db, StepFinish(w, worker, now).db)
  {
    hide CompleteTx;
  }

  lemma LeavingKeepsQuarantine(db: Db, db': Db)
    requires QuarantineOk(db) && LeavesQuarantine(db, db')
    ensures QuarantineOk(db')
  {
    forall a | a in db'.actions ensures db'.actions[a].status == Failed <==> Quarantined(db', a) {
      assert Quarantined(db', a) <==> Quarantined(db, a);
    }
  }

  lemma QuarantineExtends(db: Db, q: Quarantine, a: ActionId)
    ensures Quarantined(db.(quarantine := db.quarantine + [q]), a) <==> Quarantined(db, a) || Own(q, a)
  {
    var db' := db.(quarantine := db.quarantine + [q]);
    assert db'.quarantine[|db.quarantine|] == q;
    if Quarantined(db, a) {
      var i :| 0 <= i < |db.quarantine| && Own(db.quarantine[i], a);
      assert db'.quarantine[i] == db.quarantine[i];
    }
  }

  lemma NotYetQuarantined(db: Db, a: ActionId)
    ensures !Quarantined(db, a) ==> forall i | 0 <= i < |db.quarantine| && !db.quarantine[i].stale ::
            db.quarantine[i].request.action != a
  {
    forall i | 0 <= i < |db.quarantine| && !db.quarantine[i].stale && db.quarantine[i].request.action == a
      ensures Quarantined(db, a)
    {
      assert Own(db.quarantine[i], a);
    }
  }

  lemma QuarantineTxKeeps(db: Db, r: SendRequest, worker: WorkerId, now: Time)
    requires QuarantineOk(db)
    ensures var tx := QuarantineTx(db, r, worker, now); tx.Commit? ==> QuarantineOk(tx.db)
  {
    var tx := QuarantineTx(db, r, worker, now);
    if tx.Commit? {
      var q := tx.db.quarantine[|db.quarantine|];
      forall a ensures Quarantined(tx.db, a) <==> Quarantined(db, a) || Own(q, a) {
        QuarantineExtends(db, q, a);
        assert Quarantined(tx.db, a) <==> Quarantined(db.(quarantine := db.quarantine + [q]), a);
      }
      NotYetQuarantined(db, q.request.action);
      assert !q.stale ==> db.actions[q.request.action].status != Failed;
      hide Quarantined;
    }
  }

  lemma {:induction false} RunKeepsQuarantine(w: World, ops: seq<Op>)
    requires QuarantineOk(w.db)
    ensures QuarantineOk(Run(w, ops).db)
    decreases |ops|
  {
    if ops != [] {
      if ops[0].QuarantineUnknown? {
        if ops[0].worker in w.calls {
          QuarantineTxKeeps(w.db, w.calls[ops[0].worker].request, ops[0].worker, ops[0].now);
        }
      } else {
        OthersLeaveQuarantine(w, ops[0]);
        LeavingKeepsQuarantine(w.db, Step(w, ops[0]).db);
      }
      assert QuarantineOk(Step(w, ops[0]).db) by { hide QuarantineOk, QuarantineTx; }
      hide Step, QuarantineOk;
      RunKeepsQuarantine(Step(w, ops[0]), ops[1..]);
    }
  }

  /** An action is FAILED exactly when its lease holder has quarantined it; it has then one such entry,
      with its unknown-effect event, and never more than one. */
  lemma FailedExactlyWhenQuarantined(ops: seq<Op>, a: ActionId, i: nat, j: nat)
    requires a in Run(Empty, ops).db.actions
    ensures var db := Run(Empty, ops).db;
            && (db.actions[a].status == Failed <==> exists k :: 0 <= k < |db.quarantine| && Own(db.quarantine[k], a))
            && (i < |db.quarantine| && Own(db.quarantine[i], a) ==>
                  && db.quarantine[i].status == Failed && HasUnknownEvent(db, db.quarantine[i])
                  && (j < |db.quarantine| && Own(db.quarantine[j], a) ==> i == j))
  {
    assert QuarantineOk(Empty.db);
    RunKeepsQuarantine(Empty, ops);
    hide Run;
  }
}
