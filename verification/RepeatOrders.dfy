/** Repeat-order plans: a plan proposes one draft order at a time, confirmation books its revenue and moves
    the plan on.

    Every command is one unit of work guarded by an idempotency key, but units of work overlap: a command
    first reads key, plan and order without a lock, and only then reserves its key and writes. The two parts
    are `Begin` and `CommitTx`; `Handle` is a command that nothing overlaps. */
module RepeatOrders {
  import opened Common
  import opened Amounts
  import opened OrderTotals
  import opened Calendar
  import Economics
  import I = Idempotency
  import Sums

  type Id = string
  type Key = string
  type Instant = v: DateTime | Valid(v) witness DateTime(2000, 1, 1, 0)

  // ----- the plan -----

  datatype PlanStatus = Active | Paused | Cancelled
  datatype Context = Context(scheduledFor: Instant, scope: string, capacity: real)
  datatype Plan = Plan(
    source: Id, owner: string, identity: Id, cadence: Cadence, context: Context, status: PlanStatus,
    last: Option<Id>, pending: Option<Id>, skipped: nat, revision: nat)

  datatype Transition = Pause | Resume | SkipOnce | Cancel | EditContext(context: Context)

  function Later(p: Plan): Context { p.context.(scheduledFor := NextAfter(p.cadence, p.context.scheduledFor)) }

  /** The plan after a transition, or none when its state does not permit it. */
  function Apply(p: Plan, t: Transition): Option<Plan> {
    match t
    case Pause => if p.status == Active then Some(p.(status := Paused)) else None
    case Resume => if p.status == Paused then Some(p.(status := Active)) else None
    case SkipOnce =>
      if p.status != Active || p.pending.Some? then None else Some(p.(context := Later(p), skipped := p.skipped + 1))
    case Cancel => if p.status == Cancelled then None else Some(p.(status := Cancelled))
    case EditContext(context) => if p.status == Cancelled || p.pending.Some? then None else Some(p.(context := context))
  }

  function AttachPending(p: Plan, order: Id): Option<Plan> {
    if p.status == Cancelled || p.pending.Some? then None else Some(p.(pending := Some(order)))
  }

  function MarkConfirmed(p: Plan, order: Id): Option<Plan> {
    if p.pending != Some(order) then None
    else Some(p.(context := if p.status == Active then Later(p) else p.context, last := Some(order), pending := None))
  }

  // ----- tables -----

  datatype OrderStatus = Draft | Confirmed | InProgress | Completed | OrderCancelled | OrderFailed
  datatype OrderData = Order(identity: Id, owner: string, sourceAction: Id, lines: seq<Line>, status: OrderStatus)
  /** An order has at least one line. */
  type Order = o: OrderData | o.lines != [] witness Order("i", "o", "a", [LineData("l", "d", 1.0, Money(0, "RUB"))],
                                                          Draft)

  /** `ledger` holds the revenue entries of repeat orders, one per entry id. */
  datatype Db = Db(orders: map<Id, Order>, plans: map<Id, Plan>, ledger: seq<Economics.Entry>,
                   keys: map<Key, I.Record<string, (), Id>>)

  datatype RepeatError =
    | KeyConflict(e: I.IdempotencyError) | DanglingKey | UnknownOrder | UnknownPlan | OutOfScope | NotCompleted
    | NotAuthorized | NotActive | AlreadyPending | NotThePending | NotDraft | ValidationFailed | LinesChanged
    | TransitionRejected | RevisionConflict | LineageChanged | StatusRejected | DuplicateOrder | DuplicatePlan
    | LineRejected | DuplicateLine | DuplicateEntry | TotalUndefined(m: MoneyError)

  datatype Answer = PlanAnswer(id: Id, plan: Plan) | OrderAnswer(id: Id, order: Order)
  type Outcome = Tx<Db, Answer, RepeatError>

  /** Who asks, under which key, and whether identity, permission and policy admit it. */
  datatype Request = Request(actor: string, hash: string, key: Key, admitted: bool)
  datatype Validation = Validation(approved: bool, lines: seq<Line>)

  predicate Approves(v: Validation) { v.approved && v.lines != [] }

  /** The line id is on file, or used by an earlier line of the same order. */
  predicate Taken(orders: map<Id, Order>, lines: seq<Line>, j: nat)
    requires j < |lines|
  {
    || (exists x, i :: x in orders && 0 <= i < |orders[x].lines| && orders[x].lines[i].id == lines[j].id)
    || (exists i :: 0 <= i < j && lines[i].id == lines[j].id)
  }

  /** What is wrong with the first line that cannot be inserted, if there is one. */
  function FirstError(orders: map<Id, Order>, lines: seq<Line>, from: nat): (e: Option<RepeatError>)
    requires from <= |lines|
    ensures e.None? <==> forall j | from <= j < |lines| :: Storable(lines[j]) && !Taken(orders, lines, j)
    ensures e.Some? ==> e.value == LineRejected || e.value == DuplicateLine
    decreases |lines| - from
  {
    if from == |lines| then None
    else if !Storable(lines[from]) then Some(LineRejected)
    else if Taken(orders, lines, from) then Some(DuplicateLine)
    else FirstError(orders, lines, from + 1)
  }

  /** Insert an order; line ids are unique over all orders, and quantities are kept to eight decimals. */
  function AddOrderTx(orders: map<Id, Order>, id: Id, o: Order): Tx<map<Id, Order>, (), RepeatError> {
    if id in orders then Raise(DuplicateOrder)
    else
      var error := FirstError(orders, o.lines, 0);
      if error.Some? then Raise(error.value) else Commit(orders[id := o.(lines := Reloaded(o.lines))], ())
  }

  predicate SameOrigin(o: Order, q: Order) {
    o.owner == q.owner && o.identity == q.identity && o.sourceAction == q.sourceAction
  }

  /** Save a confirmed order over what is stored by now. Its lines are inserted anew, which leaves stored
      lines as they are. */
  function SaveConfirmed(orders: map<Id, Order>, id: Id, o: Order): Tx<map<Id, Order>, (), RepeatError>
    requires o.status == Confirmed
  {
    if id !in orders then Raise(UnknownOrder)
    else
      var current := orders[id];
      if !SameOrigin(current, o) then Raise(LineageChanged)
      else if current.status == Confirmed && current.lines != o.lines then Raise(LinesChanged)
      else if current.status != Confirmed && (current.status != Draft || current.lines != o.lines)
        then Raise(StatusRejected)
      else Commit(orders[id := o], ())
  }

  predicate SameLineage(p: Plan, q: Plan) {
    p.source == q.source && p.owner == q.owner && p.identity == q.identity && p.cadence == q.cadence
  }

  function SavePlan(plans: map<Id, Plan>, id: Id, p: Plan, expected: nat): Tx<map<Id, Plan>, Plan, RepeatError> {
    if id !in plans then Raise(UnknownPlan)
    else
      var current := plans[id];
      if current.revision != expected then Raise(RevisionConflict)
      else if !SameLineage(current, p) then Raise(LineageChanged)
      else
        var saved := p.(revision := current.revision + 1);
        Commit(plans[id := saved], saved)
  }

  predicate Booked(ledger: seq<Economics.Entry>, order: Id) {
    exists i :: 0 <= i < |ledger| && ledger[i].entity == order
  }

  // ----- commands -----

  datatype Command =
    | CreatePlan(id: Id, source: Id, cadence: Cadence, context: Context)
    | CreateNext(id: Id, order: Id, v: Validation)
    | Confirm(id: Id, order: Id, v: Validation)
    | Mutate(id: Id, t: Transition)

  /** What a command has read and is about to write. */
  datatype Phase =
    | Planning(id: Id, plan: Plan)
    | Proposing(id: Id, read: Plan, order: Id, draft: Order)
    | Confirming(id: Id, read: Plan, order: Id, draft: Order)
    | Mutating(id: Id, read: Plan, t: Transition)

  datatype Begun = Go(phase: Phase) | Answered(answer: Answer) | Refused(error: RepeatError)

  type Ref = I.Ref<(), Id>

  function StoredPlan(db: Db, ref: Ref): Result<Answer, RepeatError> {
    if ref.Pending? || ref.result !in db.plans then Err(DanglingKey)
      else Ok(PlanAnswer(ref.result, db.plans[ref.result]))
  }

  function StoredOrder(db: Db, ref: Ref): Result<Answer, RepeatError> {
    if ref.Pending? || ref.result !in db.orders then Err(DanglingKey)
    else Ok(OrderAnswer(ref.result, db.orders[ref.result]))
  }

  /** The answer to a key that is on file. */
  function Replay(db: Db, r: Request, stored: Result<Answer, RepeatError>): Begun
    requires r.key in db.keys
  {
    if db.keys[r.key].hash != r.hash then Refused(KeyConflict(I.HashConflict))
    else if stored.Err? then Refused(stored.error) else Answered(stored.value)
  }

  function BeginCreatePlan(db: Db, r: Request, id: Id, source: Id, cadence: Cadence, context: Context): Begun {
    if r.key in db.keys then Replay(db, r, StoredPlan(db, db.keys[r.key].ref))
    else if source !in db.orders then Refused(UnknownOrder)
    else if db.orders[source].owner != r.actor then Refused(OutOfScope)
    else if db.orders[source].status != Completed then Refused(NotCompleted)
    else if !r.admitted then Refused(NotAuthorized)
    else Go(Planning(id, Plan(source, r.actor, db.orders[source].identity, cadence, context, Active, None, None, 0, 1)))
  }

  function BeginCreateNext(db: Db, r: Request, id: Id, order: Id, v: Validation): Begun {
    if r.key in db.keys then Replay(db, r, StoredOrder(db, db.keys[r.key].ref))
    else if id !in db.plans then Refused(UnknownPlan)
    else
      var p := db.plans[id];
      if p.owner != r.actor then Refused(OutOfScope)
      else if p.status != Active then Refused(NotActive)
      else if p.pending.Some? then Refused(AlreadyPending)
      else if p.source !in db.orders then Refused(UnknownOrder)
      else if db.orders[p.source].status != Completed then Refused(NotCompleted)
      else if !r.admitted then Refused(NotAuthorized)
      else if !Approves(v) then Refused(ValidationFailed)
      else
        var source := db.orders[p.source];
        Go(Proposing(id, p, order, Order(source.identity, r.actor, source.sourceAction, v.lines, Draft)))
  }

  function BeginConfirm(db: Db, r: Request, id: Id, order: Id, v: Validation): Begun {
    if r.key in db.keys then Replay(db, r, StoredOrder(db, db.keys[r.key].ref))
    else if id !in db.plans then Refused(UnknownPlan)
    else
      var p := db.plans[id];
      if p.owner != r.actor then Refused(OutOfScope)
      else if p.pending != Some(order) then Refused(NotThePending)
      else if order !in db.orders then Refused(UnknownOrder)
      else if db.orders[order].status != Draft then Refused(NotDraft)
      else if !r.admitted then Refused(NotAuthorized)
      else if !Approves(v) then Refused(ValidationFailed)
      else if v.lines != db.orders[order].lines then Refused(LinesChanged)
      else Go(Confirming(id, p, order, db.orders[order]))
  }

  function BeginMutate(db: Db, r: Request, id: Id, t: Transition): Begun {
    if r.key in db.keys then Replay(db, r, StoredPlan(db, db.keys[r.key].ref))
    else if id !in db.plans then Refused(UnknownPlan)
    else if db.plans[id].owner != r.actor then Refused(OutOfScope)
    else if !r.admitted then Refused(NotAuthorized)
    else Go(Mutating(id, db.plans[id], t))
  }

  /** The reading part of a command. */
  function Begin(db: Db, r: Request, c: Command): Begun {
    match c
    case CreatePlan(id, source, cadence, context) => BeginCreatePlan(db, r, id, source, cadence, context)
    case CreateNext(id, order, v) => BeginCreateNext(db, r, id, order, v)
    case Confirm(id, order, v) => BeginConfirm(db, r, id, order, v)
    case Mutate(id, t) => BeginMutate(db, r, id, t)
  }

  /** The id that goes on file under the key. */
  function Target(phase: Phase): Id {
    match phase
    case Planning(id, _) => id
    case Proposing(_, _, order, _) => order
    case Confirming(_, _, order, _) => order
    case Mutating(id, _, _) => id
  }

  datatype AnswerKind = AsPlan | AsOrder

  /** What the command answers with. */
  function KindOf(phase: Phase): AnswerKind { if phase.Planning? || phase.Mutating? then AsPlan else AsOrder }

  function StoredAs(db: Db, kind: AnswerKind, ref: Ref): Result<Answer, RepeatError> {
    if kind == AsPlan then StoredPlan(db, ref) else StoredOrder(db, ref)
  }

  function AddPlan(db: Db, keys: map<Key, I.Record<string, (), Id>>, id: Id, plan: Plan): Outcome {
    if id in db.plans then Raise(DuplicatePlan)
    else Commit(db.(plans := db.plans[id := plan], keys := keys), PlanAnswer(id, plan))
  }

  function Propose(db: Db, keys: map<Key, I.Record<string, (), Id>>, id: Id, read: Plan, order: Id, draft: Order)
    : Outcome {
    var added := AddOrderTx(db.orders, order, draft);
    var attached := AttachPending(read, order);
    if added.Raise? then Raise(added.error)
    else if attached.None? then Raise(TransitionRejected)
    else
      var saved := SavePlan(db.plans, id, attached.value, read.revision);
      if saved.Raise? then Raise(saved.error)
      else Commit(db.(orders := added.db, plans := saved.db, keys := keys), OrderAnswer(order, draft))
  }

  function Book(db: Db, keys: map<Key, I.Record<string, (), Id>>, id: Id, read: Plan, order: Id, draft: Order)
    : Outcome {
    var o := draft.(status := Confirmed);
    var stored := SaveConfirmed(db.orders, order, o);
    var total := Total(o.lines);
    var marked := MarkConfirmed(read, order);
    if stored.Raise? then Raise(stored.error)
    else if total.Err? then Raise(TotalUndefined(total.error))
    else if Booked(db.ledger, order) then Raise(DuplicateEntry)
    else if marked.None? then Raise(TransitionRejected)
    else
      var saved := SavePlan(db.plans, id, marked.value, read.revision);
      if saved.Raise? then Raise(saved.error)
      else
        var entry := Economics.Entry(order, Economics.Revenue, total.value, id);
        Commit(Db(stored.db, saved.db, db.ledger + [entry], keys), OrderAnswer(order, o))
  }

  function Change(db: Db, keys: map<Key, I.Record<string, (), Id>>, id: Id, read: Plan, t: Transition): Outcome {
    var updated := Apply(read, t);
    if updated.None? then Raise(TransitionRejected)
    else
      var saved := SavePlan(db.plans, id, updated.value, read.revision);
      if saved.Raise? then Raise(saved.error)
      else Commit(db.(plans := saved.db, keys := keys), PlanAnswer(id, saved.answer))
  }

  /** What a command writes once its key is its own. */
  function Write(db: Db, keys: map<Key, I.Record<string, (), Id>>, phase: Phase): Outcome {
    match phase
    case Planning(id, plan) => AddPlan(db, keys, id, plan)
    case Proposing(id, read, order, draft) => Propose(db, keys, id, read, order, draft)
    case Confirming(id, read, order, draft) => Book(db, keys, id, read, order, draft)
    case Mutating(id, read, t) => Change(db, keys, id, read, t)
  }

  /** The writing part of a command: reserve the key, and answer from it when it names something else. */
  function CommitTx(db: Db, r: Request, phase: Phase): Outcome {
    var reserved := I.ReserveTx(db.keys, r.key, r.hash, I.Done(Target(phase)));
    if reserved.Raise? then Raise(KeyConflict(reserved.error))
    else if reserved.answer.ref != I.Done(Target(phase)) then
      var stored := StoredAs(db, KindOf(phase), reserved.answer.ref);
      if stored.Err? then Raise(stored.error) else Commit(db, stored.value)
    else Write(db, reserved.db, phase)
  }

  /** A command that nothing overlaps. */
  function Handle(db: Db, r: Request, c: Command): Outcome {
    match Begin(db, r, c)
    case Go(phase) => CommitTx(db, r, phase)
    case Answered(answer) => Commit(db, answer)
    case Refused(error) => Raise(error)
  }

  /** The key is free, or already names this command's target under the same request. */
  predicate Owns(db: Db, r: Request, phase: Phase) {
    r.key in db.keys ==> db.keys[r.key] == I.Record(r.hash, I.Done(Target(phase)))
  }
}
