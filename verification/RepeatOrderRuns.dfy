/** Interleavings of repeat-order commands: any number of them at a time, each with what it has read in a
    local phase until it commits or is dropped. */
module RepeatOrderRuns {
  import opened Common
  import opened Amounts
  import opened OrderTotals
  import opened Calendar
  import Economics
  import I = Idempotency
  import opened RepeatOrders
  import Sums

  type CallId = nat

  /** A command in flight. */
  datatype Call = Call(r: Request, phase: Phase)

  /** What has happened to a plan: how often it was saved, the date it was given last, and the skips and
      active confirmations since; and how often it has skipped in all. */
  datatype Past = Past(saves: nat, given: Instant, steps: nat, skips: nat)
  /** A repeat order: its plan, and the lines it was validated with. */
  datatype Made = Made(plan: Id, lines: seq<Line>)

  /** `past`, `made` and `kinds` are history; `kinds` has the kind of command that first used a key. */
  datatype World = World(
    db: Db, calls: map<CallId, Call>, past: map<Id, Past>, made: map<Id, Made>, kinds: map<Key, AnswerKind>)

  datatype Op =
    | AddOrder(id: Id, value: Order)
    | StartOrder(id: Id)
    | CompleteOrder(id: Id)
    | BeginCall(call: CallId, r: Request, c: Command)
    | FinishCall(call: CallId)
    | DropCall(call: CallId)

  /** Orders of other workflows come in here. */
  function StepAddOrder(w: World, id: Id, o: Order): World {
    var tx := AddOrderTx(w.db.orders, id, o);
    if tx.Raise? then w else w.(db := w.db.(orders := tx.db))
  }

  function StepStatus(w: World, id: Id, from: OrderStatus, to: OrderStatus): World {
    if id !in w.db.orders || w.db.orders[id].status != from then w
    else w.(db := w.db.(orders := w.db.orders[id := w.db.orders[id].(status := to)]))
  }

  /** A command that is refused or answered from its key has no second part. */
  function StepBegin(w: World, call: CallId, r: Request, c: Command): World {
    var begun := Begin(w.db, r, c);
    if call in w.calls || !begun.Go? then w else w.(calls := w.calls[call := Call(r, begun.phase)])
  }

  function Drop(w: World, call: CallId): World { w.(calls := w.calls - {call}) }

  function Saved(past: map<Id, Past>, id: Id, steps: nat): map<Id, Past> {
    if id !in past then past else past[id := past[id].(saves := past[id].saves + 1, steps := past[id].steps + steps)]
  }

  function Mutated(past: Past, t: Transition): Past {
    match t
    case SkipOnce => past.(saves := past.saves + 1, steps := past.steps + 1, skips := past.skips + 1)
    case EditContext(context) => past.(saves := past.saves + 1, given := context.scheduledFor, steps := 0)
    case _ => past.(saves := past.saves + 1)
  }

  function PastAfter(past: map<Id, Past>, phase: Phase): map<Id, Past> {
    match phase
    case Planning(id, plan) => past[id := Past(0, plan.context.scheduledFor, 0, 0)]
    case Proposing(id, _, _, _) => Saved(past, id, 0)
    case Confirming(id, read, _, _) => Saved(past, id, if read.status == Active then 1 else 0)
    case Mutating(id, _, t) => if id in past then past[id := Mutated(past[id], t)] else past
  }

  function MadeAfter(made: map<Id, Made>, phase: Phase): map<Id, Made> {
    if phase.Proposing? then made[phase.order := Made(phase.id, phase.draft.lines)] else made
  }

  /** The second part: written as a whole, or not at all. */
  function StepFinish(w: World, call: CallId): World {
    if call !in w.calls then w
    else
      var Call(r, phase) := w.calls[call];
      var tx := CommitTx(w.db, r, phase);
      if tx.Raise? || !Owns(w.db, r, phase) then Drop(w, call)
      else Drop(World(tx.db, w.calls, PastAfter(w.past, phase), MadeAfter(w.made, phase),
                      if r.key in w.kinds then w.kinds else w.kinds[r.key := KindOf(phase)]), call)
  }

  function Step(w: World, op: Op): World {
    match op
    case AddOrder(id, o) => StepAddOrder(w, id, o)
    case StartOrder(id) => StepStatus(w, id, Confirmed, InProgress)
    case CompleteOrder(id) => StepStatus(w, id, InProgress, Completed)
    case BeginCall(call, r, c) => StepBegin(w, call, r, c)
    case FinishCall(call) => StepFinish(w, call)
    case DropCall(call) => Drop(w, call)
  }

  const Empty: World := World(Db(map[], map[], [], map[]), map[], map[], map[], map[])

  function Run(w: World, ops: seq<Op>): World
    decreases |ops|
  {
    if ops == [] then w else Run(Step(w, ops[0]), ops[1..])
  }

  // ----- invariant -----

  ghost predicate PlansOk(plans: map<Id, Plan>, past: map<Id, Past>) {
    past.Keys == plans.Keys && forall p | p in plans :: PlanOk(plans[p], past[p])
  }

  /** The plan's date is what its history says, and so are its counters. */
  ghost predicate PlanOk(p: Plan, past: Past) {
    && p.revision == 1 + past.saves && p.skipped == past.skips
    && p.context.scheduledFor == Iterate(p.cadence, past.given, past.steps)
  }

  /** A repeat order is a draft exactly while it is pending in its plan. */
  ghost predicate PendingOk(orders: map<Id, Order>, plans: map<Id, Plan>, made: map<Id, Made>) {
    && (forall p | p in plans && plans[p].pending.Some? :: IsMadeFor(made, plans[p].pending.value, p))
    && (forall o | o in made :: o in orders && MadeOk(orders[o], plans, o, made[o]))
  }

  ghost predicate IsMadeFor(made: map<Id, Made>, o: Id, p: Id) { o in made && made[o].plan == p }

  ghost predicate MadeOk(o: Order, plans: map<Id, Plan>, id: Id, m: Made) {
    && m.plan in plans && m.lines != [] && AllStorable(m.lines) && o.lines == Reloaded(m.lines)
    && (o.status == Draft || o.status == Confirmed || o.status == InProgress || o.status == Completed)
    && (o.status == Draft <==> plans[m.plan].pending == Some(id))
  }

  /** The ledger has one entry for every repeat order that is past DRAFT, over its total. */
  ghost predicate LedgerOk(orders: map<Id, Order>, ledger: seq<Economics.Entry>, made: map<Id, Made>) {
    && EntriesOk(orders, ledger, made)
    && (forall i, j | 0 <= i < j < |ledger| :: ledger[i].entity != ledger[j].entity)
    && (forall o | o in made && o in orders && orders[o].status != Draft :: HasEntry(ledger, o))
  }

  ghost predicate EntriesOk(orders: map<Id, Order>, ledger: seq<Economics.Entry>, made: map<Id, Made>) {
    forall e | e in ledger :: e.entity in made && e.entity in orders && EntryOk(orders[e.entity], e)
  }

  ghost predicate HasEntry(ledger: seq<Economics.Entry>, o: Id) { exists e :: e in ledger && e.entity == o }

  ghost predicate EntryOk(o: Order, e: Economics.Entry) {
    e.kind == Economics.Revenue && o.status != Draft && Total(o.lines) == Ok(e.amount)
  }

  /** A key names what the command that used it has created or changed. */
  ghost predicate KeysOk(db: Db, kinds: map<Key, AnswerKind>) {
    && kinds.Keys == db.keys.Keys
    && forall k | k in db.keys ::
         db.keys[k].ref.Done? && (if kinds[k].AsPlan? then db.keys[k].ref.result in db.plans
                                  else db.keys[k].ref.result in db.orders)
  }

  // ----- commands in flight -----

  /** The plan as it was read, or a later revision of it. */
  ghost predicate IsSince(plans: map<Id, Plan>, id: Id, read: Plan) {
    id in plans && read.revision <= plans[id].revision && (read.revision == plans[id].revision ==> plans[id] == read)
  }

  ghost predicate SameButStatus(o: Order, q: Order) { o == q.(status := o.status) }

  /** What a command has read was true when it was read. */
  ghost predicate ReadOk(db: Db, phase: Phase) {
    match phase
    case Planning(_, plan) => plan.pending.None? && plan.revision == 1 && plan.skipped == 0
    case Proposing(id, read, _, draft) =>
      IsSince(db.plans, id, read) && read.pending.None? && read.status == Active && draft.status == Draft
    case Confirming(id, read, order, draft) =>
      && IsSince(db.plans, id, read) && read.pending == Some(order) && draft.status == Draft
      && order in db.orders && SameButStatus(db.orders[order], draft)
    case Mutating(id, read, _) => IsSince(db.plans, id, read)
  }

  /** When the key has meanwhile gone on file for the target of the command, the target has moved on. */
  ghost predicate SpentOk(db: Db, call: Call) {
    call.r.key in db.keys && db.keys[call.r.key].ref == I.Done(Target(call.phase)) ==>
      match call.phase
      case Planning(id, _) => id in db.plans || id in db.orders
      case Proposing(_, _, order, _) => order in db.orders || order in db.plans
      case Confirming(_, _, order, _) => (order in db.orders && db.orders[order].status != Draft) || order in db.plans
      case Mutating(id, read, _) => (id in db.plans && db.plans[id].revision > read.revision) || id in db.orders
  }

  ghost predicate CallsOk(w: World) {
    forall c | c in w.calls ::
      && ReadOk(w.db, w.calls[c].phase) && SpentOk(w.db, w.calls[c])
      && (w.calls[c].phase.Confirming? ==> w.calls[c].phase.order in w.made)
  }

  ghost predicate Inv(w: World) {
    && PlansOk(w.db.plans, w.past) && PendingOk(w.db.orders, w.db.plans, w.made)
    && LedgerOk(w.db.orders, w.db.ledger, w.made) && KeysOk(w.db, w.kinds) && CallsOk(w)
  }

  /** How the tables move on: plans by revisions, orders by their status, and draft is never entered again. */
  ghost predicate MovesOn(db: Db, db': Db) {
    PlansMoveOn(db.plans, db'.plans) && OrdersMoveOn(db.orders, db'.orders) && KeysStay(db.keys, db'.keys)
  }

  ghost predicate PlansMoveOn(plans: map<Id, Plan>, plans': map<Id, Plan>) {
    forall p | p in plans :: IsSince(plans', p, plans[p])
  }

  ghost predicate OrdersMoveOn(orders: map<Id, Order>, orders': map<Id, Order>) {
    forall o | o in orders ::
      o in orders' && SameButStatus(orders'[o], orders[o]) && (orders'[o].status == Draft ==> orders[o].status == Draft)
  }

  ghost predicate KeysStay(keys: map<Key, I.Record<string, (), Id>>, keys': map<Key, I.Record<string, (), Id>>) {
    forall k | k in keys :: k in keys' && keys'[k] == keys[k]
  }

  lemma MovesOnKeepsReads(db: Db, db': Db, phase: Phase)
    requires MovesOn(db, db') && ReadOk(db, phase)
    ensures ReadOk(db', phase)
  {}

  lemma MovesOnKeepsSpent(db: Db, db': Db, call: Call)
    requires MovesOn(db, db') && SpentOk(db, call) && ReadOk(db, call.phase)
    requires call.r.key in db'.keys ==> call.r.key in db.keys
    ensures SpentOk(db', call)
  {}

  /** When nothing goes on file, moving on keeps all commands in flight. */
  lemma MovesOnKeepsCalls(w: World, w': World)
    requires CallsOk(w) && MovesOn(w.db, w'.db) && w'.db.keys == w.db.keys && w'.made == w.made
    requires forall c | c in w'.calls :: c in w.calls && w'.calls[c] == w.calls[c]
    ensures CallsOk(w')
  {
    forall c | c in w'.calls ensures ReadOk(w'.db, w'.calls[c].phase) && SpentOk(w'.db, w'.calls[c]) {
      MovesOnKeepsReads(w.db, w'.db, w.calls[c].phase);
      MovesOnKeepsSpent(w.db, w'.db, w.calls[c]);
    }
  }

  // ----- steps of other workflows, and reading -----

  lemma AddedOrder(orders: map<Id, Order>, id: Id, o: Order)
    ensures var tx := AddOrderTx(orders, id, o);
            && (tx.Commit? ==>
                  id !in orders && AllStorable(o.lines)
                  && tx.db == orders[id := o.(lines := Reloaded(o.lines))])
            && (tx.Raise? ==> tx.error in {DuplicateOrder, LineRejected, DuplicateLine})
  {
    hide Reloaded, Taken, Storable;
  }

  lemma AddOrderKeepsInv(w: World, id: Id, o: Order)
    requires Inv(w)
    ensures Inv(StepAddOrder(w, id, o))
  {
    hide AddOrderTx, PlansOk, PendingOk, LedgerOk, Reloaded, ReadOk, SpentOk, CallsOk;
    AddedOrder(w.db.orders, id, o);
    var w' := StepAddOrder(w, id, o);
    if id !in w.db.orders && id in w'.db.orders {
      NewOrderKeepsTables(w.db.orders, w.db.plans, w.db.ledger, w.made, id, w'.db.orders[id]);
    }
    MovesOnKeepsCalls(w, w');
  }

  lemma NewOrderKeepsTables(orders: map<Id, Order>, plans: map<Id, Plan>, ledger: seq<Economics.Entry>,
                            made: map<Id, Made>,
                            id: Id, o: Order)
    requires PendingOk(orders, plans, made) && LedgerOk(orders, ledger, made) && id !in orders
    ensures PendingOk(orders[id := o], plans, made) && LedgerOk(orders[id := o], ledger, made)
  {
    hide MadeOk, EntryOk, HasEntry, IsMadeFor;
  }

  lemma StatusKeepsInv(w: World, id: Id, from: OrderStatus, to: OrderStatus)
    requires Inv(w) && (from == Confirmed || from == InProgress) && (to == InProgress || to == Completed)
    ensures Inv(StepStatus(w, id, from, to))
  {
    hide PlansOk, PendingOk, LedgerOk, ReadOk, SpentOk, CallsOk;
    if id in w.db.orders && w.db.orders[id].status == from {
      StatusKeepsTables(w.db.orders, w.db.plans, w.db.ledger, w.made, id, to);
    }
    StatusMovesOn(w, id, from, to);
    MovesOnKeepsCalls(w, StepStatus(w, id, from, to)) by { hide MovesOn; }
  }

  lemma StatusMovesOn(w: World, id: Id, from: OrderStatus, to: OrderStatus)
    requires to != Draft
    ensures MovesOn(w.db, StepStatus(w, id, from, to).db)
  {
    var orders := StepStatus(w, id, from, to).db.orders;
    assert OrdersMoveOn(w.db.orders, orders);
    hide OrdersMoveOn;
  }

  lemma StatusKeepsTables(orders: map<Id, Order>, plans: map<Id, Plan>, ledger: seq<Economics.Entry>,
                          made: map<Id, Made>,
                          id: Id, to: OrderStatus)
    requires PendingOk(orders, plans, made) && LedgerOk(orders, ledger, made) && id in orders
    requires (orders[id].status == Confirmed || orders[id].status == InProgress)
             && (to == InProgress || to == Completed)
    ensures PendingOk(orders[id := orders[id].(status := to)], plans, made)
    ensures LedgerOk(orders[id := orders[id].(status := to)], ledger, made)
  {
    hide HasEntry, IsMadeFor, Reloaded, Total, AllStorable;
  }

  lemma BeginReads(db: Db, r: Request, c: Command)
    ensures var begun := Begin(db, r, c);
            begun.Go? ==>
              && r.key !in db.keys && ReadOk(db, begun.phase)
              && (begun.phase.Confirming? ==>
                    begun.phase.id in db.plans && db.plans[begun.phase.id].pending == Some(begun.phase.order))
  {}

  lemma BeginKeepsInv(w: World, call: CallId, r: Request, c: Command)
    requires Inv(w)
    ensures Inv(StepBegin(w, call, r, c))
  {
    hide Begin, PlansOk, LedgerOk, ReadOk, MadeOk;
    BeginReads(w.db, r, c);
    var begun := Begin(w.db, r, c);
    if begun.Go? && begun.phase.Confirming? {
      assert IsMadeFor(w.made, begun.phase.order, begun.phase.id);
    }
    hide PendingOk;
  }

  lemma DropKeepsInv(w: World, call: CallId)
    requires Inv(w)
    ensures Inv(Drop(w, call))
  {
    hide PlansOk, PendingOk, LedgerOk, ReadOk, SpentOk;
  }

  // ----- what a second part writes -----

  function KeysWith(db: Db, r: Request, phase: Phase): map<Key, I.Record<string, (), Id>> {
    if r.key in db.keys then db.keys else db.keys[r.key := I.Record(r.hash, I.Done(Target(phase)))]
  }

  /** A command whose key is its own writes; any other changes nothing. */
  lemma WritesIfOwn(db: Db, r: Request, phase: Phase)
    ensures Owns(db, r, phase) ==> CommitTx(db, r, phase) == Write(db, KeysWith(db, r, phase), phase)
    ensures !Owns(db, r, phase) && CommitTx(db, r, phase).Commit? ==> CommitTx(db, r, phase).db == db
  {
    hide Write, StoredAs;
  }

  lemma SavesIfCurrent(plans: map<Id, Plan>, id: Id, read: Plan, p: Plan)
    requires IsSince(plans, id, read) && SameLineage(read, p)
    ensures var tx := SavePlan(plans, id, p, read.revision);
            && (tx.Commit? <==> plans[id] == read)
            && (tx.Commit? ==> tx.db == plans[id := p.(revision := read.revision + 1)])
            && (tx.Raise? ==> tx.error == RevisionConflict)
  {}

  /** What a new plan writes. */
  ghost predicate Creates(w: World, w': World, id: Id, plan: Plan) {
    && id !in w.db.plans && plan.pending.None? && w'.db.plans == w.db.plans[id := plan]
    && PlanOk(plan, Past(0, plan.context.scheduledFor, 0, 0))
       && w'.past == w.past[id := Past(0, plan.context.scheduledFor, 0, 0)]
    && w'.db.orders == w.db.orders && w'.db.ledger == w.db.ledger && w'.made == w.made
  }

  /** What a new repeat order writes. */
  ghost predicate Proposes(w: World, w': World, id: Id, order: Id, lines: seq<Line>) {
    && id in w.db.plans && w.db.plans[id].pending.None? && order !in w.db.orders && order in w'.db.orders
    && lines != [] && AllStorable(lines)
    && w'.db.orders == w.db.orders[order := w'.db.orders[order]]
    && w'.db.orders[order].lines == Reloaded(lines) && w'.db.orders[order].status == Draft
    && w'.db.plans == w.db.plans[id := w.db.plans[id].(pending := Some(order), revision := w.db.plans[id].revision + 1)]
    && w'.db.ledger == w.db.ledger && w'.past == Saved(w.past, id, 0) && w'.made == w.made[order := Made(id, lines)]
  }

  /** What a confirmation writes. */
  ghost predicate Confirms(w: World, w': World, id: Id, order: Id) {
    && id in w.db.plans && w.db.plans[id].pending == Some(order) && order in w.db.orders
       && w.db.orders[order].status == Draft
    && w'.db.orders == w.db.orders[order := w.db.orders[order].(status := Confirmed)]
    && MarkConfirmed(w.db.plans[id], order).Some?
    && (var marked := MarkConfirmed(w.db.plans[id], order).value;
        w'.db.plans == w.db.plans[id := marked.(revision := w.db.plans[id].revision + 1)])
    && !HasEntry(w.db.ledger, order) && Total(w.db.orders[order].lines).Ok?
    && w'.db.ledger == w.db.ledger + [Economics.Entry(order, Economics.Revenue,
                                                      Total(w.db.orders[order].lines).value, id)]
    && w'.past == Saved(w.past, id, if w.db.plans[id].status == Active then 1 else 0) && w'.made == w.made
  }

  ghost predicate Changes(w: World, w': World, id: Id, t: Transition) {
    && id in w.db.plans && id in w.past && Apply(w.db.plans[id], t).Some?
    && w'.db.plans == w.db.plans[id := Apply(w.db.plans[id], t).value.(revision := w.db.plans[id].revision + 1)]
    && w'.db.orders == w.db.orders && w'.db.ledger == w.db.ledger && w'.made == w.made
    && w'.past == w.past[id := Mutated(w.past[id], t)]
  }

  ghost predicate Wrote(w: World, w': World, phase: Phase) {
    match phase
    case Planning(id, plan) => Creates(w, w', id, plan)
    case Proposing(id, _, order, draft) => Proposes(w, w', id, order, draft.lines)
    case Confirming(id, _, order, _) => Confirms(w, w', id, order)
    case Mutating(id, _, t) => Changes(w, w', id, t)
  }

  lemma ProposingWrites(w: World, keys: map<Key, I.Record<string, (), Id>>, id: Id, read: Plan, order: Id, draft: Order)
    requires ReadOk(w.db, Proposing(id, read, order, draft))
    ensures var tx := Propose(w.db, keys, id, read, order, draft);
            tx.Commit? ==> Proposes(w, World(tx.db, w.calls, Saved(w.past, id, 0),
                                             w.made[order := Made(id, draft.lines)], w.kinds),
                                    id, order, draft.lines)
                           && tx.db.keys == keys && w.db.plans[id] == read
  {
    hide AddOrderTx, Reloaded, Saved, AllStorable, SavePlan;
    AddedOrder(w.db.orders, order, draft);
    SavesIfCurrent(w.db.plans, id, read, read.(pending := Some(order)));
  }

  /** As long as its plan has not moved on, the order that is to be confirmed is the draft that was read. */
  lemma DraftIsCurrent(w: World, id: Id, read: Plan, order: Id, draft: Order)
    requires PendingOk(w.db.orders, w.db.plans, w.made) && ReadOk(w.db, Confirming(id, read, order, draft))
             && w.db.plans[id] == read
    ensures order in w.made && w.db.orders[order] == draft
  {
    hide Reloaded, AllStorable;
    assert IsMadeFor(w.made, order, id);
    assert MadeOk(w.db.orders[order], w.db.plans, order, w.made[order]);
  }

  lemma BookedIsEntry(ledger: seq<Economics.Entry>, order: Id)
    ensures Booked(ledger, order) <==> HasEntry(ledger, order)
  {
    if Booked(ledger, order) {
      var i :| 0 <= i < |ledger| && ledger[i].entity == order;
      assert ledger[i] in ledger;
    }
  }

  lemma ConfirmingWrites(w: World, keys: map<Key, I.Record<string, (), Id>>, id: Id, read: Plan, order: Id,
                         draft: Order)
    requires PendingOk(w.db.orders, w.db.plans, w.made) && ReadOk(w.db, Confirming(id, read, order, draft))
    ensures var tx := Book(w.db, keys, id, read, order, draft);
            var steps := if read.status == Active then 1 else 0;
            tx.Commit? ==> Confirms(w, World(tx.db, w.calls, Saved(w.past, id, steps), w.made, w.kinds), id, order)
                           && tx.db.keys == keys && w.db.plans[id] == read
  {
    hide PendingOk, Total, Saved, SavePlan, Booked, HasEntry, NextAfter;
    BookedIsEntry(w.db.ledger, order);
    if MarkConfirmed(read, order).Some? { SavesIfCurrent(w.db.plans, id, read, MarkConfirmed(read, order).value); }
    if w.db.plans[id] == read { DraftIsCurrent(w, id, read, order, draft); }
  }

  lemma MutatingWrites(w: World, keys: map<Key, I.Record<string, (), Id>>, id: Id, read: Plan, t: Transition)
    requires ReadOk(w.db, Mutating(id, read, t)) && w.past.Keys == w.db.plans.Keys
    ensures var tx := Change(w.db, keys, id, read, t);
            tx.Commit? ==> Changes(w, World(tx.db, w.calls, w.past[id := Mutated(w.past[id], t)], w.made, w.kinds),
                                   id, t)
                           && tx.db.keys == keys && w.db.plans[id] == read
  {
    hide SavePlan, NextAfter;
    if Apply(read, t).Some? { SavesIfCurrent(w.db.plans, id, read, Apply(read, t).value); }
  }

  lemma FinishWrites(w: World, call: CallId)
    requires PendingOk(w.db.orders, w.db.plans, w.made) && w.past.Keys == w.db.plans.Keys
    requires call in w.calls && ReadOk(w.db, w.calls[call].phase)
    ensures var Call(r, phase) := w.calls[call];
            var tx := CommitTx(w.db, r, phase);
            tx.Commit? && Owns(w.db, r, phase) ==>
              && Wrote(w, StepFinish(w, call), phase) && StepFinish(w, call).db.keys == KeysWith(w.db, r, phase)
              && (!phase.Planning? ==> w.db.plans[phase.id] == phase.read)
  {
    hide PendingOk, CommitTx, Propose, Book, Change;
    var Call(r, phase) := w.calls[call];
    WritesIfOwn(w.db, r, phase);
    var keys := KeysWith(w.db, r, phase);
    match phase
    case Planning(_, _) =>
    case Proposing(id, read, order, draft) => ProposingWrites(w, keys, id, read, order, draft);
    case Confirming(id, read, order, draft) => ConfirmingWrites(w, keys, id, read, order, draft);
    case Mutating(id, read, t) => MutatingWrites(w, keys, id, read, t);
  }

  // ----- every second part keeps the invariant -----

  /** The plan `id` changes, and nothing else about plans. */
  lemma SaveKeepsPlans(w: World, id: Id, p: Plan, past: Past)
    requires PlansOk(w.db.plans, w.past) && PlanOk(p, past)
    ensures PlansOk(w.db.plans[id := p], w.past[id := past])
  {
    hide PlanOk;
  }

  lemma NewPlanKeepsPending(orders: map<Id, Order>, plans: map<Id, Plan>, made: map<Id, Made>, id: Id, p: Plan)
    requires PendingOk(orders, plans, made) && id !in plans && p.pending.None?
    ensures PendingOk(orders, plans[id := p], made)
  {
    hide Reloaded, AllStorable;
  }

  lemma ProposeKeepsPending(w: World, w': World, id: Id, order: Id, lines: seq<Line>)
    requires PendingOk(w.db.orders, w.db.plans, w.made) && Proposes(w, w', id, order, lines)
    ensures PendingOk(w'.db.orders, w'.db.plans, w'.made)
  {
    hide Reloaded, Saved;
  }

  lemma ProposeKeepsLedger(w: World, w': World, id: Id, order: Id, lines: seq<Line>)
    requires PendingOk(w.db.orders, w.db.plans, w.made) && LedgerOk(w.db.orders, w.db.ledger, w.made)
             && Proposes(w, w', id, order, lines)
    ensures LedgerOk(w'.db.orders, w'.db.ledger, w'.made)
  {
    hide Reloaded, Saved, MadeOk, IsMadeFor, EntryOk, HasEntry;
  }

  lemma ProposeKeepsPlan(p: Plan, past: Past, order: Id)
    requires PlanOk(p, past)
    ensures PlanOk(p.(pending := Some(order), revision := p.revision + 1),
                   past.(saves := past.saves + 1, steps := past.steps + 0))
  {}

  lemma ConfirmKeepsPending(orders: map<Id, Order>, plans: map<Id, Plan>, made: map<Id, Made>, id: Id, order: Id,
                            p: Plan)
    requires PendingOk(orders, plans, made) && id in plans && plans[id].pending == Some(order) && order in orders
             && p.pending.None?
    ensures order in made && PendingOk(orders[order := orders[order].(status := Confirmed)], plans[id := p], made)
  {
    hide Reloaded;
    assert IsMadeFor(made, order, id);
    var orders', plans' := orders[order := orders[order].(status := Confirmed)], plans[id := p];
    forall o | o in made ensures o in orders' && MadeOk(orders'[o], plans', o, made[o]) {
      assert MadeOk(orders[o], plans, o, made[o]);
    }
    hide MadeOk, IsMadeFor;
  }

  lemma EntriesStay(ledger: seq<Economics.Entry>, e: Economics.Entry)
    ensures HasEntry(ledger + [e], e.entity) && forall o | HasEntry(ledger, o) :: HasEntry(ledger + [e], o)
  {
    assert (ledger + [e])[|ledger|] == e;
    assert forall x | x in ledger :: x in ledger + [e];
  }

  lemma ConfirmKeepsLedger(orders: map<Id, Order>, ledger: seq<Economics.Entry>, made: map<Id, Made>,
                           e: Economics.Entry)
    requires LedgerOk(orders, ledger, made) && e.entity in made && e.entity in orders
             && orders[e.entity].status == Draft
    requires !HasEntry(ledger, e.entity) && e.kind == Economics.Revenue && Total(orders[e.entity].lines) == Ok(e.amount)
    ensures LedgerOk(orders[e.entity := orders[e.entity].(status := Confirmed)], ledger + [e], made)
  {
    hide HasEntry, Total, EntriesOk;
    EntriesStay(ledger, e);
    ConfirmKeepsEntries(orders, ledger, made, e);
    EntitiesStayDistinct(ledger, e);
  }

  lemma EntitiesStayDistinct(ledger: seq<Economics.Entry>, e: Economics.Entry)
    requires (forall i, j | 0 <= i < j < |ledger| :: ledger[i].entity != ledger[j].entity)
             && !HasEntry(ledger, e.entity)
    ensures forall i, j | 0 <= i < j < |ledger + [e]| :: (ledger + [e])[i].entity != (ledger + [e])[j].entity
  {
    forall i | 0 <= i < |ledger| ensures ledger[i].entity != e.entity { assert ledger[i] in ledger; }
    hide HasEntry;
  }

  lemma ConfirmKeepsEntries(orders: map<Id, Order>, ledger: seq<Economics.Entry>, made: map<Id, Made>,
                            e: Economics.Entry)
    requires EntriesOk(orders, ledger, made) && e.entity in made && e.entity in orders
             && orders[e.entity].status == Draft
    requires e.kind == Economics.Revenue && Total(orders[e.entity].lines) == Ok(e.amount)
    ensures EntriesOk(orders[e.entity := orders[e.entity].(status := Confirmed)], ledger + [e], made)
  {
    hide Total;
    var orders' := orders[e.entity := orders[e.entity].(status := Confirmed)];
    forall x | x in ledger + [e] ensures x.entity in made && x.entity in orders' && EntryOk(orders'[x.entity], x) {
      assert x == e || x in ledger;
      if x in ledger { assert EntryOk(orders[x.entity], x); }
    }
  }

  lemma ConfirmKeepsPlan(p: Plan, past: Past, order: Id)
    requires PlanOk(p, past) && MarkConfirmed(p, order).Some?
    ensures PlanOk(MarkConfirmed(p, order).value.(revision := p.revision + 1),
                   past.(saves := past.saves + 1, steps := past.steps + if p.status == Active then 1 else 0))
    ensures MarkConfirmed(p, order).value.pending.None?
  {}

  /** A permitted transition keeps what the history says about the plan, and its pending order. */
  lemma TransitionKeepsPlan(p: Plan, past: Past, t: Transition)
    requires PlanOk(p, past) && Apply(p, t).Some?
    ensures PlanOk(Apply(p, t).value.(revision := p.revision + 1), Mutated(past, t))
    ensures Apply(p, t).value.pending == p.pending
  {}

  lemma PendingFrame(orders: map<Id, Order>, plans: map<Id, Plan>, id: Id, p: Plan, made: map<Id, Made>)
    requires PendingOk(orders, plans, made) && id in plans && p.pending == plans[id].pending
    ensures PendingOk(orders, plans[id := p], made)
  {
    hide Reloaded;
  }

  /** Plans, orders and ledger are in order. */
  ghost predicate TablesOk(w: World) {
    && PlansOk(w.db.plans, w.past) && PendingOk(w.db.orders, w.db.plans, w.made)
    && LedgerOk(w.db.orders, w.db.ledger, w.made)
  }

  lemma CreateKeepsTables(w: World, w': World, id: Id, plan: Plan)
    requires TablesOk(w) && Creates(w, w', id, plan)
    ensures TablesOk(w')
  {
    hide PendingOk, LedgerOk, PlanOk, PlansOk;
    SaveKeepsPlans(w, id, plan, w'.past[id]);
    NewPlanKeepsPending(w.db.orders, w.db.plans, w.made, id, plan);
  }

  lemma ProposeKeepsTables(w: World, w': World, id: Id, order: Id, lines: seq<Line>)
    requires TablesOk(w) && Proposes(w, w', id, order, lines)
    ensures TablesOk(w')
  {
    ProposeKeepsPlan(w.db.plans[id], w.past[id], order);
    SaveKeepsPlans(w, id, w'.db.plans[id], w'.past[id]);
    ProposeKeepsPending(w, w', id, order, lines);
    ProposeKeepsLedger(w, w', id, order, lines);
    hide PendingOk, LedgerOk, PlanOk, PlansOk, Reloaded, AllStorable;
  }

  lemma ConfirmKeepsTables(w: World, w': World, id: Id, order: Id)
    requires TablesOk(w) && Confirms(w, w', id, order)
    ensures TablesOk(w')
  {
    hide PendingOk, LedgerOk, Iterate, Later, Total, HasEntry, PlanOk, MarkConfirmed;
    ConfirmKeepsPlan(w.db.plans[id], w.past[id], order);
    ConfirmKeepsPending(w.db.orders, w.db.plans, w.made, id, order, w'.db.plans[id]);
    ConfirmKeepsLedger(w.db.orders, w.db.ledger, w.made, w'.db.ledger[|w.db.ledger|]);
    SaveKeepsPlans(w, id, w'.db.plans[id], w'.past[id]);
  }

  lemma ChangeKeepsTables(w: World, w': World, id: Id, t: Transition)
    requires TablesOk(w) && Changes(w, w', id, t)
    ensures TablesOk(w')
  {
    hide PendingOk, LedgerOk, PlanOk, Apply, Mutated;
    TransitionKeepsPlan(w.db.plans[id], w.past[id], t);
    SaveKeepsPlans(w, id, w'.db.plans[id], w'.past[id]);
    PendingFrame(w.db.orders, w.db.plans, id, w'.db.plans[id], w.made);
  }

  lemma WriteKeepsTables(w: World, w': World, phase: Phase)
    requires TablesOk(w) && Wrote(w, w', phase)
    ensures TablesOk(w')
  {
    hide TablesOk, Creates, Proposes, Confirms, Changes;
    match phase
    case Planning(id, plan) => CreateKeepsTables(w, w', id, plan);
    case Proposing(id, _, order, draft) => ProposeKeepsTables(w, w', id, order, draft.lines);
    case Confirming(id, _, order, _) => ConfirmKeepsTables(w, w', id, order);
    case Mutating(id, _, t) => ChangeKeepsTables(w, w', id, t);
  }

  /** The mark a second part leaves on its target. */
  ghost predicate Marks(db: Db, db': Db, phase: Phase) {
    match phase
    case Planning(id, _) => id !in db.plans && id in db'.plans
    case Proposing(_, _, order, _) => order !in db.orders && order in db'.orders
    case Confirming(_, _, order, _) => order in db'.orders && db'.orders[order].status != Draft
    case Mutating(id, _, _) => id in db.plans && id in db'.plans && db'.plans[id].revision > db.plans[id].revision
  }

  lemma WriteMarks(w: World, w': World, phase: Phase)
    requires Wrote(w, w', phase)
    ensures Marks(w.db, w'.db, phase)
  {
    hide Saved, Total, HasEntry, PlanOk, NextAfter, AllStorable;
  }

  /** Plans, orders and keys move on with every write. */
  lemma WriteMovesOn(w: World, w': World, phase: Phase, r: Request)
    requires Wrote(w, w', phase) && w'.db.keys == KeysWith(w.db, r, phase)
    ensures MovesOn(w.db, w'.db)
  {
    hide Saved, Total, HasEntry, PlanOk, NextAfter, AllStorable, Reloaded;
  }

  /** A key that goes on file for the target of another command in flight leaves that one behind. */
  lemma NewKeyIsSpent(db: Db, db': Db, phase: Phase, call: Call)
    requires MovesOn(db, db') && ReadOk(db, call.phase) && Marks(db, db', phase)
    requires call.r.key in db'.keys && db'.keys[call.r.key].ref == I.Done(Target(phase))
    ensures SpentOk(db', call)
  {}

  lemma FinishKeepsCalls(w: World, call: CallId, phase: Phase, r: Request)
    requires CallsOk(w) && call in w.calls && w.calls[call] == Call(r, phase)
    requires var w' := StepFinish(w, call);
             && MovesOn(w.db, w'.db) && Marks(w.db, w'.db, phase) && w'.db.keys == KeysWith(w.db, r, phase)
    ensures CallsOk(StepFinish(w, call))
  {
    var w' := StepFinish(w, call);
    assert (forall c | c in w'.calls :: c in w.calls && w'.calls[c] == w.calls[c])
           && w.made.Keys <= w'.made.Keys by { hide CommitTx; }
    hide StepFinish, Marks, MovesOn, ReadOk, SpentOk;
    forall c | c in w'.calls ensures ReadOk(w'.db, w'.calls[c].phase) && SpentOk(w'.db, w'.calls[c]) {
      MovesOnKeepsReads(w.db, w'.db, w.calls[c].phase);
      if w.calls[c].r.key in w'.db.keys && w.calls[c].r.key !in w.db.keys {
        NewKeyIsSpent(w.db, w'.db, phase, w.calls[c]);
      } else {
        MovesOnKeepsSpent(w.db, w'.db, w.calls[c]);
      }
    }
  }

  lemma FinishKeepsKeys(w: World, call: CallId, phase: Phase, r: Request)
    requires KeysOk(w.db, w.kinds) && call in w.calls && w.calls[call] == Call(r, phase)
    requires var w' := StepFinish(w, call);
             && MovesOn(w.db, w'.db) && Marks(w.db, w'.db, phase) && w'.db.keys == KeysWith(w.db, r, phase)
             && w'.kinds == if r.key in w.kinds then w.kinds else w.kinds[r.key := KindOf(phase)]
    ensures KeysOk(StepFinish(w, call).db, StepFinish(w, call).kinds)
  {
    hide StepFinish;
  }

  lemma CallIsOk(w: World, call: CallId)
    requires CallsOk(w) && call in w.calls
    ensures ReadOk(w.db, w.calls[call].phase) && SpentOk(w.db, w.calls[call])
    ensures w.calls[call].phase.Confirming? ==> w.calls[call].phase.order in w.made
  {}

  lemma PlansHavePasts(w: World)
    requires PlansOk(w.db.plans, w.past)
    ensures w.past.Keys == w.db.plans.Keys
  {}

  lemma FinishKeepsInv(w: World, call: CallId)
    requires Inv(w)
    ensures Inv(StepFinish(w, call))
  {
    hide CommitTx, PlansOk, PendingOk, LedgerOk, CallsOk, KeysOk, Wrote, Marks, MovesOn, ReadOk, SpentOk, PastAfter,
         MadeAfter, Owns;
    DropKeepsInv(w, call);
    if call in w.calls {
      var Call(r, phase) := w.calls[call];
      if CommitTx(w.db, r, phase).Commit? && Owns(w.db, r, phase) {
        WritingKeepsInv(w, call);
      }
    }
  }

  lemma WritingKeepsInv(w: World, call: CallId)
    requires Inv(w) && call in w.calls
    requires CommitTx(w.db, w.calls[call].r, w.calls[call].phase).Commit?
             && Owns(w.db, w.calls[call].r, w.calls[call].phase)
    ensures Inv(StepFinish(w, call))
  {
    hide CommitTx, PlansOk, PendingOk, LedgerOk, CallsOk, KeysOk, Wrote, Marks, MovesOn, ReadOk, SpentOk, PastAfter,
         MadeAfter, Owns;
    var Call(r, phase) := w.calls[call];
    CallIsOk(w, call);
    PlansHavePasts(w);
    FinishWrites(w, call);
    var w' := StepFinish(w, call);
    assert w'.kinds == if r.key in w.kinds then w.kinds else w.kinds[r.key := KindOf(phase)];
    hide StepFinish;
    WriteKeepsTables(w, w', phase);
    WriteMarks(w, w', phase);
    WriteMovesOn(w, w', phase, r);
    FinishKeepsCalls(w, call, phase, r);
    FinishKeepsKeys(w, call, phase, r);
  }

  lemma StepKeepsInv(w: World, op: Op)
    requires Inv(w)
    ensures Inv(Step(w, op))
  {
    hide Inv, StepAddOrder, StepStatus, StepBegin, StepFinish, Drop;
    match op
    case AddOrder(id, o) => AddOrderKeepsInv(w, id, o);
    case StartOrder(id) => StatusKeepsInv(w, id, Confirmed, InProgress);
    case CompleteOrder(id) => StatusKeepsInv(w, id, InProgress, Completed);
    case BeginCall(call, r, c) => BeginKeepsInv(w, call, r, c);
    case FinishCall(call) => FinishKeepsInv(w, call);
    case DropCall(call) => DropKeepsInv(w, call);
  }

  lemma {:induction false} RunKeepsInv(w: World, ops: seq<Op>)
    requires Inv(w)
    ensures Inv(Run(w, ops))
    decreases |ops|
  {
    if ops != [] {
      StepKeepsInv(w, ops[0]);
      hide Inv, Step;
      RunKeepsInv(Step(w, ops[0]), ops[1..]);
    }
  }

  lemma Reachable(ops: seq<Op>)
    ensures Inv(Run(Empty, ops))
  {
    RunKeepsInv(Empty, ops);
  }

  // ----- what the commands promise -----

  /** The pending order of a plan is a draft repeat order of that plan, and pending in no other. */
  lemma PendingInOnePlan(ops: seq<Op>, p: Id)
    requires p in Run(Empty, ops).db.plans && Run(Empty, ops).db.plans[p].pending.Some?
    ensures var w := Run(Empty, ops);
            var o := w.db.plans[p].pending.value;
            && o in w.made && w.made[o].plan == p && o in w.db.orders && w.db.orders[o].status == Draft
            && forall q | q in w.db.plans && w.db.plans[q].pending == Some(o) :: q == p
  {
    Reachable(ops);
    var w := Run(Empty, ops);
    hide Run, PlansOk, LedgerOk, KeysOk, CallsOk, Reloaded;
    assert forall q | q in w.db.plans && w.db.plans[q].pending.Some? ::
           IsMadeFor(w.made, w.db.plans[q].pending.value, q);
  }

  /** A repeat order is a draft exactly while its plan has it pending. */
  lemma DraftExactlyWhilePending(ops: seq<Op>, o: Id)
    requires o in Run(Empty, ops).made
    ensures var w := Run(Empty, ops);
            && o in w.db.orders && w.made[o].plan in w.db.plans
            && (w.db.orders[o].status == Draft <==> w.db.plans[w.made[o].plan].pending == Some(o))
  {
    Reachable(ops);
    assert MadeOk(Run(Empty, ops).db.orders[o], Run(Empty, ops).db.plans, o, Run(Empty, ops).made[o]);
    hide Run, PlansOk, LedgerOk, KeysOk, CallsOk, Reloaded;
  }

  function EntriesOf(ledger: seq<Economics.Entry>, o: Id): seq<Economics.Entry> {
    if ledger == [] then [] else (if ledger[0].entity == o then [ledger[0]] else []) + EntriesOf(ledger[1..], o)
  }

  lemma {:induction false} DistinctEntries(ledger: seq<Economics.Entry>, o: Id)
    requires forall i, j | 0 <= i < j < |ledger| :: ledger[i].entity != ledger[j].entity
    ensures !HasEntry(ledger, o) ==> EntriesOf(ledger, o) == []
    ensures HasEntry(ledger, o) ==>
              |EntriesOf(ledger, o)| == 1 && EntriesOf(ledger, o)[0] in ledger
              && EntriesOf(ledger, o)[0].entity == o
  {
    if ledger != [] {
      DistinctEntries(ledger[1..], o);
      assert forall e | e in ledger :: e == ledger[0] || e in ledger[1..];
      assert forall e | e in ledger[1..] :: e in ledger && e.entity != ledger[0].entity;
      assert HasEntry(ledger, ledger[0].entity);
    }
  }

  /** The order is kept as its validated lines are reloaded. It has no revenue entry while it is a draft;
      once confirmed it has exactly one, over the total of the lines that are kept. */
  lemma ExactlyOneRevenueEntry(ops: seq<Op>, o: Id)
    requires o in Run(Empty, ops).made
    ensures var w := Run(Empty, ops);
            && o in w.db.orders && AllStorable(w.made[o].lines) && w.db.orders[o].lines == Reloaded(w.made[o].lines)
            && if w.db.orders[o].status == Draft then EntriesOf(w.db.ledger, o) == []
               else |EntriesOf(w.db.ledger, o)| == 1 && EntriesOf(w.db.ledger, o)[0].kind == Economics.Revenue
                    && Ok(EntriesOf(w.db.ledger, o)[0].amount) == Total(w.db.orders[o].lines)
  {
    Reachable(ops);
    var w := Run(Empty, ops);
    hide Run, PlansOk, KeysOk, CallsOk, Reloaded, Total, EntriesOf;
    assert MadeOk(w.db.orders[o], w.db.plans, o, w.made[o]);
    DistinctEntries(w.db.ledger, o);
  }

  /** That entry is also over the total of the lines the order was validated with exactly when rounding
      their quantities to eight decimals does not change the sum. */
  lemma BooksValidatedTotalIff(ops: seq<Op>, o: Id)
    requires o in Run(Empty, ops).made && o in Run(Empty, ops).db.orders && Run(Empty, ops).db.orders[o].status != Draft
    ensures var w := Run(Empty, ops);
            && w.made[o].lines != [] && AllStorable(w.made[o].lines) && |EntriesOf(w.db.ledger, o)| == 1
            && (Ok(EntriesOf(w.db.ledger, o)[0].amount) == Total(w.made[o].lines)
                <==> Sum(Kept(w.made[o].lines)) == Sum(w.made[o].lines))
  {
    Reachable(ops);
    ExactlyOneRevenueEntry(ops, o);
    var w := Run(Empty, ops);
    assert MadeOk(w.db.orders[o], w.db.plans, o, w.made[o]);
    hide Run, PlansOk, KeysOk, CallsOk, LedgerOk, Reloaded, EntriesOf, Sum, AllStorable;
    ReloadKeepsTotalIff(w.made[o].lines);
  }

  /** The total of an order in cents, or 0 if it has none. */
  function TotalCents(lines: seq<Line>): int { if lines != [] && Total(lines).Ok? then Total(lines).value.cents else 0 }

  function OrderCents(orders: map<Id, Order>, o: Id): int { if o in orders then TotalCents(orders[o].lines) else 0 }

  function Entities(ledger: seq<Economics.Entry>): (s: seq<Id>)
    ensures |s| == |ledger| && forall i | 0 <= i < |s| :: s[i] == ledger[i].entity
  {
    seq(|ledger|, i requires 0 <= i < |ledger| => ledger[i].entity)
  }

  lemma {:induction false} EarnedIsSum(ledger: seq<Economics.Entry>, orders: map<Id, Order>)
    requires forall e | e in ledger :: e.kind == Economics.Revenue && e.amount.cents == OrderCents(orders, e.entity)
    ensures Economics.Earned(ledger) == Sums.Sum(o => OrderCents(orders, o), Entities(ledger))
            && Economics.Spent(ledger) == 0
  {
    if ledger != [] {
      assert Entities(ledger)[1..] == Entities(ledger[1..]);
      EarnedIsSum(ledger[1..], orders);
    }
  }

  lemma {:induction false} DistinctMultiset(a: seq<Id>, b: seq<Id>)
    requires (forall i, j | 0 <= i < j < |a| :: a[i] != a[j]) && (forall i, j | 0 <= i < j < |b| :: b[i] != b[j])
    requires forall x :: x in a <==> x in b
    ensures multiset(a) == multiset(b)
  {
    forall x ensures multiset(a)[x] == multiset(b)[x] {
      CountsOne(a, x);
      CountsOne(b, x);
    }
  }

  lemma {:induction false} CountsOne(s: seq<Id>, x: Id)
    requires forall i, j | 0 <= i < j < |s| :: s[i] != s[j]
    ensures multiset(s)[x] == if x in s then 1 else 0
  {
    if s != [] {
      assert s == [s[0]] + s[1..];
      CountsOne(s[1..], x);
    }
  }

  ghost predicate ListsConfirmed(w: World, confirmed: seq<Id>) {
    && (forall i, j | 0 <= i < j < |confirmed| :: confirmed[i] != confirmed[j])
    && forall o :: o in confirmed <==> o in w.made && o in w.db.orders && w.db.orders[o].status != Draft
  }

  lemma LedgerSums(w: World, confirmed: seq<Id>, currency: string)
    requires LedgerOk(w.db.orders, w.db.ledger, w.made) && ListsConfirmed(w, confirmed)
             && Economics.AllIn(w.db.ledger, currency)
    ensures Economics.Summarize(w.db.ledger, currency) ==
            Ok(Economics.Summary(Money(Sums.Sum(o => OrderCents(w.db.orders, o), confirmed), currency),
                                 Money(0, currency)))
  {
    hide Total;
    forall e | e in w.db.ledger
      ensures e.kind == Economics.Revenue && e.amount.cents == OrderCents(w.db.orders, e.entity)
    {
      assert EntryOk(w.db.orders[e.entity], e);
    }
    EarnedIsSum(w.db.ledger, w.db.orders);
    EntitiesAreConfirmed(w, confirmed);
    DistinctMultiset(Entities(w.db.ledger), confirmed);
    Sums.SumPermutes(o => OrderCents(w.db.orders, o), Entities(w.db.ledger), confirmed);
  }

  lemma EntitiesAreConfirmed(w: World, confirmed: seq<Id>)
    requires LedgerOk(w.db.orders, w.db.ledger, w.made) && ListsConfirmed(w, confirmed)
    ensures forall o :: o in Entities(w.db.ledger) <==> o in confirmed
  {
    hide Total;
    forall o | o in confirmed ensures o in Entities(w.db.ledger) {
      assert HasEntry(w.db.ledger, o);
      var e :| e in w.db.ledger && e.entity == o;
      var i :| 0 <= i < |w.db.ledger| && w.db.ledger[i] == e;
      assert Entities(w.db.ledger)[i] == o;
    }
    forall o | o in Entities(w.db.ledger) ensures o in confirmed {
      var i :| 0 <= i < |w.db.ledger| && Entities(w.db.ledger)[i] == o;
      assert w.db.ledger[i] in w.db.ledger;
    }
  }

  /** Revenue is conserved: the ledger adds up to the totals of the confirmed repeat orders as they are
      kept, each counted once, and to no costs. */
  lemma RevenueIsConserved(ops: seq<Op>, confirmed: seq<Id>, currency: string)
    requires ListsConfirmed(Run(Empty, ops), confirmed) && Economics.AllIn(Run(Empty, ops).db.ledger, currency)
    ensures var w := Run(Empty, ops);
            Economics.Summarize(w.db.ledger, currency) ==
            Ok(Economics.Summary(Money(Sums.Sum(o => OrderCents(w.db.orders, o), confirmed), currency),
                                 Money(0, currency)))
  {
    Reachable(ops);
    hide Run, PendingOk, LedgerOk, PlansOk, KeysOk, CallsOk, Economics.Summarize;
    LedgerSums(Run(Empty, ops), confirmed, currency);
  }

  function ValidatedCents(made: map<Id, Made>, o: Id): int { if o in made then TotalCents(made[o].lines) else 0 }

  lemma {:induction false} SumsAgree(f: Id -> int, g: Id -> int, s: seq<Id>)
    requires forall x | x in s :: f(x) == g(x)
    ensures Sums.Sum(f, s) == Sums.Sum(g, s)
  {
    if s != [] { SumsAgree(f, g, s[1..]); }
  }

  /** When no confirmed order was validated with a quantity of more than eight decimals, the ledger also
      adds up to the totals that were validated. */
  lemma ValidatedRevenueIsConserved(ops: seq<Op>, confirmed: seq<Id>, currency: string)
    requires ListsConfirmed(Run(Empty, ops), confirmed) && Economics.AllIn(Run(Empty, ops).db.ledger, currency)
    requires forall o | o in confirmed && o in Run(Empty, ops).made ::
               forall l | l in Run(Empty, ops).made[o].lines :: HasEightDecimals(l.quantity)
    ensures var w := Run(Empty, ops);
            Economics.Summarize(w.db.ledger, currency) ==
            Ok(Economics.Summary(Money(Sums.Sum(o => ValidatedCents(w.made, o), confirmed), currency),
                                 Money(0, currency)))
  {
    RevenueIsConserved(ops, confirmed, currency);
    Reachable(ops);
    var w := Run(Empty, ops);
    hide Run, Reloaded, Total, LedgerOk, PlansOk, KeysOk, CallsOk, Economics.Summarize, Economics.AllIn;
    forall o | o in confirmed ensures OrderCents(w.db.orders, o) == ValidatedCents(w.made, o) {
      assert MadeOk(w.db.orders[o], w.db.plans, o, w.made[o]);
      EightDecimalsKeepTotal(w.made[o].lines);
    }
    SumsAgree(o => OrderCents(w.db.orders, o), o => ValidatedCents(w.made, o), confirmed);
  }

  /** The revision counts the saved changes, and the date is the date last given, moved on once for every
      skip and every confirmation while the plan was active since. */
  lemma RevisionAndDate(ops: seq<Op>, p: Id)
    requires p in Run(Empty, ops).db.plans
    ensures var w := Run(Empty, ops);
            && p in w.past && w.db.plans[p].revision == 1 + w.past[p].saves && w.db.plans[p].skipped == w.past[p].skips
            && w.db.plans[p].context.scheduledFor == Iterate(w.db.plans[p].cadence, w.past[p].given, w.past[p].steps)
  {
    Reachable(ops);
  }

  // ----- overlapping commands -----

  lemma {:induction false} RunSplits(w: World, a: seq<Op>, b: seq<Op>)
    ensures Run(w, a + b) == Run(Run(w, a), b)
    decreases |a|
  {
    if a == [] {
      assert a + b == b;
    } else {
      hide Step;
      assert (a + b)[1..] == a[1..] + b;
      RunSplits(Step(w, a[0]), a[1..], b);
    }
  }

  /** A second part succeeds when the plan is as it was read, and what is to be inserted can be. */
  ghost predicate Succeeds(db: Db, phase: Phase) {
    match phase
    case Planning(id, _) => id !in db.plans
    case Proposing(id, read, order, draft) => id in db.plans && db.plans[id] == read
      && AddOrderTx(db.orders, order, draft).Commit?
    case Confirming(id, read, _, draft) => id in db.plans && db.plans[id] == read && Total(draft.lines).Ok?
    case Mutating(id, read, t) => id in db.plans && db.plans[id] == read && Apply(read, t).Some?
  }

  /** What has happened to an order since it was read decides how its confirmation ends. */
  lemma BookOutcome(w: World, keys: map<Key, I.Record<string, (), Id>>, id: Id, read: Plan, order: Id, draft: Order)
    requires PendingOk(w.db.orders, w.db.plans, w.made) && LedgerOk(w.db.orders, w.db.ledger, w.made) && order in w.made
    requires ReadOk(w.db, Confirming(id, read, order, draft))
    ensures var tx := Book(w.db, keys, id, read, order, draft);
            var status, total := w.db.orders[order].status, Total(draft.lines);
            && (tx.Commit? <==> w.db.plans[id] == read && total.Ok?)
            && (tx.Raise? && total.Ok? ==>
                  tx.error == if status == Draft then RevisionConflict else if status == Confirmed then DuplicateEntry
                    else StatusRejected)
            && (tx.Raise? && total.Err? ==>
                  tx.error == if status == Draft || status == Confirmed then TotalUndefined(total.error)
                    else StatusRejected)
  {
    if w.db.plans[id] == read { DraftIsCurrent(w, id, read, order, draft); }
    SavesIfCurrent(w.db.plans, id, read, MarkConfirmed(read, order).value);
    BookedIsEntry(w.db.ledger, order);
    EntryIffConfirmed(w, order);
    hide PendingOk, LedgerOk, Total, SavePlan, Booked, HasEntry, NextAfter, Reloaded, IsSince;
  }

  lemma EntryIffConfirmed(w: World, order: Id)
    requires LedgerOk(w.db.orders, w.db.ledger, w.made) && order in w.made && order in w.db.orders
    ensures HasEntry(w.db.ledger, order) <==> w.db.orders[order].status != Draft
  {
    hide Total;
    if HasEntry(w.db.ledger, order) {
      var e :| e in w.db.ledger && e.entity == order;
      assert EntryOk(w.db.orders[e.entity], e);
    }
  }

  lemma ProposeOutcome(db: Db, keys: map<Key, I.Record<string, (), Id>>, id: Id, read: Plan, order: Id, draft: Order)
    requires ReadOk(db, Proposing(id, read, order, draft))
    ensures var tx := Propose(db, keys, id, read, order, draft);
            && (tx.Commit? <==> Succeeds(db, Proposing(id, read, order, draft)))
            && (tx.Raise? ==> tx.error in {DuplicateOrder, LineRejected, DuplicateLine, RevisionConflict})
  {
    AddedOrder(db.orders, order, draft);
    SavesIfCurrent(db.plans, id, read, read.(pending := Some(order)));
    hide AddOrderTx, SavePlan, Reloaded, AllStorable;
  }

  lemma ChangeOutcome(db: Db, keys: map<Key, I.Record<string, (), Id>>, id: Id, read: Plan, t: Transition)
    requires ReadOk(db, Mutating(id, read, t))
    ensures var tx := Change(db, keys, id, read, t);
            && (tx.Commit? <==> Succeeds(db, Mutating(id, read, t)))
            && (tx.Raise? ==> tx.error == if Apply(read, t).None? then TransitionRejected else RevisionConflict)
  {
    if Apply(read, t).Some? { SavesIfCurrent(db.plans, id, read, Apply(read, t).value); }
    hide SavePlan, NextAfter;
  }

  /** Whether a second part that owns its key writes, and which errors it can end with. */
  lemma WriteOutcome(w: World, keys: map<Key, I.Record<string, (), Id>>, phase: Phase)
    requires PendingOk(w.db.orders, w.db.plans, w.made) && LedgerOk(w.db.orders, w.db.ledger, w.made)
    requires ReadOk(w.db, phase) && (phase.Confirming? ==> phase.order in w.made)
    ensures var tx := Write(w.db, keys, phase);
            && (tx.Commit? <==> Succeeds(w.db, phase))
            && (tx.Raise? ==> tx.error !in {UnknownPlan, UnknownOrder, LineageChanged, LinesChanged, NotDraft}
                              && (tx.error == TransitionRejected ==> phase.Mutating?))
  {
    hide PendingOk, LedgerOk, AddOrderTx, Propose, Book, Change;
    match phase
    case Planning(_, _) =>
    case Proposing(id, read, order, draft) => ProposeOutcome(w.db, keys, id, read, order, draft);
    case Confirming(id, read, order, draft) => BookOutcome(w, keys, id, read, order, draft);
    case Mutating(id, read, t) => ChangeOutcome(w.db, keys, id, read, t);
  }

  lemma SecondPartSucceedsIff(w: World, call: CallId)
    requires Inv(w) && call in w.calls && Owns(w.db, w.calls[call].r, w.calls[call].phase)
    ensures CommitTx(w.db, w.calls[call].r, w.calls[call].phase).Commit? <==> Succeeds(w.db, w.calls[call].phase)
  {
    var Call(r, phase) := w.calls[call];
    WritesIfOwn(w.db, r, phase);
    hide CommitTx, Write, Succeeds, PlansOk, PendingOk, LedgerOk, KeysOk, ReadOk, SpentOk, Owns;
    WriteOutcome(w, KeysWith(w.db, r, phase), phase);
  }

  /** A command in flight whose key nobody else has used writes exactly when its plan has not been saved since
      it was read, and what it writes is admissible by itself; otherwise it rolls back whole. A command whose
      key has been used for something else writes nothing. */
  lemma CommitsIffCurrent(ops: seq<Op>, call: CallId)
    requires call in Run(Empty, ops).calls
    ensures var w := Run(Empty, ops);
            var Call(r, phase) := w.calls[call];
            var tx := CommitTx(w.db, r, phase);
            && (Owns(w.db, r, phase) ==> (tx.Commit? <==> Succeeds(w.db, phase)))
            && (!phase.Planning? ==>
                  phase.id in w.db.plans
                  && (w.db.plans[phase.id] == phase.read <==> w.db.plans[phase.id].revision == phase.read.revision))
            && (tx.Raise? ==> Step(w, FinishCall(call)) == Drop(w, call))
            && (!Owns(w.db, r, phase) ==> Step(w, FinishCall(call)) == Drop(w, call) && (tx.Commit? ==> tx.db == w.db))
  {
    Reachable(ops);
    hide Run, CommitTx, Succeeds, PlansOk, PendingOk, LedgerOk, KeysOk, CallsOk, SpentOk, Owns, PastAfter, MadeAfter;
    var w := Run(Empty, ops);
    var Call(r, phase) := w.calls[call];
    CallIsOk(w, call);
    WritesIfOwn(w.db, r, phase);
    if Owns(w.db, r, phase) { SecondPartSucceedsIff(w, call); }
  }

  /** How a confirmation ends that owns its key: it commits, or finds the order confirmed already, or moved
      on further, or the plan changed. The entry's key, not the revision, keeps revenue from being booked
      twice. */
  lemma ConfirmationOutcome(ops: seq<Op>, call: CallId)
    requires var w := Run(Empty, ops);
             call in w.calls && w.calls[call].phase.Confirming? && Owns(w.db, w.calls[call].r, w.calls[call].phase)
    requires Total(Run(Empty, ops).calls[call].phase.draft.lines).Ok?
    ensures var w := Run(Empty, ops);
            var Call(r, phase) := w.calls[call];
            var tx := CommitTx(w.db, r, phase);
            && phase.order in w.db.orders && phase.id in w.db.plans
            && (tx.Commit? <==> w.db.plans[phase.id] == phase.read)
            && (tx == Raise(DuplicateEntry) <==> w.db.orders[phase.order].status == Confirmed)
            && (tx == Raise(StatusRejected) <==> w.db.orders[phase.order].status !in {Draft, Confirmed})
            && (tx == Raise(RevisionConflict) <==>
                  w.db.orders[phase.order].status == Draft
                  && w.db.plans[phase.id] != phase.read)
  {
    Reachable(ops);
    var w := Run(Empty, ops);
    var Call(r, phase) := w.calls[call];
    WritesIfOwn(w.db, r, phase);
    assert ReadOk(w.db, phase) && phase.order in w.made;
    BookOutcome(w, KeysWith(w.db, r, phase), phase.id, phase.read, phase.order, phase.draft);
    if w.db.plans[phase.id] == phase.read { DraftIsCurrent(w, phase.id, phase.read, phase.order, phase.draft); }
    hide Run, CommitTx, Book, Total, PlansOk, PendingOk, LedgerOk, KeysOk, CallsOk;
  }

  /** Of commands on one plan that overlap at most one writes: once one of them has, the others do not. */
  lemma OverlappingCommandsExclude(ops: seq<Op>, a: CallId, b: CallId)
    requires var w := Run(Empty, ops);
             && a in w.calls && b in w.calls && a != b && !w.calls[a].phase.Planning? && !w.calls[b].phase.Planning?
             && w.calls[a].phase.id == w.calls[b].phase.id
             && Owns(w.db, w.calls[a].r, w.calls[a].phase) && CommitTx(w.db, w.calls[a].r, w.calls[a].phase).Commit?
    ensures var w' := Step(Run(Empty, ops), FinishCall(a));
            b in w'.calls && Step(w', FinishCall(b)) == Drop(w', b)
  {
    Reachable(ops);
    hide Run, Inv, CommitTx;
    FinishExcludes(Run(Empty, ops), a, b);
  }

  lemma FinishExcludes(w: World, a: CallId, b: CallId)
    requires Inv(w) && a in w.calls && b in w.calls && a != b && !w.calls[a].phase.Planning?
             && !w.calls[b].phase.Planning?
    requires w.calls[a].phase.id == w.calls[b].phase.id
    requires Owns(w.db, w.calls[a].r, w.calls[a].phase) && CommitTx(w.db, w.calls[a].r, w.calls[a].phase).Commit?
    ensures var w' := StepFinish(w, a); b in w'.calls && StepFinish(w', b) == Drop(w', b)
  {
    hide Inv, CommitTx, Owns, PastAfter, MadeAfter;
    var w' := StepFinish(w, a);
    var Call(r, phase) := w.calls[b];
    FinishMoves(w, a, b);
    FinishKeepsInv(w, a);
    assert w'.calls == w.calls - {a};
    WritesIfOwn(w'.db, r, phase);
    if Owns(w'.db, r, phase) { SecondPartSucceedsIff(w', b); }
  }

  lemma FinishCollides(w: World, a: CallId, b: CallId)
    requires Inv(w) && a in w.calls && b in w.calls && a != b && !w.calls[a].phase.Planning?
             && !w.calls[b].phase.Planning?
    requires w.calls[a].phase.id == w.calls[b].phase.id
    requires Owns(w.db, w.calls[a].r, w.calls[a].phase) && CommitTx(w.db, w.calls[a].r, w.calls[a].phase).Commit?
    requires Owns(StepFinish(w, a).db, w.calls[b].r, w.calls[b].phase)
    ensures var mine, other := w.calls[a].phase, w.calls[b].phase;
            var tx := CommitTx(StepFinish(w, a).db, w.calls[b].r, w.calls[b].phase);
            && (other.Mutating? && Apply(other.read, other.t).Some? ==> tx == Raise(RevisionConflict))
            && (mine.Confirming? && other.Confirming? && mine.order == other.order ==> tx == Raise(DuplicateEntry))
  {
    hide StepFinish, CommitTx, Inv, Owns, Apply;
    if w.calls[b].phase.Mutating? { ChangeCollides(w, a, b); }
    if w.calls[a].phase.Confirming? && w.calls[b].phase.Confirming?
      && w.calls[a].phase.order == w.calls[b].phase.order {
      ConfirmationCollides(w, a, b);
    }
  }

  /** What the second part of `b` finds once `a` has written. */
  lemma StillInFlight(w: World, a: CallId, b: CallId)
    requires Inv(w) && a in w.calls && b in w.calls && a != b
    ensures var w', phase := StepFinish(w, a), w.calls[b].phase;
            && b in w'.calls && w'.calls[b] == w.calls[b] && ReadOk(w'.db, phase)
               && (phase.Confirming? ==> phase.order in w'.made)
            && PendingOk(w'.db.orders, w'.db.plans, w'.made) && LedgerOk(w'.db.orders, w'.db.ledger, w'.made)
  {
    FinishKeepsInv(w, a);
    assert StepFinish(w, a).calls == w.calls - {a} by { hide CommitTx; }
    hide StepFinish, PlansOk, PendingOk, LedgerOk, KeysOk, ReadOk, SpentOk;
  }

  lemma ChangeCollides(w: World, a: CallId, b: CallId)
    requires Inv(w) && a in w.calls && b in w.calls && a != b && !w.calls[a].phase.Planning?
             && w.calls[b].phase.Mutating?
    requires w.calls[a].phase.id == w.calls[b].phase.id
    requires Owns(w.db, w.calls[a].r, w.calls[a].phase) && CommitTx(w.db, w.calls[a].r, w.calls[a].phase).Commit?
    requires Owns(StepFinish(w, a).db, w.calls[b].r, w.calls[b].phase)
    ensures Apply(w.calls[b].phase.read, w.calls[b].phase.t).Some? ==>
              CommitTx(StepFinish(w, a).db, w.calls[b].r, w.calls[b].phase) == Raise(RevisionConflict)
  {
    hide Inv, StepFinish, CommitTx, Owns, PendingOk, LedgerOk, Change, Apply;
    var db := StepFinish(w, a).db;
    var Call(r, phase) := w.calls[b];
    FinishMoves(w, a, b);
    StillInFlight(w, a, b);
    WritesIfOwn(db, r, phase);
    ChangeOutcome(db, KeysWith(db, r, phase), phase.id, phase.read, phase.t);
  }

  lemma ConfirmationCollides(w: World, a: CallId, b: CallId)
    requires Inv(w) && a in w.calls && b in w.calls && a != b && w.calls[a].phase.Confirming?
             && w.calls[b].phase.Confirming?
    requires w.calls[a].phase.id == w.calls[b].phase.id && w.calls[a].phase.order == w.calls[b].phase.order
    requires Owns(w.db, w.calls[a].r, w.calls[a].phase) && CommitTx(w.db, w.calls[a].r, w.calls[a].phase).Commit?
    requires Owns(StepFinish(w, a).db, w.calls[b].r, w.calls[b].phase)
    ensures CommitTx(StepFinish(w, a).db, w.calls[b].r, w.calls[b].phase) == Raise(DuplicateEntry)
  {
    hide Inv, StepFinish, CommitTx, Owns, PendingOk, LedgerOk, Book, Total, ReadOk;
    var w' := StepFinish(w, a);
    var Call(r, phase) := w.calls[b];
    FinishMoves(w, a, b);
    StillInFlight(w, a, b);
    ConfirmedByOther(w, a, b);
    WritesIfOwn(w'.db, r, phase);
    BookOutcome(w', KeysWith(w'.db, r, phase), phase.id, phase.read, phase.order, phase.draft);
  }

  lemma ConfirmedByOther(w: World, a: CallId, b: CallId)
    requires Inv(w) && a in w.calls && b in w.calls && w.calls[a].phase.Confirming? && w.calls[b].phase.Confirming?
    requires w.calls[a].phase.order == w.calls[b].phase.order
    requires Owns(w.db, w.calls[a].r, w.calls[a].phase) && CommitTx(w.db, w.calls[a].r, w.calls[a].phase).Commit?
    ensures var order := w.calls[b].phase.order;
            order in StepFinish(w, a).db.orders && StepFinish(w, a).db.orders[order].status == Confirmed
    ensures Total(w.calls[b].phase.draft.lines).Ok?
  {
    assert ReadOk(w.db, w.calls[a].phase) && ReadOk(w.db, w.calls[b].phase);
    FinishWrites(w, a);
    hide StepFinish, CommitTx, PlansOk, PendingOk, LedgerOk, KeysOk, CallsOk, Total;
  }

  /** The plan is then at a later revision than what the other command has read. */
  lemma FinishMoves(w: World, a: CallId, b: CallId)
    requires Inv(w) && a in w.calls && b in w.calls && !w.calls[a].phase.Planning? && !w.calls[b].phase.Planning?
    requires w.calls[a].phase.id == w.calls[b].phase.id
    requires Owns(w.db, w.calls[a].r, w.calls[a].phase) && CommitTx(w.db, w.calls[a].r, w.calls[a].phase).Commit?
    ensures var w', phase := StepFinish(w, a), w.calls[b].phase;
            phase.id in w'.db.plans && phase.read.revision < w'.db.plans[phase.id].revision
  {
    assert ReadOk(w.db, w.calls[a].phase) && ReadOk(w.db, w.calls[b].phase);
    assert w.calls[b].phase.read.revision <= w.db.plans[w.calls[b].phase.id].revision;
    FinishWrites(w, a);
    hide StepFinish, CommitTx, Wrote, PendingOk, LedgerOk, KeysOk, CallsOk;
    PlanMoves(w, StepFinish(w, a), w.calls[a].phase);
  }

  lemma PlanMoves(w: World, w': World, phase: Phase)
    requires Wrote(w, w', phase) && !phase.Planning?
    ensures phase.id in w.db.plans && phase.id in w'.db.plans
            && w'.db.plans[phase.id].revision == w.db.plans[phase.id].revision + 1
  {
    hide Saved, Total, HasEntry, NextAfter, AllStorable, Reloaded;
  }

  /** The guards that then stop the other one: the revision stops a change of the plan, and the entry's key
      stops a second confirmation of the same order. */
  lemma OverlappingCommandsCollide(ops: seq<Op>, a: CallId, b: CallId)
    requires var w := Run(Empty, ops);
             && a in w.calls && b in w.calls && a != b && !w.calls[a].phase.Planning? && !w.calls[b].phase.Planning?
             && w.calls[a].phase.id == w.calls[b].phase.id
             && Owns(w.db, w.calls[a].r, w.calls[a].phase) && CommitTx(w.db, w.calls[a].r, w.calls[a].phase).Commit?
    requires Owns(Step(Run(Empty, ops), FinishCall(a)).db, Run(Empty, ops).calls[b].r, Run(Empty, ops).calls[b].phase)
    ensures var w := Run(Empty, ops);
            var mine, other := w.calls[a].phase, w.calls[b].phase;
            var tx := CommitTx(Step(w, FinishCall(a)).db, w.calls[b].r, other);
            && (other.Mutating? && Apply(other.read, other.t).Some? ==> tx == Raise(RevisionConflict))
            && (mine.Confirming? && other.Confirming? && mine.order == other.order ==> tx == Raise(DuplicateEntry))
  {
    Reachable(ops);
    hide Run, Inv, CommitTx, Owns, StepFinish;
    FinishCollides(Run(Empty, ops), a, b);
  }

  /** Requests that race under one key: the loser, which was to create something else, is answered with what
      the winner has written. */
  lemma RacingRequestIsAnswered(ops: seq<Op>, a: CallId, b: CallId)
    requires var w := Run(Empty, ops);
             && a in w.calls && b in w.calls && w.calls[a].r == w.calls[b].r && w.calls[a].r.key !in w.db.keys
             && KindOf(w.calls[a].phase) == KindOf(w.calls[b].phase)
                && Target(w.calls[a].phase) != Target(w.calls[b].phase)
             && CommitTx(w.db, w.calls[a].r, w.calls[a].phase).Commit?
    ensures var w := Run(Empty, ops);
            var db, target := Step(w, FinishCall(a)).db, Target(w.calls[a].phase);
            var tx := CommitTx(db, w.calls[b].r, w.calls[b].phase);
            match KindOf(w.calls[b].phase)
            case AsPlan => target in db.plans && tx == Commit(db, PlanAnswer(target, db.plans[target]))
            case AsOrder => target in db.orders && tx == Commit(db, OrderAnswer(target, db.orders[target]))
  {
    Reachable(ops);
    hide Run, Write, PlansOk, PendingOk, LedgerOk, CallsOk, Wrote, ReadOk, SpentOk, CommitTx, StepFinish;
    var w := Run(Empty, ops);
    var Call(r, phase) := w.calls[a];
    CallIsOk(w, a);
    PlansHavePasts(w);
    FinishWrites(w, a);
    WriteMarks(w, Step(w, FinishCall(a)), phase);
    AnswersWithOther(Step(w, FinishCall(a)).db, r, w.calls[b].phase, Target(phase));
  }

  lemma AnswersWithOther(db: Db, r: Request, phase: Phase, other: Id)
    requires r.key in db.keys && db.keys[r.key] == I.Record(r.hash, I.Done(other)) && other != Target(phase)
    ensures CommitTx(db, r, phase) ==
            match KindOf(phase)
            case AsPlan =>
              if other in db.plans then Commit(db, PlanAnswer(other, db.plans[other])) else Raise(DanglingKey)
            case AsOrder =>
              if other in db.orders then Commit(db, OrderAnswer(other, db.orders[other])) else Raise(DanglingKey)
  {
    hide Write;
  }

  // ----- what never changes -----

  /** What the second part of a command leaves, in one of two ways. */
  lemma FinishWritesOrDrops(w: World, call: CallId)
    requires Inv(w) && call in w.calls
    ensures var w' := StepFinish(w, call);
            && w'.calls == w.calls - {call}
            && (w' == Drop(w, call)
                || (Wrote(w, w', w.calls[call].phase) && MovesOn(w.db, w'.db)
                    && (!w.calls[call].phase.Planning? ==>
                          w.calls[call].phase.id in w.db.plans
                          && w.db.plans[w.calls[call].phase.id] == w.calls[call].phase.read)))
  {
    var Call(r, phase) := w.calls[call];
    CallIsOk(w, call);
    PlansHavePasts(w);
    hide CommitTx, Wrote, PlansOk, PendingOk, LedgerOk, KeysOk, CallsOk, PastAfter, MadeAfter, ReadOk, Owns, MovesOn,
         SpentOk, KeysWith;
    if CommitTx(w.db, r, phase).Commit? && Owns(w.db, r, phase) {
      var w' := StepFinish(w, call);
      assert w'.calls == w.calls - {call};
      FinishWrites(w, call);
      hide StepFinish, Inv;
      WriteMovesOn(w, w', phase, r);
    }
  }

  lemma WriteKeepsLineage(w: World, w': World, phase: Phase, p: Id)
    requires Wrote(w, w', phase) && p in w.db.plans
    ensures p in w'.db.plans && SameLineage(w.db.plans[p], w'.db.plans[p])
    ensures w.db.plans[p].status == Cancelled ==> w'.db.plans[p].status == Cancelled
  {
    hide Saved, Total, HasEntry, NextAfter, AllStorable, Reloaded, PlanOk;
  }

  lemma StepKeepsLineage(w: World, op: Op, p: Id)
    requires Inv(w) && p in w.db.plans
    ensures p in Step(w, op).db.plans && SameLineage(w.db.plans[p], Step(w, op).db.plans[p])
    ensures IsSince(Step(w, op).db.plans, p, w.db.plans[p])
    ensures w.db.plans[p].status == Cancelled ==> Step(w, op).db.plans[p].status == Cancelled
  {
    hide StepFinish, Inv;
    if op.FinishCall? {
      FinishKeepsLineage(w, op.call, p);
    } else {
      hide AddOrderTx, Begin;
    }
  }

  lemma FinishKeepsLineage(w: World, call: CallId, p: Id)
    requires Inv(w) && p in w.db.plans
    ensures var w' := StepFinish(w, call);
            && p in w'.db.plans && SameLineage(w.db.plans[p], w'.db.plans[p]) && IsSince(w'.db.plans, p, w.db.plans[p])
            && (w.db.plans[p].status == Cancelled ==> w'.db.plans[p].status == Cancelled)
  {
    if call in w.calls {
      FinishWritesOrDrops(w, call);
      hide StepFinish, Inv, Wrote;
      if StepFinish(w, call) != Drop(w, call) {
        WriteKeepsLineage(w, StepFinish(w, call), w.calls[call].phase, p);
      }
    }
  }

  lemma {:induction false} RunKeepsLineage(w: World, ops: seq<Op>, p: Id)
    requires Inv(w) && p in w.db.plans
    ensures p in Run(w, ops).db.plans && SameLineage(w.db.plans[p], Run(w, ops).db.plans[p])
    ensures IsSince(Run(w, ops).db.plans, p, w.db.plans[p])
    ensures w.db.plans[p].status == Cancelled ==> Run(w, ops).db.plans[p].status == Cancelled
    decreases |ops|
  {
    if ops != [] {
      StepKeepsLineage(w, ops[0], p);
      StepKeepsInv(w, ops[0]);
      hide Step, Inv, SameLineage;
      assert SameLineage(w.db.plans[p], Step(w, ops[0]).db.plans[p]);
      RunKeepsLineage(Step(w, ops[0]), ops[1..], p);
      LineageIsTransitive(w.db.plans[p], Step(w, ops[0]).db.plans[p], Run(w, ops).db.plans[p]);
    }
  }

  lemma LineageIsTransitive(p: Plan, q: Plan, s: Plan)
    ensures SameLineage(p, q) && SameLineage(q, s) ==> SameLineage(p, s)
  {}

  /** Source, owner, identity and cadence of a plan never change; its revision never falls, and while it
      stands nothing of the plan has changed; a cancelled plan stays cancelled. */
  lemma LineageIsImmutable(ops: seq<Op>, more: seq<Op>, p: Id)
    requires p in Run(Empty, ops).db.plans
    ensures var before, after := Run(Empty, ops).db.plans[p], Run(Empty, ops + more).db.plans;
            && p in after && SameLineage(before, after[p]) && before.revision <= after[p].revision
            && (before.revision == after[p].revision ==> after[p] == before)
            && (before.status == Cancelled ==> after[p].status == Cancelled)
  {
    Reachable(ops);
    RunSplits(Empty, ops, more);
    hide Inv, Run, SameLineage;
    RunKeepsLineage(Run(Empty, ops), more, p);
  }

  // ----- reads of one command at different times -----

  /** The tables move on, and repeat orders stay what they were made for. */
  ghost predicate Evolves(w: World, w': World) {
    MovesOn(w.db, w'.db) && forall o | o in w.made :: o in w'.made && w'.made[o] == w.made[o]
  }

  lemma WriteKeepsMade(w: World, w': World, phase: Phase)
    requires PendingOk(w.db.orders, w.db.plans, w.made) && Wrote(w, w', phase)
    ensures forall o | o in w.made :: o in w'.made && w'.made[o] == w.made[o]
  {
    hide MadeOk, IsMadeFor, Reloaded, AllStorable, HasEntry, Total, PlanOk, NextAfter, Saved, Mutated;
  }

  lemma FinishEvolves(w: World, call: CallId)
    requires Inv(w)
    ensures Evolves(w, StepFinish(w, call))
  {
    if call in w.calls {
      FinishWritesOrDrops(w, call);
      hide StepFinish, Wrote, PlansOk, PendingOk, LedgerOk, KeysOk, CallsOk;
      if StepFinish(w, call) != Drop(w, call) {
        WriteKeepsMade(w, StepFinish(w, call), w.calls[call].phase);
        hide MovesOn;
      }
    }
  }

  lemma StepEvolves(w: World, op: Op)
    requires Inv(w)
    ensures Evolves(w, Step(w, op))
  {
    hide Inv, StepFinish, Begin;
    match op
    case AddOrder(id, o) =>
      hide AddOrderTx;
      AddedOrder(w.db.orders, id, o);
    case StartOrder(id) => StatusMovesOn(w, id, Confirmed, InProgress);
    case CompleteOrder(id) => StatusMovesOn(w, id, InProgress, Completed);
    case FinishCall(call) =>
      hide MovesOn;
      FinishEvolves(w, call);
    case _ =>
  }

  lemma {:induction false} RunEvolves(w: World, ops: seq<Op>)
    requires Inv(w)
    ensures Evolves(w, Run(w, ops))
    decreases |ops|
  {
    if ops != [] {
      StepEvolves(w, ops[0]);
      StepKeepsInv(w, ops[0]);
      hide Step, Inv;
      RunEvolves(Step(w, ops[0]), ops[1..]);
    }
  }

  ghost predicate IsCompleted(orders: map<Id, Order>, o: Id) { o in orders && orders[o].status == Completed }

  /** The source of every plan, and of every plan about to be created, is a completed order. */
  ghost predicate SourcesOk(w: World) {
    && (forall p | p in w.db.plans :: IsCompleted(w.db.orders, w.db.plans[p].source))
    && (forall c | c in w.calls && w.calls[c].phase.Planning? :: IsCompleted(w.db.orders, w.calls[c].phase.plan.source))
  }

  /** Writing leaves completed orders alone, and plans keep their source. */
  lemma WriteKeepsSources(w: World, w': World, phase: Phase)
    requires Wrote(w, w', phase)
    ensures forall o | IsCompleted(w.db.orders, o) :: IsCompleted(w'.db.orders, o)
    ensures forall p | p in w'.db.plans ::
              if p in w.db.plans then w'.db.plans[p].source == w.db.plans[p].source
              else phase.Planning? && w'.db.plans[p].source == phase.plan.source
  {
    hide Reloaded, AllStorable, HasEntry, Total, PlanOk, NextAfter, Saved, Mutated;
  }

  lemma FinishKeepsSources(w: World, call: CallId)
    requires Inv(w) && SourcesOk(w)
    ensures SourcesOk(StepFinish(w, call))
  {
    if call in w.calls {
      FinishWritesOrDrops(w, call);
      hide StepFinish, Inv, Wrote, MovesOn;
      if StepFinish(w, call) != Drop(w, call) {
        WriteKeepsSources(w, StepFinish(w, call), w.calls[call].phase);
        hide IsCompleted;
        WrittenSources(w, StepFinish(w, call), call);
      }
    }
  }

  lemma WrittenSources(w: World, w': World, call: CallId)
    requires SourcesOk(w) && call in w.calls && w'.calls == w.calls - {call}
    requires forall o | IsCompleted(w.db.orders, o) :: IsCompleted(w'.db.orders, o)
    requires forall p | p in w'.db.plans ::
               if p in w.db.plans then w'.db.plans[p].source == w.db.plans[p].source
               else w.calls[call].phase.Planning? && w'.db.plans[p].source == w.calls[call].phase.plan.source
    ensures SourcesOk(w')
  {
    hide IsCompleted;
  }

  lemma BeginKeepsSources(w: World, call: CallId, r: Request, c: Command)
    requires SourcesOk(w)
    ensures SourcesOk(StepBegin(w, call, r, c))
  {
    var begun := Begin(w.db, r, c);
    if c.CreatePlan? {
      assert begun.Go? ==> IsCompleted(w.db.orders, begun.phase.plan.source);
    } else {
      hide SourcesOk;
      assert begun.Go? ==> !begun.phase.Planning?;
    }
    hide Begin, IsCompleted;
  }

  lemma StepKeepsSources(w: World, op: Op)
    requires Inv(w) && SourcesOk(w)
    ensures SourcesOk(Step(w, op))
  {
    hide Inv, StepFinish, StepBegin;
    match op
    case AddOrder(id, o) =>
      hide AddOrderTx, Reloaded, AllStorable;
      AddedOrder(w.db.orders, id, o);
    case BeginCall(call, r, c) =>
      hide SourcesOk;
      BeginKeepsSources(w, call, r, c);
    case FinishCall(call) =>
      hide SourcesOk;
      FinishKeepsSources(w, call);
    case _ =>
  }

  lemma {:induction false} RunKeepsSources(w: World, ops: seq<Op>)
    requires Inv(w) && SourcesOk(w)
    ensures SourcesOk(Run(w, ops))
    decreases |ops|
  {
    if ops != [] {
      StepKeepsSources(w, ops[0]);
      StepKeepsInv(w, ops[0]);
      hide Step, Inv, SourcesOk;
      RunKeepsSources(Step(w, ops[0]), ops[1..]);
    }
  }

  /** The source of a plan is there, completed, and never changes. */
  lemma SourceIsImmutable(ops: seq<Op>, more: seq<Op>, p: Id)
    requires p in Run(Empty, ops).db.plans
    ensures var db, later := Run(Empty, ops).db, Run(Empty, ops + more).db;
            var source := db.plans[p].source;
            && source in db.orders && db.orders[source].status == Completed
            && source in later.orders && later.orders[source] == db.orders[source]
  {
    Reachable([]);
    RunKeepsSources(Empty, ops);
    RunKeepsSources(Empty, ops + more);
    Reachable(ops);
    RunSplits(Empty, ops, more);
    LineageIsImmutable(ops, more, p);
    RunEvolves(Run(Empty, ops), more);
    hide Run, Inv;
    assert IsCompleted(Run(Empty, ops).db.orders, Run(Empty, ops).db.plans[p].source);
    assert IsCompleted(Run(Empty, ops + more).db.orders, Run(Empty, ops + more).db.plans[p].source);
  }

  /** A confirmation that has read its plan and reads the order later, whatever happened in between, finds it
      there. It is no draft any more exactly when the plan has moved on from it; and else it is the order that
      a read at the time of the first would have given. */
  lemma OrderReadLater(ops: seq<Op>, more: seq<Op>, id: Id, order: Id)
    requires id in Run(Empty, ops).db.plans && Run(Empty, ops).db.plans[id].pending == Some(order)
    ensures var db, later := Run(Empty, ops).db, Run(Empty, ops + more).db;
            && order in db.orders && order in later.orders && id in later.plans
            && (later.orders[order].status == Draft <==> later.plans[id].pending == Some(order))
            && (later.orders[order].status == Draft ==> later.orders[order] == db.orders[order])
  {
    Reachable(ops);
    Reachable(ops + more);
    RunSplits(Empty, ops, more);
    var w, w' := Run(Empty, ops), Run(Empty, ops + more);
    RunEvolves(w, more);
    hide Run, PlansOk, LedgerOk, KeysOk, CallsOk, Reloaded, AllStorable;
    assert IsMadeFor(w.made, order, id);
    assert MadeOk(w.db.orders[order], w.db.plans, order, w.made[order]);
    assert MadeOk(w'.db.orders[order], w'.db.plans, order, w'.made[order]);
  }

  // ----- keys -----

  /** The step belongs to a command under this key. */
  predicate IsUnder(w: World, op: Op, key: Key) {
    match op
    case BeginCall(_, r, _) => r.key == key
    case FinishCall(call) => call in w.calls && w.calls[call].r.key == key
    case _ => false
  }

  lemma FinishKeepsKey(w: World, call: CallId, key: Key)
    requires key in w.db.keys
    ensures key in StepFinish(w, call).db.keys && StepFinish(w, call).db.keys[key] == w.db.keys[key]
  {
    hide CommitTx, Write, PastAfter, MadeAfter;
    if call in w.calls {
      var Call(r, phase) := w.calls[call];
      WritesIfOwn(w.db, r, phase);
      WritePutsKeys(w.db, KeysWith(w.db, r, phase), phase);
    }
  }

  lemma WritePutsKeys(db: Db, keys: map<Key, I.Record<string, (), Id>>, phase: Phase)
    ensures Write(db, keys, phase).Commit? ==> Write(db, keys, phase).db.keys == keys
  {
    hide AddOrderTx, SavePlan, SaveConfirmed, Total, Booked, MarkConfirmed, Apply;
  }

  lemma {:induction false} RunKeepsKey(w: World, ops: seq<Op>, key: Key)
    requires key in w.db.keys
    ensures key in Run(w, ops).db.keys && Run(w, ops).db.keys[key] == w.db.keys[key]
    decreases |ops|
  {
    if ops != [] {
      if ops[0].FinishCall? { FinishKeepsKey(w, ops[0].call, key); }
      hide StepFinish, Begin, AddOrderTx;
      var w' := Step(w, ops[0]);
      assert key in w'.db.keys && w'.db.keys[key] == w.db.keys[key];
      hide Step;
      RunKeepsKey(w', ops[1..], key);
    }
  }

  ghost predicate Disjoint(db: Db) { db.plans.Keys !! db.orders.Keys }

  /** A command in flight whose key has gone on file can no longer write. */
  lemma SpentWritesNothing(w: World, call: CallId)
    requires Inv(w) && call in w.calls && w.calls[call].r.key in w.db.keys && Disjoint(StepFinish(w, call).db)
    ensures StepFinish(w, call) == Drop(w, call)
  {
    var Call(r, phase) := w.calls[call];
    WritesIfOwn(w.db, r, phase);
    if Owns(w.db, r, phase) {
      SecondPartSucceedsIff(w, call);
      assert ReadOk(w.db, phase) && SpentOk(w.db, w.calls[call]);
      if CommitTx(w.db, r, phase).Commit? {
        FinishWrites(w, call);
        if phase.Confirming? { DraftIsCurrent(w, phase.id, phase.read, phase.order, phase.draft); }
        WriteMarks(w, StepFinish(w, call), phase);
        WriteMovesOn(w, StepFinish(w, call), phase, r);
        hide CommitTx, Wrote, PlansOk, PendingOk, LedgerOk, KeysOk, CallsOk, StepFinish;
        assert false;
      }
    }
  }

  /** A key is written once. Whatever happens in between, a command under a key that is on file changes
      nothing, whether it is asked anew or was already in flight, as long as no plan shares its id with an
      order. */
  lemma KeysAreWriteOnce(ops: seq<Op>, more: seq<Op>, key: Key)
    requires key in Run(Empty, ops).db.keys
    ensures var w := Run(Empty, ops + more);
            && key in w.db.keys && w.db.keys[key] == Run(Empty, ops).db.keys[key]
            && forall op | IsUnder(w, op, key) && Disjoint(Step(w, op).db) :: Step(w, op).db == w.db
  {
    RunSplits(Empty, ops, more);
    RunKeepsKey(Run(Empty, ops), more, key);
    Reachable(ops + more);
    var w := Run(Empty, ops + more);
    forall op | IsUnder(w, op, key) && Disjoint(Step(w, op).db) ensures Step(w, op).db == w.db {
      if op.FinishCall? { SpentWritesNothing(w, op.call); }
      hide Inv, StepFinish, Begin, Run;
    }
  }

  /** The key is on file for this very request. */
  predicate OnFile(db: Db, r: Request) { r.key in db.keys && db.keys[r.key].hash == r.hash }

  /** It is, and names none of these. */
  predicate NamesNone(db: Db, r: Request, ids: set<Id>) {
    OnFile(db, r) && (db.keys[r.key].ref.Pending? || db.keys[r.key].ref.result !in ids)
  }

  /** The ids of the kind that a command answers with. */
  function Ids(db: Db, kind: AnswerKind): set<Id> { if kind == AsPlan then db.plans.Keys else db.orders.Keys }

  function Asks(c: Command): AnswerKind { if c.CreatePlan? || c.Mutate? then AsPlan else AsOrder }

  predicate UsedFor(w: World, r: Request, kind: AnswerKind) {
    OnFile(w.db, r) && r.key in w.kinds && w.kinds[r.key] == kind
  }

  lemma WriteNeverDangles(db: Db, keys: map<Key, I.Record<string, (), Id>>, phase: Phase)
    ensures Write(db, keys, phase) != Raise(DanglingKey)
  {
    if phase.Proposing? { AddedOrder(db.orders, phase.order, phase.draft); }
    hide Total, Apply, Reloaded, Taken, Booked, MarkConfirmed, AttachPending;
  }

  lemma SecondPartDanglesIff(db: Db, r: Request, phase: Phase)
    ensures CommitTx(db, r, phase) == Raise(DanglingKey)
            <==> !Owns(db, r, phase) && NamesNone(db, r, Ids(db, KindOf(phase)))
  {
    WriteNeverDangles(db, KeysWith(db, r, phase), phase);
    WritesIfOwn(db, r, phase);
    hide Write;
  }

  /** A command finds a dangling key exactly when the key is on file for the same request and its result is
      not an id of the kind the command answers with; the second part may find so of a key that went on file
      meanwhile. As long as no plan shares its id with an order, that is when the key was used by a command
      that answers with the other kind. */
  lemma DanglingKeyIff(ops: seq<Op>, r: Request, c: Command, phase: Phase)
    ensures var w := Run(Empty, ops);
            Begin(w.db, r, c) == Refused(DanglingKey) <==> NamesNone(w.db, r, Ids(w.db, Asks(c)))
    ensures var w := Run(Empty, ops);
            CommitTx(w.db, r, phase) == Raise(DanglingKey)
            <==> !Owns(w.db, r, phase) && NamesNone(w.db, r, Ids(w.db, KindOf(phase)))
    ensures var w := Run(Empty, ops);
            forall kind: AnswerKind ::
              && (NamesNone(w.db, r, Ids(w.db, kind)) ==> OnFile(w.db, r) && !UsedFor(w, r, kind))
              && (Disjoint(w.db) ==> (NamesNone(w.db, r, Ids(w.db, kind)) <==> OnFile(w.db, r) && !UsedFor(w, r, kind)))
  {
    Reachable(ops);
    SecondPartDanglesIff(Run(Empty, ops).db, r, phase);
    hide Run, PlansOk, PendingOk, LedgerOk, CallsOk, CommitTx;
  }

  /** It does happen: a plan is created under a key, and the same key is then used to ask for an order. */
  lemma DanglingKeyIsReachable(o: Order, r: Request, plan: Id, source: Id, cadence: Cadence, context: Context,
                               order: Id, v: Validation)
    requires o.status == Completed && o.owner == r.actor && r.admitted && plan != source && AllStorable(o.lines)
             && DistinctIds(o.lines)
    ensures var ops := [AddOrder(source, o), BeginCall(0, r, CreatePlan(plan, source, cadence, context)),
                        FinishCall(0)];
            Begin(Run(Empty, ops).db, r, CreateNext(plan, order, v)) == Refused(DanglingKey)
  {
    hide Reloaded, Storable;
    assert forall j | 0 <= j < |o.lines| :: o.lines[j] in o.lines && !Taken(map[], o.lines, j);
    hide Taken;
    var w1 := Step(Empty, AddOrder(source, o));
    assert w1.db.orders[source].status == Completed;
    var w2 := Step(w1, BeginCall(0, r, CreatePlan(plan, source, cadence, context)));
    assert w2.calls[0].phase.Planning?;
    var w3 := Step(w2, FinishCall(0));
    assert w3.db.keys == map[r.key := I.Record(r.hash, I.Done(plan))] && w3.db.orders.Keys == {source};
    var ops := [AddOrder(source, o), BeginCall(0, r, CreatePlan(plan, source, cadence, context)), FinishCall(0)];
    hide Step;
    assert ops[1..] == [ops[1], ops[2]] && ops[1..][1..] == [ops[2]] && ops[1..][1..][1..] == [];
    assert Run(w1, ops[1..]) == Run(w2, [ops[2]]) == Run(w3, []) == w3;
  }

  // ----- dead branches -----

  /** Dead are the branches for a source order that is missing or not completed and, when plan and order are
      read together, for a pending order that is missing or no draft; and in the second part those for a
      missing plan or order, for a changed lineage or changed lines, and for a plan that rejects its own
      pending order. */
  lemma DeadBranches(ops: seq<Op>, r: Request, id: Id, order: Id, v: Validation, call: CallId)
    ensures Begin(Run(Empty, ops).db, r, CreateNext(id, order, v)) !in {Refused(UnknownOrder), Refused(NotCompleted)}
    ensures Begin(Run(Empty, ops).db, r, Confirm(id, order, v)) !in {Refused(UnknownOrder), Refused(NotDraft)}
    ensures var w := Run(Empty, ops);
            call in w.calls && CommitTx(w.db, w.calls[call].r, w.calls[call].phase).Raise? ==>
              var error := CommitTx(w.db, w.calls[call].r, w.calls[call].phase).error;
              && error !in {UnknownPlan, UnknownOrder, LineageChanged, LinesChanged, NotDraft}
              && (error == TransitionRejected ==> w.calls[call].phase.Mutating?)
  {
    Reachable(ops);
    var w := Run(Empty, ops);
    hide Run, PlansOk, PendingOk, LedgerOk, KeysOk, CommitTx, ReadOk, SpentOk, BeginConfirm;
    if id in w.db.plans {
      assert ops + [] == ops;
      SourceIsImmutable(ops, [], id);
    }
    PendingIsThere(w, r, id, order, v);
    if call in w.calls {
      SecondPartErrors(w, w.calls[call].r, w.calls[call].phase);
    }
  }

  lemma PendingIsThere(w: World, r: Request, id: Id, order: Id, v: Validation)
    requires PendingOk(w.db.orders, w.db.plans, w.made)
    ensures BeginConfirm(w.db, r, id, order, v) !in {Refused(UnknownOrder), Refused(NotDraft)}
  {
    if id in w.db.plans && w.db.plans[id].pending == Some(order) {
      assert IsMadeFor(w.made, order, id);
      assert MadeOk(w.db.orders[order], w.db.plans, order, w.made[order]);
    }
    hide Reloaded, AllStorable;
  }

  lemma SecondPartErrors(w: World, r: Request, phase: Phase)
    requires PendingOk(w.db.orders, w.db.plans, w.made) && LedgerOk(w.db.orders, w.db.ledger, w.made)
    requires ReadOk(w.db, phase) && (phase.Confirming? ==> phase.order in w.made)
    ensures var tx := CommitTx(w.db, r, phase);
            tx.Raise? ==>
              && tx.error !in {UnknownPlan, UnknownOrder, LineageChanged, LinesChanged, NotDraft}
              && (tx.error == TransitionRejected ==> phase.Mutating?)
  {
    WritesIfOwn(w.db, r, phase);
    hide Write, PendingOk, LedgerOk, ReadOk, Succeeds;
    WriteOutcome(w, KeysWith(w.db, r, phase), phase);
  }

  // ----- an undisturbed draft -----

  /** A draft that is confirmed with the validation it was created with, both without overlap: the confirmation
      commits exactly when the validated lines are in stored form and in one currency. */
  lemma UnchangedValidationConfirmsIff(ops: seq<Op>, r: Request, r': Request, id: Id, order: Id, v: Validation)
    requires var db := Run(Empty, ops).db; r.key !in db.keys && Handle(db, r, CreateNext(id, order, v)).Commit?
    requires r'.key !in Handle(Run(Empty, ops).db, r, CreateNext(id, order, v)).db.keys && r'.actor == r.actor
             && r'.admitted
    ensures var tx := Handle(Handle(Run(Empty, ops).db, r, CreateNext(id, order, v)).db, r', Confirm(id, order, v));
            && (tx.Commit? <==> InStoredForm(v.lines) && OneCurrency(v.lines))
            && (!InStoredForm(v.lines) ==> tx == Raise(LinesChanged))
  {
    Reachable(ops);
    var w := Run(Empty, ops);
    ProposesInStoredForm(w.db, r, id, order, v);
    BookedIsEntry(w.db.ledger, order);
    hide *;
    ConfirmsStoredForm(Handle(w.db, r, CreateNext(id, order, v)).db, r', id, order, v);
  }

  lemma ConfirmsStoredForm(db: Db, r: Request, id: Id, order: Id, v: Validation)
    requires r.key !in db.keys && id in db.plans && db.plans[id].owner == r.actor && db.plans[id].pending == Some(order)
    requires order in db.orders && db.orders[order].status == Draft && r.admitted && Approves(v)
    requires AllStorable(v.lines) && db.orders[order].lines == Reloaded(v.lines)
    requires Reloaded(v.lines) == v.lines <==> InStoredForm(v.lines)
    requires !Booked(db.ledger, order)
    ensures var tx := Handle(db, r, Confirm(id, order, v));
            && (tx.Commit? <==> InStoredForm(v.lines) && OneCurrency(v.lines))
            && (!InStoredForm(v.lines) ==> tx == Raise(LinesChanged))
  {
    hide Reloaded, InStoredForm, AllStorable, NextAfter, OneCurrency, Booked;
  }

  lemma ProposesInStoredForm(db: Db, r: Request, id: Id, order: Id, v: Validation)
    requires r.key !in db.keys && Handle(db, r, CreateNext(id, order, v)).Commit?
    ensures order !in db.orders && AllStorable(v.lines) && (Reloaded(v.lines) == v.lines <==> InStoredForm(v.lines))
    ensures var db' := Handle(db, r, CreateNext(id, order, v)).db;
            && order in db'.orders && db'.orders[order].lines == Reloaded(v.lines) && db'.orders[order].status == Draft
            && id in db'.plans && db'.plans[id].owner == r.actor && db'.plans[id].pending == Some(order)
            && Approves(v) && db'.ledger == db.ledger
  {
    var phase := Begin(db, r, CreateNext(id, order, v)).phase;
    AddedOrder(db.orders, order, phase.draft);
    WritesIfOwn(db, r, phase);
    assert AddOrderTx(db.orders, order, phase.draft).Commit? by { hide Reloaded, SavePlan, AddOrderTx; }
    InsertedIsDistinct(db.orders, v.lines);
    StoredFormIff(v.lines);
    hide AddOrderTx, Reloaded, InStoredForm, AllStorable, FirstError, CommitTx;
  }

  lemma InsertedIsDistinct(orders: map<Id, Order>, lines: seq<Line>)
    requires FirstError(orders, lines, 0).None?
    ensures DistinctIds(lines)
  {
    forall i, j | 0 <= i < j < |lines| ensures lines[i].id != lines[j].id { assert !Taken(orders, lines, j); }
  }

}
