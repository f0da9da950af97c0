/** Where repeat orders, revenue and plans come from, over whole runs, and what the two parts of a command do,
    exactly. The steps of the run are the history: the statements look at them and at the tables only. */
module RepeatOrderOutcomes {
  import opened Common
  import opened Amounts
  import opened OrderTotals
  import opened Calendar
  import Economics
  import I = Idempotency
  import opened RepeatOrders
  import opened RepeatOrderRuns

  type Keys = map<Key, I.Record<string, (), Id>>

  // ----- who asked -----

  /** The command has been asked for in this run. */
  ghost predicate CameFrom(ops: seq<Op>, r: Request, c: Command) { exists call :: BeginCall(call, r, c) in ops }

  /** The order is one of another workflow. */
  ghost predicate IsAdded(ops: seq<Op>, o: Id) { exists value :: AddOrder(o, value) in ops }

  /** The owner of the plan has asked for this order, was admitted, and its validation was approved with these lines. */
  ghost predicate IsApproved(ops: seq<Op>, plan: Plan, id: Id, o: Id, lines: seq<Line>) {
    exists r, v ::
      CameFrom(ops, r, CreateNext(id, o, v)) && r.admitted && r.actor == plan.owner
      && v.approved == true && v.lines == lines && v.lines != []
  }

  /** The owner of the plan has asked to confirm this order, was admitted, and its validation was approved with
      exactly these lines. */
  ghost predicate IsConfirmed(ops: seq<Op>, plan: Plan, id: Id, o: Id, lines: seq<Line>) {
    exists r, v ::
      CameFrom(ops, r, Confirm(id, o, v)) && r.admitted && r.actor == plan.owner
      && v.approved == true && v.lines == lines
  }

  /** The owner of the completed source has asked for the plan and was admitted. */
  ghost predicate IsPlanned(ops: seq<Op>, plan: Plan, id: Id) {
    exists r, context ::
      CameFrom(ops, r, CreatePlan(id, plan.source, plan.cadence, context)) && r.admitted && r.actor == plan.owner
  }

  ghost predicate CallAsked(ops: seq<Op>, c: Call) {
    && c.r.admitted && (!c.phase.Planning? ==> c.r.actor == c.phase.read.owner)
    && match c.phase
       case Planning(id, plan) => IsPlanned(ops, plan, id)
       case Proposing(id, read, order, draft) => IsApproved(ops, read, id, order, draft.lines)
       case Confirming(id, read, order, draft) => IsConfirmed(ops, read, id, order, draft.lines)
       case Mutating(id, read, t) => CameFrom(ops, c.r, Mutate(id, t))
  }

  ghost predicate OrderAsked(ops: seq<Op>, w: World, o: Id)
    requires o in w.db.orders
  {
    || IsAdded(ops, o)
    || exists id, lines ::
         id in w.db.plans && IsApproved(ops, w.db.plans[id], id, o, lines) && AllStorable(lines)
         && w.db.orders[o].lines == Reloaded(lines)
  }

  ghost predicate EntryAsked(ops: seq<Op>, w: World, e: Economics.Entry) {
    && e.entity in w.db.orders && e.source in w.db.plans
    && IsConfirmed(ops, w.db.plans[e.source], e.source, e.entity, w.db.orders[e.entity].lines)
  }

  ghost predicate AllAsked(ops: seq<Op>, w: World) {
    && (forall c | c in w.calls :: CallAsked(ops, w.calls[c]))
    && (forall o | o in w.db.orders :: OrderAsked(ops, w, o))
    && (forall e | e in w.db.ledger :: EntryAsked(ops, w, e))
    && (forall p | p in w.db.plans :: IsPlanned(ops, w.db.plans[p], p))
  }

  /** Old orders keep their lines and old plans their lineage. */
  ghost predicate Stays(w: World, w': World) {
    && OrdersMoveOn(w.db.orders, w'.db.orders)
    && forall p | p in w.db.plans :: p in w'.db.plans && SameLineage(w.db.plans[p], w'.db.plans[p])
  }

  lemma OldOrdersStayAsked(ops: seq<Op>, w: World, w': World, o: Id)
    requires Stays(w, w') && o in w.db.orders && OrderAsked(ops, w, o)
    ensures OrderAsked(ops, w', o)
  {
    hide AllStorable, Reloaded;
    if !IsAdded(ops, o) {
      var id, lines :| id in w.db.plans && IsApproved(ops, w.db.plans[id], id, o, lines) && AllStorable(lines)
                       && w.db.orders[o].lines == Reloaded(lines);
      assert IsApproved(ops, w'.db.plans[id], id, o, lines);
    }
  }

  /** What was asked for stays so; what is new has to be shown. */
  lemma StaysAsked(ops: seq<Op>, w: World, w': World)
    requires AllAsked(ops, w) && Stays(w, w')
    requires forall c | c in w'.calls :: (c in w.calls && w'.calls[c] == w.calls[c]) || CallAsked(ops, w'.calls[c])
    requires forall o | o in w'.db.orders && o !in w.db.orders :: OrderAsked(ops, w', o)
    requires forall e | e in w'.db.ledger && e !in w.db.ledger :: EntryAsked(ops, w', e)
    requires forall p | p in w'.db.plans && p !in w.db.plans :: IsPlanned(ops, w'.db.plans[p], p)
    ensures AllAsked(ops, w')
  {
    forall o | o in w.db.orders ensures OrderAsked(ops, w', o) { OldOrdersStayAsked(ops, w, w', o); }
    hide OrderAsked, CallAsked;
    forall e | e in w.db.ledger ensures EntryAsked(ops, w', e) { assert EntryAsked(ops, w, e); }
    forall p | p in w.db.plans ensures IsPlanned(ops, w'.db.plans[p], p) { assert IsPlanned(ops, w.db.plans[p], p); }
  }

  lemma BeginIsAsked(ops: seq<Op>, w: World, call: CallId, r: Request, c: Command)
    requires BeginCall(call, r, c) in ops
    ensures var begun := Begin(w.db, r, c); begun.Go? ==> CallAsked(ops, Call(r, begun.phase))
  {
    assert CameFrom(ops, r, c);
  }

  lemma FinishStays(w: World, call: CallId)
    requires Inv(w)
    ensures Stays(w, StepFinish(w, call))
  {
    if call in w.calls {
      FinishWritesOrDrops(w, call);
      forall p | p in w.db.plans
        ensures p in StepFinish(w, call).db.plans && SameLineage(w.db.plans[p], StepFinish(w, call).db.plans[p])
      {
        FinishKeepsLineage(w, call, p);
      }
      hide StepFinish, Inv, Wrote, SameLineage;
      if StepFinish(w, call) != Drop(w, call) { MovesOrders(w.db, StepFinish(w, call).db); }
    }
  }

  lemma FinishIsAsked(ops: seq<Op>, w: World, call: CallId)
    requires Inv(w) && AllAsked(ops, w)
    ensures AllAsked(ops, StepFinish(w, call))
  {
    FinishStays(w, call);
    if call in w.calls {
      FinishWritesOrDrops(w, call);
      CallIsOk(w, call);
      hide StepFinish, Inv, Wrote, MovesOn, ReadOk, Stays;
      assert CallAsked(ops, w.calls[call]);
      hide CallAsked, OrderAsked, EntryAsked, IsPlanned;
      if StepFinish(w, call) != Drop(w, call) { WriteIsAsked(ops, w, StepFinish(w, call), w.calls[call]); }
      StaysAsked(ops, w, StepFinish(w, call));
    }
  }

  lemma MovesOrders(db: Db, db': Db)
    requires MovesOn(db, db')
    ensures OrdersMoveOn(db.orders, db'.orders)
  {}

  lemma WriteIsAsked(ops: seq<Op>, w: World, w': World, c: Call)
    requires Wrote(w, w', c.phase) && ReadOk(w.db, c.phase) && CallAsked(ops, c)
    requires !c.phase.Planning? ==> c.phase.id in w.db.plans && w.db.plans[c.phase.id] == c.phase.read
    ensures forall o | o in w'.db.orders && o !in w.db.orders :: OrderAsked(ops, w', o)
    ensures forall e | e in w'.db.ledger && e !in w.db.ledger :: EntryAsked(ops, w', e)
    ensures forall p | p in w'.db.plans && p !in w.db.plans :: IsPlanned(ops, w'.db.plans[p], p)
  {
    hide Reloaded, AllStorable, Total, NextAfter, HasEntry, PlanOk;
    if c.phase.Proposing? {
      var Proposing(id, read, order, draft) := c.phase;
      assert IsApproved(ops, w'.db.plans[id], id, order, draft.lines);
    } else if c.phase.Confirming? {
      var Confirming(id, read, order, draft) := c.phase;
      assert IsConfirmed(ops, w'.db.plans[id], id, order, draft.lines);
      assert w'.db.orders[order].lines == draft.lines;
    }
  }

  lemma AddStays(w: World, id: Id, o: Order)
    ensures var w' := StepAddOrder(w, id, o);
            && Stays(w, w') && w' == w.(db := w.db.(orders := w'.db.orders))
            && forall x | x in w'.db.orders && x !in w.db.orders :: x == id
  {
    AddedOrder(w.db.orders, id, o);
    hide AddOrderTx, Reloaded, AllStorable;
  }

  lemma AddIsAsked(ops: seq<Op>, w: World, id: Id, o: Order)
    requires AllAsked(ops, w) && AddOrder(id, o) in ops
    ensures AllAsked(ops, StepAddOrder(w, id, o))
  {
    AddStays(w, id, o);
    assert IsAdded(ops, id);
    hide AddOrderTx, Reloaded, CallAsked, EntryAsked, IsPlanned, IsApproved, IsAdded, AllStorable, Stays;
    StaysAsked(ops, w, StepAddOrder(w, id, o));
  }

  lemma StatusIsAsked(ops: seq<Op>, w: World, id: Id, from: OrderStatus, to: OrderStatus)
    requires AllAsked(ops, w) && to != Draft
    ensures AllAsked(ops, StepStatus(w, id, from, to))
  {
    hide CallAsked, EntryAsked, OrderAsked, IsPlanned;
    StaysAsked(ops, w, StepStatus(w, id, from, to));
  }

  lemma BeginKeepsAsked(ops: seq<Op>, w: World, call: CallId, r: Request, c: Command)
    requires AllAsked(ops, w) && BeginCall(call, r, c) in ops
    ensures AllAsked(ops, StepBegin(w, call, r, c))
  {
    BeginIsAsked(ops, w, call, r, c);
    hide CallAsked, EntryAsked, OrderAsked, IsPlanned, Begin;
    StaysAsked(ops, w, StepBegin(w, call, r, c));
  }

  lemma StepIsAsked(ops: seq<Op>, w: World, op: Op)
    requires Inv(w) && AllAsked(ops, w) && op in ops
    ensures AllAsked(ops, Step(w, op))
  {
    hide StepFinish, StepBegin, StepStatus, StepAddOrder, Inv, CallAsked, EntryAsked, OrderAsked, IsPlanned;
    match op
    case AddOrder(id, o) => AddIsAsked(ops, w, id, o);
    case StartOrder(id) => StatusIsAsked(ops, w, id, Confirmed, InProgress);
    case CompleteOrder(id) => StatusIsAsked(ops, w, id, InProgress, Completed);
    case BeginCall(call, r, c) => BeginKeepsAsked(ops, w, call, r, c);
    case FinishCall(call) => FinishIsAsked(ops, w, call);
    case DropCall(_) => StaysAsked(ops, w, Step(w, op));
  }

  lemma {:induction false} RunIsAsked(all: seq<Op>, w: World, ops: seq<Op>)
    requires Inv(w) && AllAsked(all, w) && forall op | op in ops :: op in all
    ensures AllAsked(all, Run(w, ops))
    decreases |ops|
  {
    if ops != [] {
      StepIsAsked(all, w, ops[0]);
      StepKeepsInv(w, ops[0]);
      hide Step, Inv, AllAsked;
      RunIsAsked(all, Step(w, ops[0]), ops[1..]);
    }
  }

  lemma EverythingIsAsked(ops: seq<Op>)
    ensures AllAsked(ops, Run(Empty, ops))
  {
    Reachable([]);
    RunIsAsked(ops, Empty, ops);
  }

  /** Every order on file is one of another workflow, or was proposed under a validation that was approved, asked for
      by the owner of a plan who was admitted; its lines are those of the validation as they are kept. */
  lemma OrdersWereApproved(ops: seq<Op>, o: Id)
    requires o in Run(Empty, ops).db.orders
    ensures var db := Run(Empty, ops).db;
            || (exists value :: AddOrder(o, value) in ops)
            || exists call, r, id, v ::
                 BeginCall(call, r, CreateNext(id, o, v)) in ops && r.admitted && v.approved == true && v.lines != []
                 && id in db.plans && db.plans[id].owner == r.actor
                 && AllStorable(v.lines) && db.orders[o].lines == Reloaded(v.lines)
  {
    EverythingIsAsked(ops);
    hide Run, AllStorable, Reloaded;
    var w := Run(Empty, ops);
    assert OrderAsked(ops, w, o);
    if !IsAdded(ops, o) {
      var id, lines :| id in w.db.plans && IsApproved(ops, w.db.plans[id], id, o, lines) && AllStorable(lines)
                       && w.db.orders[o].lines == Reloaded(lines);
      var r, v :| CameFrom(ops, r, CreateNext(id, o, v)) && r.admitted && r.actor == w.db.plans[id].owner
                  && v.approved == true && v.lines == lines && v.lines != [];
      var call :| BeginCall(call, r, CreateNext(id, o, v)) in ops;
    }
  }

  /** Every revenue entry stems from a confirmation under a validation that was approved with exactly the lines of the
      order, asked for by the owner of the plan who was admitted. */
  lemma RevenueWasApproved(ops: seq<Op>, e: Economics.Entry)
    requires e in Run(Empty, ops).db.ledger
    ensures var db := Run(Empty, ops).db;
            && e.entity in db.orders
            && exists call, r, id, v ::
                 BeginCall(call, r, Confirm(id, e.entity, v)) in ops && r.admitted && v.approved == true
                 && id in db.plans && db.plans[id].owner == r.actor && v.lines == db.orders[e.entity].lines
  {
    EverythingIsAsked(ops);
    hide Run;
    var w := Run(Empty, ops);
    assert EntryAsked(ops, w, e);
    var id := e.source;
    var r, v :| CameFrom(ops, r, Confirm(id, e.entity, v)) && r.admitted && r.actor == w.db.plans[id].owner
                && v.approved == true && v.lines == w.db.orders[e.entity].lines;
    var call :| BeginCall(call, r, Confirm(id, e.entity, v)) in ops;
  }

  /** Every plan was asked for by its owner, who was admitted, with this source and cadence. */
  lemma PlansWereAsked(ops: seq<Op>, p: Id)
    requires p in Run(Empty, ops).db.plans
    ensures var plan := Run(Empty, ops).db.plans[p];
            exists call, r, context ::
              BeginCall(call, r, CreatePlan(p, plan.source, plan.cadence, context)) in ops && r.admitted
              && r.actor == plan.owner
  {
    EverythingIsAsked(ops);
    hide Run;
    var plan := Run(Empty, ops).db.plans[p];
    var r, context :| CameFrom(ops, r, CreatePlan(p, plan.source, plan.cadence, context)) && r.admitted
                      && r.actor == plan.owner;
    var call :| BeginCall(call, r, CreatePlan(p, plan.source, plan.cadence, context)) in ops;
  }

  /** A plan that is on file is changed by its owner only, in a call that was admitted. */
  lemma OnlyTheOwnerChanges(ops: seq<Op>, op: Op, p: Id)
    requires p in Run(Empty, ops).db.plans
    ensures var w := Run(Empty, ops);
            var plans := Step(w, op).db.plans;
            && p in plans
            && (plans[p] != w.db.plans[p] ==>
                  op.FinishCall? && op.call in w.calls && w.calls[op.call].r.admitted
                  && w.calls[op.call].r.actor == w.db.plans[p].owner)
  {
    EverythingIsAsked(ops);
    Reachable(ops);
    hide Run, Inv, AllAsked, Step;
    if op.FinishCall? {
      FinishChangesOwn(ops, Run(Empty, ops), op.call, p);
      StepIsFinish(Run(Empty, ops), op);
    } else {
      OthersKeepPlans(Run(Empty, ops), op);
    }
  }

  lemma StepIsFinish(w: World, op: Op)
    requires op.FinishCall?
    ensures Step(w, op) == StepFinish(w, op.call)
  {}

  lemma OthersKeepPlans(w: World, op: Op)
    requires !op.FinishCall?
    ensures Step(w, op).db.plans == w.db.plans
  {
    hide AddOrderTx, Begin;
  }

  lemma FinishChangesOwn(ops: seq<Op>, w: World, call: CallId, p: Id)
    requires Inv(w) && AllAsked(ops, w) && p in w.db.plans
    ensures var plans := StepFinish(w, call).db.plans;
            && p in plans
            && (plans[p] != w.db.plans[p] ==>
                  call in w.calls && w.calls[call].r.admitted && w.calls[call].r.actor == w.db.plans[p].owner)
  {
    if call in w.calls {
      FinishWritesOrDrops(w, call);
      assert CallAsked(ops, w.calls[call]);
      hide StepFinish, Inv, AllAsked, IsPlanned, IsApproved, IsConfirmed, CameFrom, Wrote, MovesOn;
      if StepFinish(w, call) != Drop(w, call) {
        WriteKeepsOthers(w, StepFinish(w, call), w.calls[call].phase, p);
      }
    }
  }

  lemma WriteKeepsOthers(w: World, w': World, phase: Phase, p: Id)
    requires Wrote(w, w', phase) && p in w.db.plans
    ensures p in w'.db.plans && (w'.db.plans[p] != w.db.plans[p] ==> phase.id == p && !phase.Planning?)
  {
    hide Reloaded, AllStorable, Total, NextAfter, HasEntry, PlanOk;
  }

  // ----- the reading part, exactly -----

  /** When a command goes on to write, under a key that is not on file yet. */
  ghost predicate GoesOn(db: Db, r: Request, c: Command) {
    r.admitted
    && match c
       case CreatePlan(_, source, _, _) =>
         source in db.orders && db.orders[source].owner == r.actor && db.orders[source].status == Completed
       case CreateNext(id, _, v) =>
         && id in db.plans && db.plans[id].owner == r.actor
         && db.plans[id].status == Active && db.plans[id].pending.None?
         && db.plans[id].source in db.orders && db.orders[db.plans[id].source].status == Completed
         && v.approved == true && v.lines != []
       case Confirm(id, order, v) =>
         && id in db.plans && db.plans[id].owner == r.actor && db.plans[id].pending == Some(order)
         && order in db.orders && db.orders[order].status == Draft
         && v.approved == true && v.lines == db.orders[order].lines
       case Mutate(id, _) => id in db.plans && db.plans[id].owner == r.actor
  }

  /** What it then takes along. */
  ghost function Taken(db: Db, r: Request, c: Command): Phase
    requires GoesOn(db, r, c)
  {
    match c
    case CreatePlan(id, source, cadence, context) =>
      Planning(id, Plan(source, r.actor, db.orders[source].identity, cadence, context, Active, None, None, 0, 1))
    case CreateNext(id, order, v) =>
      var source := db.orders[db.plans[id].source];
      Proposing(id, db.plans[id], order, Order(source.identity, r.actor, source.sourceAction, v.lines, Draft))
    case Confirm(id, order, _) => Confirming(id, db.plans[id], order, db.orders[order])
    case Mutate(id, t) => Mutating(id, db.plans[id], t)
  }

  /** A key that is on file answers its request with the row it names; under a free key a command goes on exactly if
      its owner asks, it is admitted, and plan, order and validation permit it. */
  lemma ReadingOutcome(db: Db, r: Request, c: Command)
    ensures r.key !in db.keys ==>
              if GoesOn(db, r, c) then Begin(db, r, c) == Go(Taken(db, r, c)) else Begin(db, r, c).Refused?
    ensures r.key in db.keys ==>
              var known := db.keys[r.key];
              if known.hash == r.hash && known.ref.Done? && (c.CreatePlan? || c.Mutate?) && known.ref.result in db.plans
              then Begin(db, r, c) == Answered(PlanAnswer(known.ref.result, db.plans[known.ref.result]))
              else if known.hash == r.hash && known.ref.Done? && (c.CreateNext? || c.Confirm?)
                      && known.ref.result in db.orders
              then Begin(db, r, c) == Answered(OrderAnswer(known.ref.result, db.orders[known.ref.result]))
              else Begin(db, r, c).Refused?
  {}

  // ----- the writing part, exactly -----

  /** When the plan permits a change. */
  ghost predicate Permits(p: Plan, t: Transition) {
    match t
    case Pause => p.status == Active
    case Resume => p.status == Paused
    case SkipOnce => p.status == Active && p.pending.None?
    case Cancel => p.status != Cancelled
    case EditContext(_) => p.status != Cancelled && p.pending.None?
  }

  /** The plan after a change: a skip moves the date on by one cadence step and is counted. */
  ghost function After(p: Plan, t: Transition): Plan {
    match t
    case Pause => p.(status := Paused)
    case Resume => p.(status := Active)
    case SkipOnce =>
      p.(context := p.context.(scheduledFor := NextAfter(p.cadence, p.context.scheduledFor)), skipped := p.skipped + 1)
    case Cancel => p.(status := Cancelled)
    case EditContext(context) => p.(context := context)
  }

  /** The plan after its pending order was confirmed: an active one moves its date on. */
  ghost function AfterOrder(p: Plan, order: Id): Plan {
    p.(last := Some(order), pending := None,
       context := if p.status != Active then p.context
                  else p.context.(scheduledFor := NextAfter(p.cadence, p.context.scheduledFor)))
  }

  lemma TransitionsAgree(p: Plan, t: Transition, order: Id)
    ensures Apply(p, t) == if Permits(p, t) then Some(After(p, t)) else None
    ensures MarkConfirmed(p, order) == if p.pending == Some(order) then Some(AfterOrder(p, order)) else None
    ensures AttachPending(p, order)
            == if p.status != Cancelled && p.pending.None? then Some(p.(pending := Some(order))) else None
  {
    hide NextAfter;
  }

  /** Every line is kept with a positive quantity, and no line id is in use. */
  ghost predicate LinesFit(orders: map<Id, Order>, lines: seq<Line>) {
    && (forall l | l in lines :: ToEightDecimals(l.quantity) > 0.0)
    && (forall i, j | 0 <= i < j < |lines| :: lines[i].id != lines[j].id)
    && (forall o, l, k | o in orders && l in orders[o].lines && k in lines :: l.id != k.id)
  }

  lemma LinesAgree(orders: map<Id, Order>, id: Id, o: Order)
    ensures AddOrderTx(orders, id, o).Commit? <==> id !in orders && LinesFit(orders, o.lines)
  {
    hide ToEightDecimals, Reloaded;
    var lines := o.lines;
    if LinesFit(orders, lines) {
      forall j | 0 <= j < |lines| ensures Storable(lines[j]) && !RepeatOrders.Taken(orders, lines, j) {
        assert lines[j] in lines;
      }
    }
    if forall j | 0 <= j < |lines| :: Storable(lines[j]) && !RepeatOrders.Taken(orders, lines, j) {
      forall l | l in lines ensures ToEightDecimals(l.quantity) > 0.0 {
        var j :| 0 <= j < |lines| && lines[j] == l;
        assert Storable(lines[j]);
      }
      forall i, j | 0 <= i < j < |lines| ensures lines[i].id != lines[j].id {
        assert !RepeatOrders.Taken(orders, lines, j);
      }
      forall x, l, k | x in orders && l in orders[x].lines && k in lines ensures l.id != k.id {
        var j :| 0 <= j < |lines| && lines[j] == k;
        var i :| 0 <= i < |orders[x].lines| && orders[x].lines[i] == l;
        assert !RepeatOrders.Taken(orders, lines, j);
      }
    }
  }

  ghost predicate IsCurrent(db: Db, id: Id, read: Plan) { id in db.plans && db.plans[id] == read }

  lemma ProposesExactly(db: Db, keys: Keys, id: Id, read: Plan, order: Id, draft: Order)
    requires ReadOk(db, Proposing(id, read, order, draft))
    ensures var tx := Propose(db, keys, id, read, order, draft);
            if IsCurrent(db, id, read) && order !in db.orders && LinesFit(db.orders, draft.lines) then
              && tx.Commit? && AllStorable(draft.lines)
              && tx.db == db.(orders := db.orders[order := draft.(lines := Reloaded(draft.lines))], keys := keys,
                              plans := db.plans[id := read.(pending := Some(order), revision := read.revision + 1)])
            else tx.Raise?
  {
    AddedOrder(db.orders, order, draft);
    LinesAgree(db.orders, order, draft);
    SavesIfCurrent(db.plans, id, read, read.(pending := Some(order)));
    hide AddOrderTx, SavePlan, Reloaded, AllStorable, LinesFit;
  }

  lemma BooksExactly(w: World, keys: Keys, id: Id, read: Plan, order: Id, draft: Order)
    requires PendingOk(w.db.orders, w.db.plans, w.made) && LedgerOk(w.db.orders, w.db.ledger, w.made) && order in w.made
    requires ReadOk(w.db, Confirming(id, read, order, draft))
    ensures var tx, db := Book(w.db, keys, id, read, order, draft), w.db;
            if IsCurrent(db, id, read) && Total(draft.lines).Ok? then
              && tx.Commit? && order in db.orders
              && var entry := Economics.Entry(order, Economics.Revenue, Total(draft.lines).value, id);
                 tx.db == Db(db.orders[order := db.orders[order].(status := Confirmed)],
                             db.plans[id := AfterOrder(read, order).(revision := read.revision + 1)],
                             db.ledger + [entry], keys)
            else tx.Raise?
  {
    BookOutcome(w, keys, id, read, order, draft);
    TransitionsAgree(read, Pause, order);
    SavesIfCurrent(w.db.plans, id, read, AfterOrder(read, order));
    hide PendingOk, LedgerOk, Total, SavePlan, Booked, NextAfter, Reloaded, MarkConfirmed;
  }

  lemma ChangesExactly(db: Db, keys: Keys, id: Id, read: Plan, t: Transition)
    requires ReadOk(db, Mutating(id, read, t))
    ensures var tx := Change(db, keys, id, read, t);
            if IsCurrent(db, id, read) && Permits(read, t) then
              && tx.Commit?
              && tx.db == db.(plans := db.plans[id := After(read, t).(revision := read.revision + 1)], keys := keys)
            else tx.Raise?
  {
    TransitionsAgree(read, t, id);
    SavesIfCurrent(db.plans, id, read, After(read, t));
    hide SavePlan, NextAfter, Apply, Permits;
  }

  /** What is in the database once `phase` has been written under `keys`, or was not admissible. */
  ghost predicate IsWritten(db: Db, db': Db, keys: Keys, phase: Phase) {
    match phase
    case Planning(id, plan) =>
      db' == if id !in db.plans then db.(plans := db.plans[id := plan], keys := keys) else db
    case Proposing(id, read, order, draft) =>
      if IsCurrent(db, id, read) && order !in db.orders && LinesFit(db.orders, draft.lines) then
        && AllStorable(draft.lines)
        && db' == db.(orders := db.orders[order := draft.(lines := Reloaded(draft.lines))], keys := keys,
                      plans := db.plans[id := read.(pending := Some(order), revision := read.revision + 1)])
      else db' == db
    case Confirming(id, read, order, draft) =>
      if IsCurrent(db, id, read) && Total(draft.lines).Ok? then
        && order in db.orders
        && db' == Db(db.orders[order := db.orders[order].(status := Confirmed)],
                     db.plans[id := AfterOrder(read, order).(revision := read.revision + 1)],
                     db.ledger + [Economics.Entry(order, Economics.Revenue, Total(draft.lines).value, id)], keys)
      else db' == db
    case Mutating(id, read, t) =>
      db' == if IsCurrent(db, id, read) && Permits(read, t)
             then db.(plans := db.plans[id := After(read, t).(revision := read.revision + 1)], keys := keys) else db
  }

  lemma WritesExactly(w: World, keys: Keys, phase: Phase)
    requires PendingOk(w.db.orders, w.db.plans, w.made) && LedgerOk(w.db.orders, w.db.ledger, w.made)
    requires ReadOk(w.db, phase) && (phase.Confirming? ==> phase.order in w.made)
    ensures var tx := Write(w.db, keys, phase); IsWritten(w.db, if tx.Commit? then tx.db else w.db, keys, phase)
  {
    hide PendingOk, LedgerOk, Propose, Book, Change, IsCurrent, LinesFit, Permits;
    match phase
    case Planning(_, _) =>
    case Proposing(id, read, order, draft) => ProposesExactly(w.db, keys, id, read, order, draft);
    case Confirming(id, read, order, draft) => BooksExactly(w, keys, id, read, order, draft);
    case Mutating(id, read, t) => ChangesExactly(w.db, keys, id, read, t);
  }

  lemma FinishExactly(w: World, call: CallId)
    requires Inv(w) && call in w.calls
    ensures var Call(r, phase) := w.calls[call];
            var w' := StepFinish(w, call);
            && w'.calls == w.calls - {call}
            && (Owns(w.db, r, phase) ==> IsWritten(w.db, w'.db, KeysWith(w.db, r, phase), phase))
            && (!Owns(w.db, r, phase) ==> w'.db == w.db)
  {
    var Call(r, phase) := w.calls[call];
    CallIsOk(w, call);
    WritesIfOwn(w.db, r, phase);
    hide CommitTx, Write, PlansOk, PendingOk, LedgerOk, KeysOk, CallsOk, ReadOk, SpentOk, Owns, PastAfter, MadeAfter,
         IsWritten, KeysWith;
    WritesExactly(w, KeysWith(w.db, r, phase), phase);
  }

  /** What a command leaves, in every case. If its key is free, or on file for this request and target, it
      writes what it has prepared exactly if its plan is as it was read and that is admissible by itself.
      Otherwise nothing is written. */
  lemma WritingOutcome(ops: seq<Op>, call: CallId)
    requires call in Run(Empty, ops).calls
    ensures var w := Run(Empty, ops);
            var Call(r, phase) := w.calls[call];
            var w' := Step(w, FinishCall(call));
            var own := I.Record(r.hash, I.Done(Target(phase)));
            && w'.calls == w.calls - {call}
            && if r.key in w.db.keys ==> w.db.keys[r.key] == own
               then IsWritten(w.db, w'.db, w.db.keys[r.key := own], phase)
               else w'.db == w.db
  {
    Reachable(ops);
    hide Run, Inv, StepFinish, IsWritten;
    FinishExactly(Run(Empty, ops), call);
    var w := Run(Empty, ops);
    var Call(r, phase) := w.calls[call];
    if r.key in w.db.keys { assert w.db.keys[r.key := w.db.keys[r.key]] == w.db.keys; }
  }

  // ----- errors -----

  /** Why a plan or an order is refused before anything is written: first what is missing, then whose it is, then its
      state, then admission, then the validation. */
  lemma RefusalsOfPlans(db: Db, r: Request, id: Id, source: Id, cadence: Cadence, context: Context, t: Transition)
    requires r.key !in db.keys
    ensures var begun := Begin(db, r, CreatePlan(id, source, cadence, context));
            var there := source in db.orders;
            var owned := there && db.orders[source].owner == r.actor;
            var done := owned && db.orders[source].status == Completed;
            && (begun == Refused(UnknownOrder) <==> !there)
            && (begun == Refused(OutOfScope) <==> there && !owned)
            && (begun == Refused(NotCompleted) <==> owned && !done)
            && (begun == Refused(NotAuthorized) <==> done && !r.admitted)
    ensures var begun := Begin(db, r, Mutate(id, t));
            var owned := id in db.plans && db.plans[id].owner == r.actor;
            && (begun == Refused(UnknownPlan) <==> id !in db.plans)
            && (begun == Refused(OutOfScope) <==> id in db.plans && !owned)
            && (begun == Refused(NotAuthorized) <==> owned && !r.admitted)
  {}

  lemma RefusalsOfOrders(db: Db, r: Request, id: Id, order: Id, v: Validation)
    requires r.key !in db.keys && id in db.plans && db.plans[id].owner == r.actor
    ensures var begun, p := Begin(db, r, CreateNext(id, order, v)), db.plans[id];
            var free := p.status == Active && p.pending.None?;
            var done := free && p.source in db.orders && db.orders[p.source].status == Completed;
            && (begun == Refused(NotActive) <==> p.status != Active)
            && (begun == Refused(AlreadyPending) <==> p.status == Active && p.pending.Some?)
            && (begun == Refused(UnknownOrder) <==> free && p.source !in db.orders)
            && (begun == Refused(NotCompleted) <==> free && p.source in db.orders && !done)
            && (begun == Refused(NotAuthorized) <==> done && !r.admitted)
            && (begun == Refused(ValidationFailed) <==> done && r.admitted && !(v.approved == true && v.lines != []))
    ensures var begun, p := Begin(db, r, Confirm(id, order, v)), db.plans[id];
            var pending := p.pending == Some(order);
            var draft := pending && order in db.orders && db.orders[order].status == Draft;
            && (begun == Refused(NotThePending) <==> !pending)
            && (begun == Refused(UnknownOrder) <==> pending && order !in db.orders)
            && (begun == Refused(NotDraft) <==> pending && order in db.orders && !draft)
            && (begun == Refused(NotAuthorized) <==> draft && !r.admitted)
            && (begun == Refused(ValidationFailed) <==> draft && r.admitted && !(v.approved == true && v.lines != []))
            && (begun == Refused(LinesChanged) <==>
                  draft && r.admitted && v.approved == true && v.lines != [] && v.lines != db.orders[order].lines)
  {}

  /** What saving an order as confirmed, and a plan under the revision that was read, does and rejects, whatever is on
      file. */
  lemma SavingOutcome(orders: map<Id, Order>, id: Id, o: Order, plans: map<Id, Plan>, p: Plan, expected: nat)
    requires o.status == Confirmed
    ensures var tx := SaveConfirmed(orders, id, o);
            if id !in orders then tx == Raise(UnknownOrder)
            else if orders[id].owner != o.owner || orders[id].identity != o.identity
                    || orders[id].sourceAction != o.sourceAction then tx == Raise(LineageChanged)
            else if orders[id].status !in {Draft, Confirmed} then tx == Raise(StatusRejected)
            else if orders[id].lines == o.lines then tx == Commit(orders[id := o], ())
            else tx == Raise(if orders[id].status == Draft then StatusRejected else LinesChanged)
    ensures var tx := SavePlan(plans, id, p, expected);
            if id !in plans then tx == Raise(UnknownPlan)
            else if plans[id].revision != expected then tx == Raise(RevisionConflict)
            else if plans[id].owner != p.owner || plans[id].source != p.source || plans[id].identity != p.identity
                    || plans[id].cadence != p.cadence then tx == Raise(LineageChanged)
            else tx == Commit(plans[id := p.(revision := expected + 1)], p.(revision := expected + 1))
  {}
}
