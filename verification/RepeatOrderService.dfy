/** The repeat-order commands as a service that updates its tables in place, one unit of work per call. The
    reading and the writing part of a command are methods of their own, so that they can be taken apart. */
module RepeatOrderService {
  import opened Common
  import opened Amounts
  import opened OrderTotals
  import opened Calendar
  import Economics
  import I = Idempotency
  import opened RepeatOrders

  class RepeatOrderService {
    var orders: map<Id, Order>
    var plans: map<Id, Plan>
    var ledger: seq<Economics.Entry>
    var keys: map<Key, I.Record<string, (), Id>>

    constructor (db: Db)
      ensures Tables() == db
    {
      orders, plans, ledger, keys := db.orders, db.plans, db.ledger, db.keys;
    }

    function Tables(): Db
      reads this
    {
      Db(orders, plans, ledger, keys)
    }

    method Rollback(snapshot: Db)
      modifies this
      ensures Tables() == snapshot
    {
      orders, plans, ledger, keys := snapshot.orders, snapshot.plans, snapshot.ledger, snapshot.keys;
    }

    /** Insert the header, then the lines one by one; a line that the table rejects undoes the insert. */
    method InsertOrder(id: Id, o: Order) returns (tx: Tx<map<Id, Order>, (), RepeatError>)
      modifies this`orders
      ensures tx == AddOrderTx(old(orders), id, o)
      ensures orders == if tx.Commit? then tx.db else old(orders)
    {
      if id in orders {
        return Raise(DuplicateOrder);
      }
      hide Storable, Reloaded;
      var taken := set x, i | x in orders && 0 <= i < |orders[x].lines| :: orders[x].lines[i].id;
      forall j: nat, mine: set<Id> | j < |o.lines| && mine == set i | 0 <= i < j :: o.lines[i].id
        ensures Taken(orders, o.lines, j) <==> o.lines[j].id in taken || o.lines[j].id in mine
      {}
      hide Taken;
      var mine: set<Id> := {};
      var j := 0;
      while j < |o.lines|
        invariant 0 <= j <= |o.lines|
        invariant mine == set i | 0 <= i < j :: o.lines[i].id
        invariant FirstError(orders, o.lines, 0) == FirstError(orders, o.lines, j)
      {
        if !Storable(o.lines[j]) {
          return Raise(LineRejected);
        }
        if o.lines[j].id in taken || o.lines[j].id in mine {
          return Raise(DuplicateLine);
        }
        mine := mine + {o.lines[j].id};
        j := j + 1;
      }
      orders := orders[id := o.(lines := Reloaded(o.lines))];
      tx := Commit(orders, ());
    }

    method Save(id: Id, p: Plan, expected: nat) returns (tx: Tx<map<Id, Plan>, Plan, RepeatError>)
      modifies this`plans
      ensures tx == SavePlan(old(plans), id, p, expected)
      ensures plans == if tx.Commit? then tx.db else old(plans)
    {
      if id !in plans {
        return Raise(UnknownPlan);
      }
      var current := plans[id];
      if current.revision != expected {
        return Raise(RevisionConflict);
      }
      if current.owner != p.owner || current.source != p.source || current.identity != p.identity
        || current.cadence != p.cadence {
        return Raise(LineageChanged);
      }
      var saved := p.(revision := current.revision + 1);
      plans := plans[id := saved];
      tx := Commit(plans, saved);
    }

    /** Reserve the key; the answer is what it then refers to. */
    method Reserve(r: Request, target: Id) returns (reserved: Result<Ref, I.IdempotencyError>)
      modifies this`keys
      ensures var tx := I.ReserveTx(old(keys), r.key, r.hash, I.Done(target));
              && reserved == (if tx.Raise? then Err(tx.error) else Ok(tx.answer.ref))
              && keys == if tx.Commit? then tx.db else old(keys)
    {
      if r.key in keys {
        if keys[r.key].hash != r.hash {
          return Err(I.HashConflict);
        }
        return Ok(keys[r.key].ref);
      }
      keys := keys[r.key := I.Record(r.hash, I.Done(target))];
      reserved := Ok(I.Done(target));
    }

    method SaveOrder(id: Id, o: Order) returns (tx: Tx<map<Id, Order>, (), RepeatError>)
      requires o.status == Confirmed
      modifies this`orders
      ensures tx == SaveConfirmed(old(orders), id, o)
      ensures orders == if tx.Commit? then tx.db else old(orders)
    {
      if id !in orders {
        return Raise(UnknownOrder);
      }
      var current := orders[id];
      if current.owner != o.owner || current.identity != o.identity || current.sourceAction != o.sourceAction {
        return Raise(LineageChanged);
      }
      if current.status == Confirmed {
        if current.lines != o.lines {
          return Raise(LinesChanged);
        }
      } else if current.status != Draft || current.lines != o.lines {
        return Raise(StatusRejected);
      }
      orders := orders[id := o];
      tx := Commit(orders, ());
    }

    // ----- creating a plan -----

    method ReadForPlan(r: Request, id: Id, source: Id, cadence: Cadence, context: Context) returns (begun: Begun)
      ensures begun == BeginCreatePlan(Tables(), r, id, source, cadence, context)
    {
      if r.key in keys {
        return Replay(Tables(), r, StoredPlan(Tables(), keys[r.key].ref));
      }
      if source !in orders {
        return Refused(UnknownOrder);
      }
      if orders[source].owner != r.actor {
        return Refused(OutOfScope);
      }
      if orders[source].status != Completed {
        return Refused(NotCompleted);
      }
      if !r.admitted {
        return Refused(NotAuthorized);
      }
      begun := Go(Planning(id, Plan(source, r.actor, orders[source].identity, cadence, context, Active, None, None,
                                    0, 1)));
    }

    method WritePlan(r: Request, id: Id, plan: Plan) returns (tx: Outcome)
      modifies this
      ensures tx == CommitTx(old(Tables()), r, Planning(id, plan))
      ensures Tables() == if tx.Commit? then tx.db else old(Tables())
    {
      var before := Tables();
      var reserved := Reserve(r, id);
      if reserved.Err? {
        return Raise(KeyConflict(reserved.error));
      }
      if reserved.value != I.Done(id) {
        var stored := StoredPlan(Tables(), reserved.value);
        return if stored.Err? then Raise(stored.error) else Commit(Tables(), stored.value);
      }
      if id in plans {
        Rollback(before);
        return Raise(DuplicatePlan);
      }
      plans := plans[id := plan];
      tx := Commit(Tables(), PlanAnswer(id, plan));
    }

    method CreatePlan(r: Request, id: Id, source: Id, cadence: Cadence, context: Context) returns (tx: Outcome)
      modifies this
      ensures tx == Handle(old(Tables()), r, Command.CreatePlan(id, source, cadence, context))
      ensures Tables() == if tx.Commit? then tx.db else old(Tables())
    {
      hide CommitTx;
      var begun := ReadForPlan(r, id, source, cadence, context);
      match begun
      case Go(Planning(i, plan)) => tx := WritePlan(r, i, plan);
      case Answered(answer) => tx := Commit(Tables(), answer);
      case Refused(error) => tx := Raise(error);
    }

    // ----- creating the next order -----

    method ReadForOrder(r: Request, id: Id, order: Id, v: Validation) returns (begun: Begun)
      ensures begun == BeginCreateNext(Tables(), r, id, order, v)
    {
      if r.key in keys {
        return Replay(Tables(), r, StoredOrder(Tables(), keys[r.key].ref));
      }
      if id !in plans {
        return Refused(UnknownPlan);
      }
      var plan := plans[id];
      if plan.owner != r.actor {
        return Refused(OutOfScope);
      }
      if plan.status != Active {
        return Refused(NotActive);
      }
      if plan.pending.Some? {
        return Refused(AlreadyPending);
      }
      if plan.source !in orders {
        return Refused(UnknownOrder);
      }
      var source := orders[plan.source];
      if source.status != Completed {
        return Refused(NotCompleted);
      }
      if !r.admitted {
        return Refused(NotAuthorized);
      }
      if !Approves(v) {
        return Refused(ValidationFailed);
      }
      begun := Go(Proposing(id, plan, order, Order(source.identity, r.actor, source.sourceAction, v.lines, Draft)));
    }

    method WriteOrder(r: Request, id: Id, plan: Plan, order: Id, draft: Order) returns (tx: Outcome)
      modifies this
      ensures tx == CommitTx(old(Tables()), r, Proposing(id, plan, order, draft))
      ensures Tables() == if tx.Commit? then tx.db else old(Tables())
    {
      hide AddOrderTx, Reloaded, AttachPending, SavePlan;
      var before := Tables();
      var reserved := Reserve(r, order);
      if reserved.Err? {
        return Raise(KeyConflict(reserved.error));
      }
      if reserved.value != I.Done(order) {
        var stored := StoredOrder(Tables(), reserved.value);
        return if stored.Err? then Raise(stored.error) else Commit(Tables(), stored.value);
      }
      var added := InsertOrder(order, draft);
      if added.Raise? {
        Rollback(before);
        return Raise(added.error);
      }
      var attached := AttachPending(plan, order);
      if attached.None? {
        Rollback(before);
        return Raise(TransitionRejected);
      }
      var saved := Save(id, attached.value, plan.revision);
      if saved.Raise? {
        Rollback(before);
        return Raise(saved.error);
      }
      tx := Commit(Tables(), OrderAnswer(order, draft));
    }

    method CreateNextRepeatOrder(r: Request, id: Id, order: Id, v: Validation) returns (tx: Outcome)
      modifies this
      ensures tx == Handle(old(Tables()), r, CreateNext(id, order, v))
      ensures Tables() == if tx.Commit? then tx.db else old(Tables())
    {
      hide CommitTx;
      var begun := ReadForOrder(r, id, order, v);
      match begun
      case Go(Proposing(i, plan, o, draft)) => tx := WriteOrder(r, i, plan, o, draft);
      case Answered(answer) => tx := Commit(Tables(), answer);
      case Refused(error) => tx := Raise(error);
    }

    // ----- confirming an order -----

    method ReadForConfirmation(r: Request, id: Id, order: Id, v: Validation) returns (begun: Begun)
      ensures begun == BeginConfirm(Tables(), r, id, order, v)
    {
      if r.key in keys {
        return Replay(Tables(), r, StoredOrder(Tables(), keys[r.key].ref));
      }
      if id !in plans {
        return Refused(UnknownPlan);
      }
      var plan := plans[id];
      if plan.owner != r.actor {
        return Refused(OutOfScope);
      }
      if plan.pending != Some(order) {
        return Refused(NotThePending);
      }
      if order !in orders {
        return Refused(UnknownOrder);
      }
      if orders[order].status != Draft {
        return Refused(NotDraft);
      }
      if !r.admitted {
        return Refused(NotAuthorized);
      }
      if !Approves(v) {
        return Refused(ValidationFailed);
      }
      if v.lines != orders[order].lines {
        return Refused(LinesChanged);
      }
      begun := Go(Confirming(id, plan, order, orders[order]));
    }

    method WriteConfirmation(r: Request, id: Id, plan: Plan, order: Id, draft: Order) returns (tx: Outcome)
      modifies this
      ensures tx == CommitTx(old(Tables()), r, Confirming(id, plan, order, draft))
      ensures Tables() == if tx.Commit? then tx.db else old(Tables())
    {
      hide Total, NextAfter, MarkConfirmed, SavePlan, SaveConfirmed, Booked;
      var before := Tables();
      var reserved := Reserve(r, order);
      if reserved.Err? {
        return Raise(KeyConflict(reserved.error));
      }
      if reserved.value != I.Done(order) {
        var stored := StoredOrder(Tables(), reserved.value);
        return if stored.Err? then Raise(stored.error) else Commit(Tables(), stored.value);
      }
      var confirmed: Order := draft.(status := Confirmed);
      var kept := SaveOrder(order, confirmed);
      if kept.Raise? {
        Rollback(before);
        return Raise(kept.error);
      }
      var total := ComputeTotal(confirmed.lines);
      if total.Err? {
        Rollback(before);
        return Raise(TotalUndefined(total.error));
      }
      if Booked(ledger, order) {
        Rollback(before);
        return Raise(DuplicateEntry);
      }
      ledger := ledger + [Economics.Entry(order, Economics.Revenue, total.value, id)];
      var marked := MarkConfirmed(plan, order);
      if marked.None? {
        Rollback(before);
        return Raise(TransitionRejected);
      }
      var saved := Save(id, marked.value, plan.revision);
      if saved.Raise? {
        Rollback(before);
        return Raise(saved.error);
      }
      tx := Commit(Tables(), OrderAnswer(order, confirmed));
    }

    method ConfirmRepeatOrder(r: Request, id: Id, order: Id, v: Validation) returns (tx: Outcome)
      modifies this
      ensures tx == Handle(old(Tables()), r, Confirm(id, order, v))
      ensures Tables() == if tx.Commit? then tx.db else old(Tables())
    {
      hide CommitTx;
      var begun := ReadForConfirmation(r, id, order, v);
      match begun
      case Go(Confirming(i, plan, o, draft)) => tx := WriteConfirmation(r, i, plan, o, draft);
      case Answered(answer) => tx := Commit(Tables(), answer);
      case Refused(error) => tx := Raise(error);
    }

    // ----- pause, resume, skip, cancel, edit -----

    method ReadForChange(r: Request, id: Id, t: Transition) returns (begun: Begun)
      ensures begun == BeginMutate(Tables(), r, id, t)
    {
      if r.key in keys {
        return Replay(Tables(), r, StoredPlan(Tables(), keys[r.key].ref));
      }
      if id !in plans {
        return Refused(UnknownPlan);
      }
      if plans[id].owner != r.actor {
        return Refused(OutOfScope);
      }
      if !r.admitted {
        return Refused(NotAuthorized);
      }
      begun := Go(Mutating(id, plans[id], t));
    }

    method WriteChange(r: Request, id: Id, plan: Plan, t: Transition) returns (tx: Outcome)
      modifies this
      ensures tx == CommitTx(old(Tables()), r, Mutating(id, plan, t))
      ensures Tables() == if tx.Commit? then tx.db else old(Tables())
    {
      hide Apply, SavePlan;
      var before := Tables();
      var reserved := Reserve(r, id);
      if reserved.Err? {
        return Raise(KeyConflict(reserved.error));
      }
      if reserved.value != I.Done(id) {
        var stored := StoredPlan(Tables(), reserved.value);
        return if stored.Err? then Raise(stored.error) else Commit(Tables(), stored.value);
      }
      var updated := Apply(plan, t);
      if updated.None? {
        Rollback(before);
        return Raise(TransitionRejected);
      }
      var saved := Save(id, updated.value, plan.revision);
      if saved.Raise? {
        Rollback(before);
        return Raise(saved.error);
      }
      tx := Commit(Tables(), PlanAnswer(id, saved.answer));
    }

    method MutatePlan(r: Request, id: Id, t: Transition) returns (tx: Outcome)
      modifies this
      ensures tx == Handle(old(Tables()), r, Mutate(id, t))
      ensures Tables() == if tx.Commit? then tx.db else old(Tables())
    {
      hide CommitTx;
      var begun := ReadForChange(r, id, t);
      match begun
      case Go(Mutating(i, plan, change)) => tx := WriteChange(r, i, plan, change);
      case Answered(answer) => tx := Commit(Tables(), answer);
      case Refused(error) => tx := Raise(error);
    }
  }
}
