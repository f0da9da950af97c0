/** The activation store and the gates as objects that update in place. */
module ActivationGates {
  import opened Common
  import opened Activation

  class ActivationStateStore {
    const keeping: Keeping
    var item: Option<Canonical>

    constructor (keeping: Keeping)
      ensures item == None && this.keeping == keeping
    {
      item, this.keeping := None, keeping;
    }

    method Activate(state: Canonical) returns (ok: bool)
      modifies this
      ensures var tx := StoreActivate(keeping, old(item), state);
              ok == tx.Commit? && item == if ok then tx.db else old(item)
    {
      if item.Some? && item.value.enabled {
        return false;
      }
      if !Acceptable(keeping, state.ceilings) {
        return false;
      }
      var kept := state;
      if state.ceilings.Some? {
        kept := state.(ceilings := Some(KeptCeilings(keeping, state.ceilings.value)));
      }
      item := Some(kept);
      ok := true;
    }

    /** The compare-and-set that only the expected activation can lose to. */
    method Rollback(who: string, reason: string, expected: Token) returns (ok: bool)
      modifies this
      ensures var tx := StoreRollback(old(item), who, reason, expected);
              ok == tx.Commit? && item == if ok then tx.db else old(item)
    {
      if item.None? || !item.value.enabled || item.value.token != expected {
        return false;
      }
      item := Some(item.value.(enabled := false, rollbackBy := Some(who), rollbackReason := Some(Truncated(reason))));
      ok := true;
    }
  }

  class ProductionGate {
    const kind: Kind
    const store: ActivationStateStore
    var local: Local
    var binding: Option<Token>

    constructor (kind: Kind, store: ActivationStateStore)
      ensures Value() == NewGate(kind) && this.store == store
    {
      this.kind, this.store := kind, store;
      local, binding := Local(false, None, None, None), None;
    }

    function Value(): Gate
      reads this
    {
      Gate(kind, local, binding)
    }

    method Activate(a: Asked) returns (bound: Option<Token>)
      modifies this, store
      ensures var tx := ActivateTx(store.keeping, old(store.item), old(Value()), a);
              && bound == (if tx.Commit? then tx.answer else None)
              && (store.item, Value()) == if tx.Commit? then tx.db else old((store.item, Value()))
    {
      if store.item.Some? && store.item.value.enabled {
        return None;
      }
      if !a.admitted {
        return None;
      }
      var ok := store.Activate(Canonical(true, a.config, a.token, a.who, a.ceilings, None, None));
      if !ok {
        return None;
      }
      local := Local(true, Some(a.config), Some(a.token), a.ceilings);
      binding := Some(a.token);
      bound := binding;
    }

    method Rollback(who: string, reason: string) returns (ok: bool)
      modifies this, store
      ensures var tx := RollbackTx(old(store.item), old(Value()), who, reason);
              && ok == tx.Commit?
              && (store.item, Value()) == if ok then tx.db else old((store.item, Value()))
    {
      if who == "" || reason == "" {
        return false;
      }
      if store.item.None? || !store.item.value.enabled {
        return true;
      }
      var rolledBack := store.Rollback(who, reason, store.item.value.token);
      if !rolledBack {
        return false;
      }
      local := if kind.ModelGate? then Local(false, None, None, None) else local.(enabled := false);
      binding := None;
      ok := true;
    }

    method GetProvider(configured: bool, ready: bool) returns (answer: Result<Token, ActivationError>)
      modifies this
      ensures (Value(), answer) == Provider(store.item, old(Value()), configured, ready)
    {
      var canonical := store.item;
      if canonical.None? || !canonical.value.enabled {
        return Err(NotEnabled);
      }
      if kind.ModelGate? && canonical.value.config != kind.config {
        return Err(ConfigurationDiffers);
      }
      if binding.Some? && binding.value != canonical.value.token {
        binding := None;
      }
      if binding.None? {
        if (kind.ModelGate? && !kind.hasFactory) || (kind.LookupGate? && !configured) {
          return Err(NoComposition);
        }
        if kind.ModelGate? && !ready {
          return Err(NotReady);
        }
        binding := Some(canonical.value.token);
      }
      if kind.ModelGate? {
        local := Local(true, Some(canonical.value.config), Some(canonical.value.token), canonical.value.ceilings);
      }
      answer := Ok(binding.value);
    }

    /** A request through a binding of the gate that caches its ceilings. */
    method Decide(bound: Token, r: Request) returns (d: Decision)
      ensures d == CachedDecision(store.item, Value(), bound, r)
    {
      var canonical := store.item;
      if r.config == "" || canonical.None? || !canonical.value.enabled || canonical.value.config != r.config
        || canonical.value.token != bound {
        return NotActive;
      }
      if !local.enabled || local.ceilings.None? || r.cost > local.ceilings.value.cost
        || r.duration > local.ceilings.value.duration {
        return Exhausted;
      }
      d := Allowed;
    }
  }
}
