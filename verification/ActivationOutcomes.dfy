/** What a gate decides about a request, and what activation and rollback write, exactly. The statements look at the
    canonical state, the local state of the gate and the request only. */
module ActivationOutcomes {
  import opened Common
  import opened Amounts
  import opened Activation

  /** The binding is to the activation that is enabled, under this configuration. */
  ghost predicate IsActive(s: Option<Canonical>, binding: Token, config: string) {
    s.Some? && s.value.enabled == true && s.value.token == binding && s.value.config == config && config != ""
  }

  /** A request is allowed exactly if its binding is active and its cost and duration are at most the ceilings in
      force; with an active binding it is exhausted exactly if one of them is above its ceiling, or there is none. */
  lemma DecisionOutcome(s: Option<Canonical>, g: Gate, binding: Token, r: Request)
    ensures CanonicalDecision(s, binding, r) ==
            if !IsActive(s, binding, r.config) then NotActive
            else if s.value.ceilings.None? || r.cost > s.value.ceilings.value.cost
                    || r.duration > s.value.ceilings.value.duration then Exhausted
            else Allowed
    ensures CachedDecision(s, g, binding, r) ==
            if !IsActive(s, binding, r.config) then NotActive
            else if !g.local.enabled || g.local.ceilings.None? || r.cost > g.local.ceilings.value.cost
                    || r.duration > g.local.ceilings.value.duration then Exhausted
            else Allowed
    ensures LookupAllowed(s, binding) <==> s.Some? && s.value.enabled == true && s.value.token == binding
  {}

  // ----- where ceilings come from -----

  /** What the store keeps of the ceilings that were asked for. */
  ghost function KeptOf(k: Keeping, c: Option<Ceilings>): Option<Ceilings> {
    if c.None? then None else Some(Ceilings(Kept(k, c.value.cost), Kept(k, c.value.duration)))
  }

  ghost predicate StoreFrom(ops: seq<Op>, k: Keeping, s: Option<Canonical>) {
    s.Some? ==> exists n, a ::
      Activate(n, a) in ops && a.admitted && s.value.token == a.token && s.value.config == a.config
      && s.value.who == a.who && s.value.ceilings == KeptOf(k, a.ceilings)
  }

  ghost predicate LocalFrom(ops: seq<Op>, k: Keeping, l: Local) {
    l.enabled && l.token.Some? ==> exists n, a ::
      Activate(n, a) in ops && a.admitted && l.token == Some(a.token) && l.config == Some(a.config)
      && (l.ceilings == a.ceilings || l.ceilings == KeptOf(k, a.ceilings))
  }

  ghost predicate AllFrom(ops: seq<Op>, w: World) {
    StoreFrom(ops, w.keeping, w.store) && forall n | n in w.gates :: LocalFrom(ops, w.keeping, w.gates[n].local)
  }

  lemma ActivateFrom(ops: seq<Op>, w: World, n: ReplicaId, a: Asked)
    requires AllFrom(ops, w) && Activate(n, a) in ops
    ensures AllFrom(ops, StepActivate(w, n, a))
  {
    hide Kept, LocalFrom;
    if a.admitted { LocalIsFrom(ops, w.keeping, n, a); }
  }

  lemma LocalIsFrom(ops: seq<Op>, k: Keeping, n: ReplicaId, a: Asked)
    requires Activate(n, a) in ops && a.admitted
    ensures LocalFrom(ops, k, Local(true, Some(a.config), Some(a.token), a.ceilings))
  {}

  lemma StepFrom(ops: seq<Op>, w: World, op: Op)
    requires AllFrom(ops, w) && op in ops
    ensures AllFrom(ops, Step(w, op)) && Step(w, op).keeping == w.keeping
  {
    hide Kept, Truncated;
    match op
    case Activate(n, a) => ActivateFrom(ops, w, n, a); hide AllFrom, ActivateTx;
    case Rollback(n, _, _) =>
    case GetProvider(n, configured, ready) =>
      if n in w.gates { RefreshedFrom(ops, w, n, configured, ready); }
      hide Provider, StoreFrom, LocalFrom;
    case Restart(_, _) =>
  }

  lemma RefreshedFrom(ops: seq<Op>, w: World, n: ReplicaId, configured: bool, ready: bool)
    requires AllFrom(ops, w) && n in w.gates
    ensures LocalFrom(ops, w.keeping, Provider(w.store, w.gates[n], configured, ready).0.local)
  {
    hide Kept;
  }

  lemma {:induction false} RunFrom(all: seq<Op>, w: World, ops: seq<Op>)
    requires AllFrom(all, w) && forall op | op in ops :: op in all
    ensures AllFrom(all, Run(w, ops)) && Run(w, ops).keeping == w.keeping
    decreases |ops|
  {
    if ops != [] {
      StepFrom(all, w, ops[0]);
      hide AllFrom, Step;
      RunFrom(all, Step(w, ops[0]), ops[1..]);
    }
  }

  /** No gate ever allows more than was activated: a request that is allowed keeps the ceilings of an admitted
      activation of its own token and configuration, as the store keeps them; in the gate that caches its
      ceilings, as it keeps them or as they were asked for. */
  lemma AllowedWasActivated(keeping: Keeping, ops: seq<Op>, n: ReplicaId, binding: Token, r: Request)
    ensures var w := Run(Initial(keeping), ops);
            CanonicalDecision(w.store, binding, r) == Allowed ==>
              exists m, a ::
                Activate(m, a) in ops && a.admitted && a.token == binding && a.config == r.config && a.ceilings.Some?
                && r.cost <= Kept(keeping, a.ceilings.value.cost)
                && r.duration <= Kept(keeping, a.ceilings.value.duration)
    ensures var w := Run(Initial(keeping), ops);
            n in w.gates && w.gates[n].kind.ModelGate? && (n, binding) in w.issued
            && CachedDecision(w.store, w.gates[n], binding, r) == Allowed ==>
              exists m, a ::
                Activate(m, a) in ops && a.admitted && a.token == binding && a.config == r.config && a.ceilings.Some?
                && ((r.cost <= a.ceilings.value.cost && r.duration <= a.ceilings.value.duration)
                    || (r.cost <= Kept(keeping, a.ceilings.value.cost)
                        && r.duration <= Kept(keeping, a.ceilings.value.duration)))
  {
    RunFrom(ops, Initial(keeping), ops);
    Reachable(keeping, ops);
    hide Run, Kept;
    var w := Run(Initial(keeping), ops);
    if n in w.gates && w.gates[n].kind.ModelGate? && (n, binding) in w.issued
       && CachedDecision(w.store, w.gates[n], binding, r) == Allowed {
      assert Mirrors(keeping, w.gates[n].local, w.store.value);
      assert LocalFrom(ops, keeping, w.gates[n].local);
    }
  }

  // ----- activation and rollback, exactly -----

  /** An activation wins exactly if its time is new, nothing is enabled, it is admitted, and the ceilings that the
      database keeps are positive; it sets the state, the local state and the binding of its replica together. */
  lemma ActivateOutcome(w: World, n: ReplicaId, a: Asked)
    requires n in w.gates
    ensures var kept := KeptOf(w.keeping, a.ceilings);
            Step(w, Activate(n, a)) ==
            if a.token.at !in w.times && (w.store.Some? ==> !w.store.value.enabled) && a.admitted
               && (w.keeping == EightDecimals && kept.Some? ==> kept.value.cost > 0.0 && kept.value.duration > 0.0)
            then
              w.(store := Some(Canonical(true, a.config, a.token, a.who, kept, None, None)),
                 gates := w.gates[n := Gate(w.gates[n].kind,
                   Local(true, Some(a.config), Some(a.token), a.ceilings), Some(a.token))],
                 issued := w.issued + {(n, a.token)}, times := w.times + {a.token.at})
            else w
  {
    hide Kept;
  }

  /** A rollback with a name and a reason ends the activation that is enabled, keeping the first 256 characters of the
      reason; it forgets the binding of its replica, and a model gate its local state. */
  lemma RollbackOutcome(w: World, n: ReplicaId, who: string, reason: string)
    requires n in w.gates
    ensures Step(w, Rollback(n, who, reason)) ==
            if who != "" && reason != "" && w.store.Some? && w.store.value.enabled then
              var g, kept := w.gates[n], if |reason| <= 256 then reason else reason[..256];
              w.(store := Some(w.store.value.(enabled := false, rollbackBy := Some(who), rollbackReason := Some(kept))),
                 gates := w.gates[n := Gate(g.kind, if g.kind.ModelGate? then Local(false, None, None, None)
                                                   else g.local.(enabled := false), None)],
                 ended := w.ended + {w.store.value.token})
            else w
  {
    assert w.gates[n := w.gates[n]] == w.gates;
  }

  /** Why an activation, a rollback or a request for the provider is refused; a rollback of what is not enabled
      is not. */
  lemma ActivationErrors(k: Keeping, s: Option<Canonical>, g: Gate, a: Asked, configured: bool, ready: bool,
                         who: string, reason: string)
    ensures var tx := RollbackTx(s, g, who, reason);
            && (tx.Raise? <==> who == "" || reason == "") && (tx.Raise? ==> tx.error == Refused)
            && (tx.Commit? && !(s.Some? && s.value.enabled) ==> tx.db == (s, g))
    ensures var tx := ActivateTx(k, s, g, a);
            var enabled := s.Some? && s.value.enabled;
            && (tx == Raise(AlreadyEnabled) <==> enabled)
            && (tx == Raise(Refused) <==> !enabled && !a.admitted)
            && (tx.Raise? ==> tx.error in {AlreadyEnabled, Refused, NotPositive})
    ensures var answer := Provider(s, g, configured, ready).1;
            var enabled := s.Some? && s.value.enabled;
            var bound := enabled && g.binding == Some(s.value.token);
            var fits := enabled && (g.kind.ModelGate? ==> s.value.config == g.kind.config);
            var composed := if g.kind.ModelGate? then g.kind.hasFactory else configured;
            && (answer == Err(NotEnabled) <==> !enabled)
            && (answer == Err(ConfigurationDiffers) <==> enabled && !fits)
            && (answer == Err(NoComposition) <==> fits && !bound && !composed)
            && (answer == Err(NotReady) <==> fits && !bound && composed && g.kind.ModelGate? && !ready)
  {
    hide Kept;
  }
}
