/** The shared kill switch of a provider: a compare-and-set activation state used by many replicas, each
    with a local state and a cached binding of its own.

    `Step` interleaves the gate calls of all replicas; each call is atomic. */
module Activation {
  import opened Common
  import opened Amounts

  type ReplicaId = nat
  type Time = int

  /** What a binding is bound to: the activation version and time. */
  datatype Token = Token(version: string, at: Time)
  datatype Ceilings = Ceilings(cost: real, duration: real)

  datatype Canonical = Canonical(
    enabled: bool, config: string, token: Token, who: string, ceilings: Option<Ceilings>,
    rollbackBy: Option<string>, rollbackReason: Option<string>)

  datatype ActivationError =
    | AlreadyEnabled | NotPositive | NoState | LostTarget | Refused
    | NotEnabled | ConfigurationDiffers | NoComposition | NotReady

  // ----- the store -----

  /** The in-memory store keeps ceilings as they are; the database keeps eight decimals. */
  datatype Keeping = Exact | EightDecimals

  function Kept(k: Keeping, x: real): real { if k == Exact then x else ToEightDecimals(x) }

  function KeptCeilings(k: Keeping, c: Ceilings): Ceilings { Ceilings(Kept(k, c.cost), Kept(k, c.duration)) }

  predicate Representable(k: Keeping, c: Ceilings) { KeptCeilings(k, c) == c }

  /** The database also checks that the ceilings it keeps are positive. */
  predicate Acceptable(k: Keeping, c: Option<Ceilings>) {
    k == EightDecimals && c.Some? ==> Kept(k, c.value.cost) > 0.0 && Kept(k, c.value.duration) > 0.0
  }

  function StoreActivate(k: Keeping, s: Option<Canonical>, new_: Canonical)
    : Tx<Option<Canonical>, (), ActivationError> {
    if s.Some? && s.value.enabled then Raise(AlreadyEnabled)
    else if !Acceptable(k, new_.ceilings) then Raise(NotPositive)
    else Commit(Some(new_.(ceilings := if new_.ceilings.Some? then Some(KeptCeilings(k, new_.ceilings.value))
                           else None)), ())
  }

  function StoreRollback(s: Option<Canonical>, who: string, reason: string, expected: Token)
    : Tx<Option<Canonical>, (), ActivationError> {
    if s.None? then Raise(NoState)
    else if !s.value.enabled || s.value.token != expected then Raise(LostTarget)
    else Commit(Some(s.value.(enabled := false, rollbackBy := Some(who),
                              rollbackReason := Some(Truncated(reason)))), ())
  }

  function Truncated(reason: string): string { if |reason| <= 256 then reason else reason[..256] }

  // ----- the gates -----

  /** A model gate checks the runtime configuration and composes its provider itself; a lookup gate
      composes one only from a configuration passed to it. */
  datatype Kind = ModelGate(config: string, hasFactory: bool) | LookupGate

  datatype Local = Local(enabled: bool, config: Option<string>, token: Option<Token>, ceilings: Option<Ceilings>)
  datatype Gate = Gate(kind: Kind, local: Local, binding: Option<Token>)

  function NewGate(kind: Kind): Gate { Gate(kind, Local(false, None, None, None), None) }

  /** What an operator asks for; `admitted` are all checks before the store is asked, readiness included. */
  datatype Asked = Asked(config: string, token: Token, who: string, ceilings: Option<Ceilings>, admitted: bool)

  type GateTx = Tx<(Option<Canonical>, Gate), Option<Token>, ActivationError>

  function ActivateTx(k: Keeping, s: Option<Canonical>, g: Gate, a: Asked): GateTx {
    if s.Some? && s.value.enabled then Raise(AlreadyEnabled)
    else if !a.admitted then Raise(Refused)
    else
      var stored := StoreActivate(k, s, Canonical(true, a.config, a.token, a.who, a.ceilings, None, None));
      if stored.Raise? then Raise(stored.error)
      else Commit((stored.db, Gate(g.kind, Local(true, Some(a.config), Some(a.token), a.ceilings), Some(a.token))),
                  Some(a.token))
  }

  /** A model gate forgets its local configuration on rollback, a lookup gate keeps it. */
  function RolledBackLocal(g: Gate): Local {
    if g.kind.ModelGate? then Local(false, None, None, None) else g.local.(enabled := false)
  }

  function RollbackTx(s: Option<Canonical>, g: Gate, who: string, reason: string): GateTx {
    if who == "" || reason == "" then Raise(Refused)
    else if s.None? || !s.value.enabled then Commit((s, g), None)
    else
      var stored := StoreRollback(s, who, reason, s.value.token);
      if stored.Raise? then Raise(stored.error)
      else Commit((stored.db, Gate(g.kind, RolledBackLocal(g), None)), None)
  }

  /** Even a call that raises may have dropped a stale binding, so the answer carries the gate either way. */
  function Provider(s: Option<Canonical>, g: Gate, configured: bool, ready: bool)
    : (Gate, Result<Token, ActivationError>) {
    if s.None? || !s.value.enabled then (g, Err(NotEnabled))
    else if g.kind.ModelGate? && s.value.config != g.kind.config then (g, Err(ConfigurationDiffers))
    else
      var kept := if g.binding == Some(s.value.token) then g.binding else None;
      var cleared := g.(binding := kept);
      if kept.None? && (if g.kind.ModelGate? then !g.kind.hasFactory else !configured)
        then (cleared, Err(NoComposition))
      else if kept.None? && g.kind.ModelGate? && !ready then (cleared, Err(NotReady))
      else
        var bound := cleared.(binding := Some(s.value.token));
        var current := Local(true, Some(s.value.config), Some(s.value.token), s.value.ceilings);
        (if g.kind.ModelGate? then bound.(local := current) else bound, Ok(s.value.token))
  }

  // ----- requests -----

  /** A request through a binding, under a configuration and with a budget. */
  datatype Request = Request(config: string, cost: real, duration: real)
  datatype Decision = Allowed | NotActive | Exhausted

  predicate Within(c: Option<Ceilings>, r: Request) {
    c.Some? && r.cost <= c.value.cost && r.duration <= c.value.duration
  }

  predicate AllowsRequest(s: Option<Canonical>, binding: Token, config: string) {
    s.Some? && s.value.enabled && s.value.config == config && s.value.token == binding
  }

  /** The first model gate compares the budget with the canonical ceilings. */
  function CanonicalDecision(s: Option<Canonical>, binding: Token, r: Request): Decision {
    if r.config == "" || !AllowsRequest(s, binding, r.config) then NotActive
    else if !Within(s.value.ceilings, r) then Exhausted else Allowed
  }

  /** The second compares it with the ceilings it has cached. */
  function CachedDecision(s: Option<Canonical>, g: Gate, binding: Token, r: Request): Decision {
    if r.config == "" || !AllowsRequest(s, binding, r.config) then NotActive
    else if !(g.local.enabled && Within(g.local.ceilings, r)) then Exhausted else Allowed
  }

  /** The lookup gate has no ceilings and no configuration check. */
  predicate LookupAllowed(s: Option<Canonical>, binding: Token) {
    s.Some? && s.value.enabled && s.value.token == binding
  }

  // ----- interleavings -----

  /** `issued` are all bindings ever handed out, `times` all activation times, and `ended` the
      activations rolled back; these are history. */
  datatype World = World(
    keeping: Keeping, store: Option<Canonical>, gates: map<ReplicaId, Gate>,
    issued: set<(ReplicaId, Token)>, times: set<Time>, ended: set<Token>)

  datatype Op =
    | Activate(replica: ReplicaId, asked: Asked)
    | Rollback(replica: ReplicaId, who: string, reason: string)
    | GetProvider(replica: ReplicaId, configured: bool, ready: bool)
    | Restart(replica: ReplicaId, kind: Kind)

  /** Activation times are distinct. */
  function StepActivate(w: World, n: ReplicaId, a: Asked): World {
    if n !in w.gates || a.token.at in w.times then w
    else
      var tx := ActivateTx(w.keeping, w.store, w.gates[n], a);
      if tx.Raise? then w
      else w.(store := tx.db.0, gates := w.gates[n := tx.db.1], issued := w.issued + {(n, a.token)},
              times := w.times + {a.token.at})
  }

  function StepRollback(w: World, n: ReplicaId, who: string, reason: string): World {
    if n !in w.gates then w
    else
      var tx := RollbackTx(w.store, w.gates[n], who, reason);
      if tx.Raise? then w
      else w.(store := tx.db.0, gates := w.gates[n := tx.db.1],
              ended := if w.store.Some? && w.store.value.enabled then w.ended + {w.store.value.token} else w.ended)
  }

  function StepProvider(w: World, n: ReplicaId, configured: bool, ready: bool): World {
    if n !in w.gates then w
    else
      var (g, answer) := Provider(w.store, w.gates[n], configured, ready);
      w.(gates := w.gates[n := g], issued := if answer.Ok? then w.issued + {(n, answer.value)} else w.issued)
  }

  /** A replica process starts, or starts again; the bindings of its former process are gone. */
  function StepRestart(w: World, n: ReplicaId, kind: Kind): World {
    w.(gates := w.gates[n := NewGate(kind)], issued := (set b | b in w.issued && b.0 != n))
  }

  function Step(w: World, op: Op): World {
    match op
    case Activate(n, a) => StepActivate(w, n, a)
    case Rollback(n, who, reason) => StepRollback(w, n, who, reason)
    case GetProvider(n, configured, ready) => StepProvider(w, n, configured, ready)
    case Restart(n, kind) => StepRestart(w, n, kind)
  }

  function Initial(keeping: Keeping): World { World(keeping, None, map[], {}, {}, {}) }

  function Run(w: World, ops: seq<Op>): World
    decreases |ops|
  {
    if ops == [] then w else Run(Step(w, ops[0]), ops[1..])
  }

  // ----- invariant -----

  predicate IsEnabled(s: Option<Canonical>, t: Token) { s.Some? && s.value.enabled && s.value.token == t }

  ghost predicate TokensOk(w: World) {
    && (forall t | t in w.ended :: t.at in w.times)
    && (w.store.Some? ==>
          w.store.value.token.at in w.times
          && (w.store.value.enabled <==> w.store.value.token !in w.ended))
    && (forall b | b in w.issued :: b.0 in w.gates && (b.1 in w.ended || IsEnabled(w.store, b.1)))
    && (forall n | n in w.gates && w.gates[n].binding.Some? :: (n, w.gates[n].binding.value) in w.issued)
  }

  /** A model gate that has issued a binding to the enabled activation has cached that activation's ceilings. */
  ghost predicate CachesOk(w: World) {
    forall b | b in w.issued && b.0 in w.gates && IsEnabled(w.store, b.1) && w.gates[b.0].kind.ModelGate? ::
      Mirrors(w.keeping, w.gates[b.0].local, w.store.value)
  }

  /** The store keeps of the cached ceilings what it can, or the cache was refreshed from it. */
  ghost predicate Mirrors(k: Keeping, l: Local, c: Canonical) {
    && l.enabled && l.config == Some(c.config) && l.token == Some(c.token)
    && l.ceilings.Some? == c.ceilings.Some?
    && (l.ceilings.Some? ==> c.ceilings.value == KeptCeilings(k, l.ceilings.value))
  }

  /** What the store keeps, it can keep again. */
  ghost predicate StoreOk(w: World) {
    w.store.Some? && w.store.value.ceilings.Some? ==> Representable(w.keeping, w.store.value.ceilings.value)
  }

  ghost predicate Inv(w: World) { TokensOk(w) && CachesOk(w) && StoreOk(w) }

  lemma KeptIsRepresentable(k: Keeping, x: real)
    ensures Kept(k, Kept(k, x)) == Kept(k, x)
  {
    KeepsEightDecimals(x);
    KeepsEightDecimals(ToEightDecimals(x));
  }

  lemma ActivateKeepsInv(w: World, n: ReplicaId, a: Asked)
    requires Inv(w)
    ensures Inv(StepActivate(w, n, a))
  {
    if a.ceilings.Some? {
      KeptIsRepresentable(w.keeping, a.ceilings.value.cost);
      KeptIsRepresentable(w.keeping, a.ceilings.value.duration);
    }
    hide Kept;
  }

  lemma RollbackKeepsInv(w: World, n: ReplicaId, who: string, reason: string)
    requires Inv(w)
    ensures Inv(StepRollback(w, n, who, reason))
  {
    hide Kept;
  }

  lemma ProviderKeepsInv(w: World, n: ReplicaId, configured: bool, ready: bool)
    requires Inv(w)
    ensures Inv(StepProvider(w, n, configured, ready))
  {
    hide Kept;
  }

  lemma RestartKeepsInv(w: World, n: ReplicaId, kind: Kind)
    requires Inv(w)
    ensures Inv(StepRestart(w, n, kind))
  {
    hide Kept;
  }

  lemma StepKeepsInv(w: World, op: Op)
    requires Inv(w)
    ensures Inv(Step(w, op)) && Step(w, op).keeping == w.keeping && w.ended <= Step(w, op).ended
  {
    match op
    case Activate(n, a) => ActivateKeepsInv(w, n, a); hide Inv, ActivateTx;
    case Rollback(n, who, reason) => RollbackKeepsInv(w, n, who, reason); hide Inv, RollbackTx;
    case GetProvider(n, configured, ready) => ProviderKeepsInv(w, n, configured, ready); hide Inv, Provider;
    case Restart(n, kind) => RestartKeepsInv(w, n, kind); hide Inv;
  }

  lemma {:induction false} RunKeepsInv(w: World, ops: seq<Op>)
    requires Inv(w)
    ensures Inv(Run(w, ops)) && Run(w, ops).keeping == w.keeping && w.ended <= Run(w, ops).ended
    decreases |ops|
  {
    if ops != [] {
      StepKeepsInv(w, ops[0]);
      hide Inv, Step;
      RunKeepsInv(Step(w, ops[0]), ops[1..]);
    }
  }

  lemma Reachable(keeping: Keeping, ops: seq<Op>)
    ensures Inv(Run(Initial(keeping), ops)) && Run(Initial(keeping), ops).keeping == keeping
  {
    RunKeepsInv(Initial(keeping), ops);
  }

  // ----- what the gates promise -----

  /** After an activation has been rolled back, no binding to it passes any gate again, whatever is
      activated, bound or restarted later, on any replica. */
  lemma NeverAfterRollback(keeping: Keeping, ops: seq<Op>, later: seq<Op>, t: Token, config: string)
    requires t in Run(Initial(keeping), ops).ended
    ensures var s := Run(Run(Initial(keeping), ops), later).store; !AllowsRequest(s, t, config) && !LookupAllowed(s, t)
  {
    Reachable(keeping, ops);
    RunKeepsInv(Run(Initial(keeping), ops), later);
    hide Run;
  }

  /** A rollback closes every binding in circulation at once, whichever replica issued it. */
  lemma RollbackClosesAll(keeping: Keeping, ops: seq<Op>, n: ReplicaId, who: string, reason: string,
                          b: (ReplicaId, Token), config: string)
    requires n in Run(Initial(keeping), ops).gates && who != "" && reason != ""
             && b in Run(Initial(keeping), ops).issued
    ensures var w' := Step(Run(Initial(keeping), ops), Rollback(n, who, reason));
            !AllowsRequest(w'.store, b.1, config) && !LookupAllowed(w'.store, b.1) && b.1 in w'.ended
  {
    Reachable(keeping, ops);
    hide Run, Kept;
  }

  /** Every binding in circulation is to the enabled activation or to one that has been rolled back. */
  lemma BindingsAreCurrentOrEnded(keeping: Keeping, ops: seq<Op>, b: (ReplicaId, Token))
    requires b in Run(Initial(keeping), ops).issued
    ensures var w := Run(Initial(keeping), ops); b.1 in w.ended <==> !IsEnabled(w.store, b.1)
  {
    Reachable(keeping, ops);
    hide Run;
  }

  /** Whenever a binding passes, the gate that issued it has cached the canonical ceilings exactly when the
      store can keep the cached ones, and always the canonical ones are what the store keeps of them. */
  lemma CeilingsAgreeIff(keeping: Keeping, ops: seq<Op>, b: (ReplicaId, Token), config: string)
    requires b in Run(Initial(keeping), ops).issued && AllowsRequest(Run(Initial(keeping), ops).store, b.1, config)
    requires b.0 in Run(Initial(keeping), ops).gates && Run(Initial(keeping), ops).gates[b.0].kind.ModelGate?
    ensures var w := Run(Initial(keeping), ops);
            var cached, canonical := w.gates[b.0].local.ceilings, w.store.value.ceilings;
            && cached.Some? == canonical.Some?
            && (cached.Some? ==> canonical.value == KeptCeilings(keeping, cached.value))
            && (cached == canonical <==> (cached.Some? ==> Representable(keeping, cached.value)))
  {
    Reachable(keeping, ops);
    assert Mirrors(keeping, Run(Initial(keeping), ops).gates[b.0].local, Run(Initial(keeping), ops).store.value);
    hide Run, Kept;
  }

  /** Both model gates then decide every request alike; over the exact store they always do. */
  lemma DecisionsAgree(keeping: Keeping, ops: seq<Op>, b: (ReplicaId, Token), r: Request)
    requires b in Run(Initial(keeping), ops).issued && b.0 in Run(Initial(keeping), ops).gates
    requires Run(Initial(keeping), ops).gates[b.0].kind.ModelGate?
    requires var c := Run(Initial(keeping), ops).gates[b.0].local.ceilings;
             keeping == Exact || (c.Some? ==> Representable(keeping, c.value))
    ensures var w := Run(Initial(keeping), ops);
            CachedDecision(w.store, w.gates[b.0], b.1, r) == CanonicalDecision(w.store, b.1, r)
  {
    var w := Run(Initial(keeping), ops);
    if AllowsRequest(w.store, b.1, r.config) {
      CeilingsAgreeIff(keeping, ops, b, r.config);
      Reachable(keeping, ops);
      assert Mirrors(keeping, w.gates[b.0].local, w.store.value);
    }
    hide Run;
  }

  /** A successful `provider()` call makes the cached ceilings the canonical ones. */
  lemma ProviderRefreshes(s: Option<Canonical>, g: Gate, configured: bool, ready: bool)
    requires g.kind.ModelGate? && Provider(s, g, configured, ready).1.Ok?
    ensures Provider(s, g, configured, ready).0.local.ceilings == s.value.ceilings
    ensures Provider(s, g, configured, ready).0.binding == Some(s.value.token)
  {}

  /** With the database store, ceilings of more than eight decimals make the activating replica admit a
      request that the canonical ceilings refuse. */
  lemma CeilingsCanDiffer()
    ensures exists ops, r :: var w := Run(Initial(EightDecimals), ops);
              0 in w.gates && w.store.Some? && (0, w.store.value.token) in w.issued
              && CachedDecision(w.store, w.gates[0], w.store.value.token, r) == Allowed
              && CanonicalDecision(w.store, w.store.value.token, r) == Exhausted
  {
    var asked := Asked("c", Token("v", 1), "o", Some(Ceilings(0.000000014, 1.0)), true);
    var ops := [Restart(0, ModelGate("c", true)), Activate(0, asked)];
    var r := Request("c", 0.000000012, 1.0);
    var w0 := Initial(EightDecimals);
    var w1 := Step(w0, ops[0]);
    var w2 := Step(w1, ops[1]);
    assert Kept(EightDecimals, 0.000000014) == 0.00000001;
    assert Kept(EightDecimals, 1.0) == 1.0;
    assert Run(w0, ops) == w2 by {
      assert ops[1..] == [Activate(0, asked)];
      assert Run(w1, ops[1..]) == Run(w2, ops[1..][1..]);
    }
    assert CachedDecision(w2.store, w2.gates[0], w2.store.value.token, r) == Allowed;
    assert CanonicalDecision(w2.store, w2.store.value.token, r) == Exhausted;
  }

  /** Exactly when a call for the provider answers, and what it leaves behind. */
  lemma ProviderAnswers(s: Option<Canonical>, g: Gate, configured: bool, ready: bool)
    ensures var (g', answer) := Provider(s, g, configured, ready);
            var enabled := s.Some? && s.value.enabled;
            var fresh_ := enabled && g.binding == Some(s.value.token);
            && (answer.Ok? <==>
                  && enabled
                  && if g.kind.ModelGate? then s.value.config == g.kind.config
                     && (fresh_ || (g.kind.hasFactory && ready))
                     else fresh_ || configured)
            && (answer.Ok? ==> answer.value == s.value.token && g'.binding == Some(s.value.token))
            && (answer.Err? ==> g'.local == g.local && (g'.binding == g.binding || g'.binding.None?))
            && (enabled && g.kind.LookupGate? && !fresh_ && !configured ==> g'.binding.None?)
  {}

  /** Were an activation time used again together with its version, the bindings of the earlier activation
      would pass again: a binding passes after an activation exactly when it is to the same token. */
  lemma ReactivationRevivesIff(k: Keeping, s: Option<Canonical>, g: Gate, a: Asked, earlier: Token, config: string)
    requires ActivateTx(k, s, g, a).Commit?
    ensures AllowsRequest(ActivateTx(k, s, g, a).db.0, earlier, config) <==> earlier == a.token && config == a.config
  {}
}
