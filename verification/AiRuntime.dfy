/** The idempotency wrapper around the AI execution service: reserve, call out, complete, each in a
    transaction of its own, so that a retry never issues a second external call. */
module AiRuntime {
  import opened Common
  import I = Idempotency

  type Key = string
  /** A fresh UUID per call of the wrapper. */
  type Token = nat
  type RunId = string

  /** The hashed part of a request, and the part that the hash leaves out. */
  datatype Request = Request(key: Key, hashed: string, unhashed: string)

  datatype Db = Db(records: map<Key, I.Record<string, Token, RunId>>, runs: map<RunId, string>)
  datatype AiError = Conflict(e: I.IdempotencyError) | OutcomeUnknown | MissingResult | DuplicateRun

  datatype Admission = Proceed | Stored(run: RunId)

  /** The first transaction. */
  function AdmitTx(db: Db, r: Request, token: Token): Tx<Db, Admission, AiError> {
    var reserved := I.ReserveTx(db.records, r.key, r.hashed, I.Pending(token));
    if reserved.Raise? then Raise(Conflict(reserved.error))
    else if reserved.answer.ref == I.Pending(token) then Commit(db.(records := reserved.db), Proceed)
    else if reserved.answer.ref.Pending? then Raise(OutcomeUnknown)
    else if reserved.answer.ref.result !in db.runs then Raise(MissingResult)
    else Commit(db, Stored(reserved.answer.ref.result))
  }

  /** The gateway stores a run in its own transaction, after the external call. */
  function StoreTx(db: Db, id: RunId, output: string): Tx<Db, (), AiError> {
    if id in db.runs then Raise(DuplicateRun) else Commit(db.(runs := db.runs[id := output]), ())
  }

  /** The last transaction. */
  function FinishTx(db: Db, r: Request, id: RunId): Tx<Db, RunId, AiError> {
    var done := I.CompleteTx(db.records, r.key, r.hashed, I.Done(id));
    if done.Raise? then Raise(Conflict(done.error)) else Commit(db.(records := done.db), id)
  }

  // ----- interleavings -----

  datatype Phase = Reserved(r: Request) | Called(r: Request, output: string) | HasRun(r: Request, id: RunId)

  /** `executions` is history: the keys under which the external provider was called. `answers` holds
      what the wrapper has returned. */
  datatype World = World(db: Db, calls: map<Token, Phase>, used: set<Token>, executions: seq<Key>,
                         answers: set<(Request, RunId)>)

  datatype Op =
    | Begin(token: Token, r: Request)
    | CallProvider(token: Token, output: string)
    | StoreRun(token: Token, id: RunId)
    | Finish(token: Token)
    | Drop(token: Token)

  /** A failure of the inner service, before or after its external call, and a crash both end the call. */
  function StepDrop(w: World, token: Token): World { w.(calls := w.calls - {token}) }

  function StepBegin(w: World, token: Token, r: Request): World {
    if token in w.used then w
    else
      var tx := AdmitTx(w.db, r, token);
      if tx.Raise? then w
      else if tx.answer.Stored? then w.(answers := w.answers + {(r, tx.answer.run)})
      else w.(db := tx.db, used := w.used + {token}, calls := w.calls[token := Reserved(r)])
  }

  function StepCall(w: World, token: Token, output: string): World {
    if token !in w.calls || !w.calls[token].Reserved? then w
    else w.(executions := w.executions + [w.calls[token].r.key],
            calls := w.calls[token := Called(w.calls[token].r, output)])
  }

  function StepStore(w: World, token: Token, id: RunId): World {
    if token !in w.calls || !w.calls[token].Called? then w
    else
      var tx := StoreTx(w.db, id, w.calls[token].output);
      if tx.Raise? then StepDrop(w, token) else w.(db := tx.db, calls := w.calls[token := HasRun(w.calls[token].r, id)])
  }

  function StepFinish(w: World, token: Token): World {
    if token !in w.calls || !w.calls[token].HasRun? then w
    else
      var tx := FinishTx(w.db, w.calls[token].r, w.calls[token].id);
      if tx.Raise? then StepDrop(w, token)
      else StepDrop(w.(db := tx.db, answers := w.answers + {(w.calls[token].r, tx.answer)}), token)
  }

  function Step(w: World, op: Op): World {
    match op
    case Begin(token, r) => StepBegin(w, token, r)
    case CallProvider(token, output) => StepCall(w, token, output)
    case StoreRun(token, id) => StepStore(w, token, id)
    case Finish(token) => StepFinish(w, token)
    case Drop(token) => StepDrop(w, token)
  }

  const Empty: World := World(Db(map[], map[]), map[], {}, [], {})

  function Run(w: World, ops: seq<Op>): World
    decreases |ops|
  {
    if ops == [] then w else Run(Step(w, ops[0]), ops[1..])
  }

  // ----- invariant -----

  ghost predicate RecordsOk(w: World) {
    forall k | k in w.db.records ::
      match w.db.records[k].ref
      case Pending(token) => token in w.used
      case Done(id) => id in w.db.runs
  }

  /** A live call holds the pending reservation of its key, under its own token. */
  ghost predicate CallsOk(w: World) {
    forall t | t in w.calls ::
      && t in w.used && w.calls[t].r.key in w.db.records
      && w.db.records[w.calls[t].r.key] == I.Record(w.calls[t].r.hashed, I.Pending(t))
      && (w.calls[t].Reserved? ==> w.calls[t].r.key !in w.executions)
      && (w.calls[t].HasRun? ==> w.calls[t].id in w.db.runs)
  }

  ghost predicate ExecutionsOk(w: World) {
    && (forall k | k in w.executions :: k in w.db.records)
    && forall i, j | 0 <= i < j < |w.executions| :: w.executions[i] != w.executions[j]
  }

  ghost predicate AnswersOk(w: World) {
    forall a | a in w.answers ::
      a.0.key in w.db.records && w.db.records[a.0.key] == I.Record(a.0.hashed, I.Done(a.1)) && a.1 in w.db.runs
  }

  ghost predicate Inv(w: World) { RecordsOk(w) && CallsOk(w) && ExecutionsOk(w) && AnswersOk(w) }

  lemma BeginKeepsInv(w: World, token: Token, r: Request)
    requires Inv(w)
    ensures Inv(StepBegin(w, token, r))
  {}

  lemma CallKeepsInv(w: World, token: Token, output: string)
    requires Inv(w)
    ensures Inv(StepCall(w, token, output))
  {}

  lemma StoreKeepsInv(w: World, token: Token, id: RunId)
    requires Inv(w)
    ensures Inv(StepStore(w, token, id))
  {}

  lemma FinishKeepsInv(w: World, token: Token)
    requires Inv(w)
    ensures Inv(StepFinish(w, token))
  {}

  lemma StepKeepsInv(w: World, op: Op)
    requires Inv(w)
    ensures Inv(Step(w, op))
  {
    match op
    case Begin(token, r) => hide Inv; BeginKeepsInv(w, token, r);
    case CallProvider(token, output) => hide Inv; CallKeepsInv(w, token, output);
    case StoreRun(token, id) => hide Inv; StoreKeepsInv(w, token, id);
    case Finish(token) => hide Inv; FinishKeepsInv(w, token);
    case Drop(_) =>
  }

  lemma {:induction false} RunKeepsInv(w: World, ops: seq<Op>)
    requires Inv(w)
    ensures Inv(Run(w, ops))
    decreases |ops|
  {
    if ops != [] {
      StepKeepsInv(w, ops[0]);
      hide Inv, Step;
      RunKeepsInv(Step(w, ops[0]), ops[1..]);
    }
  }

  lemma Reachable(ops: seq<Op>)
    ensures Inv(Run(Empty, ops))
  {
    RunKeepsInv(Empty, ops);
  }

  // ----- what the wrapper promises -----

  /** Over every run with crashes and failures, the provider is called at most once per key. */
  lemma AtMostOneExecution(ops: seq<Op>, i: nat, j: nat)
    requires i < |Run(Empty, ops).executions| && j < |Run(Empty, ops).executions|
    requires Run(Empty, ops).executions[i] == Run(Empty, ops).executions[j]
    ensures i == j
  {
    Reachable(ops);
  }

  /** A completed key names a stored run, so the branch for a missing result is dead; and clients that were
      answered under one key asked for the same thing and got the same run. */
  lemma CompletedNamesStoredRun(ops: seq<Op>, r: Request, token: Token)
    ensures var w := Run(Empty, ops);
            && AdmitTx(w.db, r, token) != Raise(MissingResult)
            && (r.key in w.db.records && w.db.records[r.key].ref.Done? ==> w.db.records[r.key].ref.result in w.db.runs)
            && forall r', x, y ::
                 (r, x) in w.answers && (r', y) in w.answers && r'.key == r.key
                 ==> x == y && r'.hashed == r.hashed
  {
    Reachable(ops);
    hide Run;
  }

  /** The key is reserved by a call that is no longer alive: its outcome is unknown. */
  ghost predicate Abandoned(w: World, key: Key) {
    && key in w.db.records && w.db.records[key].ref.Pending? && w.db.records[key].ref.token in w.used
    && forall t | t in w.calls :: w.calls[t].r.key != key
  }

  lemma AbandonedStep(w: World, op: Op, key: Key)
    requires Abandoned(w, key)
    ensures Abandoned(Step(w, op), key) && Step(w, op).db.records[key] == w.db.records[key]
    ensures forall i | |w.executions| <= i < |Step(w, op).executions| :: Step(w, op).executions[i] != key
    ensures w.executions <= Step(w, op).executions
    ensures forall a | a in Step(w, op).answers && a !in w.answers :: a.0.key != key
  {}

  /** A key left pending by a dead call stays pending: it leads to no further external call and to no
      answer, whoever retries under it. */
  lemma {:induction false} PendingNeverCallsAgain(w: World, ops: seq<Op>, key: Key)
    requires Abandoned(w, key)
    ensures Abandoned(Run(w, ops), key) && Run(w, ops).db.records[key] == w.db.records[key]
    ensures w.executions <= Run(w, ops).executions
    ensures forall i | |w.executions| <= i < |Run(w, ops).executions| :: Run(w, ops).executions[i] != key
    ensures forall a | a in Run(w, ops).answers && a !in w.answers :: a.0.key != key
    decreases |ops|
  {
    if ops != [] {
      AbandonedStep(w, ops[0], key);
      hide Step, Abandoned;
      PendingNeverCallsAgain(Step(w, ops[0]), ops[1..], key);
    }
  }

  lemma StepExtends(w: World, op: Op)
    ensures I.Extends(w.db.records, Step(w, op).db.records)
  {}

  /** Underneath, a record only ever goes from absent to pending to completed; its hash and its completed
      result are written once. */
  lemma {:induction false} RecordsExtend(w: World, ops: seq<Op>)
    ensures I.Extends(w.db.records, Run(w, ops).db.records)
    decreases |ops|
  {
    if ops != [] {
      StepExtends(w, ops[0]);
      hide Step;
      RecordsExtend(Step(w, ops[0]), ops[1..]);
    }
  }

  /** A first call that nothing disturbs calls out once, stores its run and completes its key. */
  lemma UndisturbedExecution(w: World, token: Token, r: Request, output: string, id: RunId)
    requires Inv(w) && token !in w.used && r.key !in w.db.records && id !in w.db.runs
    ensures var w' := Step(Step(Step(Step(w, Begin(token, r)), CallProvider(token, output)), StoreRun(token, id)),
                           Finish(token));
            && w'.executions == w.executions + [r.key] && w'.answers == w.answers + {(r, id)}
            && w'.db == Db(w.db.records[r.key := I.Record(r.hashed, I.Done(id))], w.db.runs[id := output])
  {
    hide Inv;
    var w1 := Step(w, Begin(token, r));
    assert w1 == w.(db := w.db.(records := w.db.records[r.key := I.Record(r.hashed, I.Pending(token))]),
                    used := w.used + {token}, calls := w.calls[token := Reserved(r)]);
    var w3 := Step(Step(w1, CallProvider(token, output)), StoreRun(token, id));
    assert w3.calls[token] == HasRun(r, id) && w3.db == Db(w1.db.records, w.db.runs[id := output]);
    assert w.db.records[r.key := I.Record(r.hashed, I.Pending(token))][r.key := I.Record(r.hashed, I.Done(id))]
        == w.db.records[r.key := I.Record(r.hashed, I.Done(id))];
  }

  /** The operations of one call; `output` is none when the inner service fails. */
  function ExecuteOps(token: Token, r: Request, output: Option<string>, id: RunId): seq<Op> {
    [Begin(token, r)]
    + if output.None? then [Drop(token)] else [CallProvider(token, output.value), StoreRun(token, id), Finish(token)]
  }

  // ----- what one step does, exactly -----

  /** A call goes on exactly if its key is free; a completed key answers the same request, and every other call changes
      nothing. */
  lemma BeginOutcome(ops: seq<Op>, token: Token, r: Request)
    requires token !in Run(Empty, ops).used
    ensures var w := Run(Empty, ops);
            Step(w, Begin(token, r)) ==
            if r.key !in w.db.records then
              w.(db := w.db.(records := w.db.records[r.key := I.Record(r.hashed, I.Pending(token))]),
                 used := w.used + {token}, calls := w.calls[token := Reserved(r)])
            else if w.db.records[r.key].hash == r.hashed && w.db.records[r.key].ref.Done? then
              w.(answers := w.answers + {(r, w.db.records[r.key].ref.result)})
            else w
  {
    Reachable(ops);
    hide Run;
  }

  /** What the provider has answered is stored as a run of its own, and then completes the key. */
  lemma CallOutcome(ops: seq<Op>, token: Token, id: RunId)
    requires token in Run(Empty, ops).calls
    ensures var w := Run(Empty, ops);
            var called, r := w.calls[token], w.calls[token].r;
            && (called.Called? ==>
                  Step(w, StoreRun(token, id)) ==
                  if id in w.db.runs then w.(calls := w.calls - {token})
                  else w.(db := w.db.(runs := w.db.runs[id := called.output]),
                          calls := w.calls[token := HasRun(r, id)]))
            && (called.HasRun? ==>
                  Step(w, Finish(token)) ==
                  w.(db := w.db.(records := w.db.records[r.key := I.Record(r.hashed, I.Done(called.id))]),
                     answers := w.answers + {(r, called.id)}, calls := w.calls - {token}))
  {
    Reachable(ops);
    hide Run;
  }

  /** The wrapper over the in-memory tables. */
  class IdempotentAIExecutionService {
    const store: I.IdempotencyStore<Key, string, Token, RunId>
    var runs: map<RunId, string>

    constructor (store: I.IdempotencyStore<Key, string, Token, RunId>)
      ensures this.store == store && runs == map[]
    {
      this.store, runs := store, map[];
    }

    function Tables(): Db
      reads this, store
    {
      Db(store.records, runs)
    }

    /** The first transaction: a reservation that is not its own is never executed. */
    method Admit(r: Request, token: Token) returns (tx: Tx<Db, Admission, AiError>)
      modifies store
      ensures tx == AdmitTx(old(Tables()), r, token)
      ensures Tables() == if tx.Commit? then tx.db else old(Tables())
    {
      var reserved := store.Reserve(r.key, r.hashed, I.Pending(token));
      if reserved.Raise? {
        return Raise(Conflict(reserved.error));
      }
      if reserved.answer.ref != I.Pending(token) {
        if reserved.answer.ref.Pending? {
          return Raise(OutcomeUnknown);
        }
        if reserved.answer.ref.result !in runs {
          return Raise(MissingResult);
        }
        return Commit(Tables(), Stored(reserved.answer.ref.result));
      }
      tx := Commit(Tables(), Proceed);
    }

    /** One call that nobody interrupts. It leaves the tables
        where the protocol leaves them, and answers exactly when the protocol records an answer. */
    method Execute(ghost w: World, r: Request, token: Token, output: Option<string>, id: RunId)
      returns (answer: Option<RunId>, ghost w': World)
      requires w.db == Tables() && Inv(w) && token !in w.used
      modifies this, store
      ensures w' == Run(w, ExecuteOps(token, r, output, id))
      ensures Tables() == w'.db
      ensures w'.answers == if answer.Some? then w.answers + {(r, answer.value)} else w.answers
      ensures |w'.executions| <= |w.executions| + 1
    {
      w' := Run(w, ExecuteOps(token, r, output, id));
      ExecuteWrites(w, token, r, output, id);
      hide Inv, Run, ExecuteOps, AdmitTx;
      var admitted := Admit(r, token);
      if admitted.Raise? {
        return None, w';
      }
      if admitted.answer.Stored? {
        return Some(admitted.answer.run), w';
      }
      if output.None? {
        return None, w';
      }
      if id in runs {
        return None, w';
      }
      runs := runs[id := output.value];
      var completed := store.Complete(r.key, r.hashed, I.Done(id));
      if completed.Raise? {
        return None, w';
      }
      answer := Some(id);
    }
  }

  /** What the operations of one call come to. */
  lemma ExecuteWrites(w: World, token: Token, r: Request, output: Option<string>, id: RunId)
    requires Inv(w) && token !in w.used
    ensures var w', tx := Run(w, ExecuteOps(token, r, output, id)), AdmitTx(w.db, r, token);
            && |w'.executions| <= |w.executions| + 1
            && if tx.Raise? then w'.db == w.db && w'.answers == w.answers
               else if tx.answer.Stored? then tx.db == w.db && w'.db == w.db
                 && w'.answers == w.answers + {(r, tx.answer.run)}
               else if output.None? || id in w.db.runs then w'.db == tx.db && w'.answers == w.answers
               else
                 var done := I.CompleteTx(tx.db.records, r.key, r.hashed, I.Done(id));
                 && done.Commit? && w'.db == Db(done.db, w.db.runs[id := output.value]) && tx.db.runs == w.db.runs
                 && w'.answers == w.answers + {(r, id)}
  {
    Unroll(w, token, r, output, id);
    assert token !in w.calls;
    hide Run, ExecuteOps, Inv;
  }

  lemma Unroll(w: World, token: Token, r: Request, output: Option<string>, id: RunId)
    ensures Run(w, ExecuteOps(token, r, output, id))
         == if output.None? then StepDrop(StepBegin(w, token, r), token)
            else StepFinish(StepStore(StepCall(StepBegin(w, token, r), token, output.value), token, id), token)
  {
    hide StepBegin, StepCall, StepStore, StepFinish, StepDrop;
    if output.None? {
      var ops := [Begin(token, r)] + [Drop(token)];
      assert ops[1..] == [Drop(token)] && ops[1..][1..] == [];
      var w1 := Step(w, ops[0]);
      assert Run(w1, ops[1..]) == Run(Step(w1, ops[1..][0]), ops[1..][1..]);
    } else {
      var ops := [Begin(token, r)] + [CallProvider(token, output.value), StoreRun(token, id), Finish(token)];
      assert ops[1..] == [CallProvider(token, output.value), StoreRun(token, id), Finish(token)];
      assert ops[1..][1..] == [StoreRun(token, id), Finish(token)];
      assert ops[1..][1..][1..] == [Finish(token)];
      assert ops[1..][1..][1..][1..] == [];
      var w1 := Step(w, ops[0]);
      var w2 := Step(w1, ops[1]);
      var w3 := Step(w2, ops[2]);
      assert Run(w3, [Finish(token)]) == Run(Step(w3, Finish(token)), []);
      assert Run(w2, ops[1..][1..]) == Run(w3, [Finish(token)]);
      assert Run(w1, ops[1..]) == Run(w2, ops[1..][1..]);
    }
  }
}
