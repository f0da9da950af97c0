/** The migration ledger: applying a plan, applying it again, extending it, and adopting an existing schema. */
module Migrations {
  import opened Common

  /** The checksum of a migration is taken as its SQL. */
  datatype Migration = Migration(version: nat, name: string, sql: string)
  datatype Row = Row(name: string, checksum: string)
  type Ledger = map<nat, Row>

  /** `executed` is the SQL that has been run and committed, in order. */
  datatype Db = Db(ledger: Option<Ledger>, executed: seq<Migration>)

  const BASELINE: nat := 8

  /** What the constructor of a plan accepts: versions contiguous from 1. */
  predicate ValidPlan(plan: seq<Migration>) { forall i | 0 <= i < |plan| :: plan[i].version == i + 1 }

  function RowOf(m: Migration): Row { Row(m.name, m.sql) }

  /** The ledger of a plan that has been applied in full. */
  function LedgerOf(plan: seq<Migration>): Ledger {
    if plan == [] then map[] else LedgerOf(plan[..|plan| - 1])[|plan| := RowOf(plan[|plan| - 1])]
  }

  function Rows(db: Db): Ledger { if db.ledger.Some? then db.ledger.value else map[] }

  /** The versions are 1 to their number. */
  predicate Contiguous(l: Ledger) { forall v | v in l :: 1 <= v <= |l| }

  /** The ledger is what applying a prefix of the plan leaves. */
  predicate IsPrefixOf(l: Ledger, plan: seq<Migration>) { |l| <= |plan| && l == LedgerOf(plan[..|l|]) }

  /** The remaining migrations run without error and have names of their own. */
  predicate Runnable(plan: seq<Migration>, from: nat, fails: set<nat>) {
    forall i | from <= i < |plan| :: plan[i].version !in fails && !Named(plan, i, plan[i].name)
  }

  datatype MigrationError =
    | Gap | Unknown | Differs | SqlFailed | DuplicateName | Populated | SchemaDiffers | PlanTooShort

  /** Whether `apply` commits; `fails` are the versions whose SQL raises. */
  predicate Applies(db: Db, plan: seq<Migration>, fails: set<nat>) {
    IsPrefixOf(Rows(db), plan) && Runnable(plan, |Rows(db)|, fails)
  }

  /** The database after `apply`: everything, or nothing at all. */
  function Applied(db: Db, plan: seq<Migration>, fails: set<nat>): Db {
    if Applies(db, plan, fails) then Db(Some(LedgerOf(plan)), db.executed + plan[|Rows(db)|..]) else db
  }

  lemma {:induction false} LedgerRows(plan: seq<Migration>)
    ensures |LedgerOf(plan)| == |plan| && forall v :: v in LedgerOf(plan) <==> 1 <= v <= |plan|
    ensures forall v | 1 <= v <= |plan| :: LedgerOf(plan)[v] == RowOf(plan[v - 1])
  {
    if plan != [] { LedgerRows(plan[..|plan| - 1]); }
  }

  /** Versions within 1 to their number are all of them. */
  lemma ContiguousIsFull(l: Ledger)
    requires Contiguous(l)
    ensures forall v :: v in l <==> 1 <= v <= |l|
  {
    assert |l.Keys| == |l|;
    RangeCard(l.Keys, 1, |l|);
  }

  /** The rows up to `i` agree with the plan. */
  predicate Checked(l: Ledger, plan: seq<Migration>, i: nat) {
    forall v | v in l && 1 <= v <= i && v <= |plan| :: l[v] == RowOf(plan[v - 1])
  }

  lemma PrefixIff(l: Ledger, plan: seq<Migration>)
    ensures IsPrefixOf(l, plan) <==> Contiguous(l) && |l| <= |plan| && Checked(l, plan, |l|)
  {
    if |l| <= |plan| {
      LedgerRows(plan[..|l|]);
      if Contiguous(l) { ContiguousIsFull(l); }
    }
  }

  /** The database after the loop has gone through the first `i` migrations. */
  function Progress(db: Db, plan: seq<Migration>, i: nat): Db
    requires i <= |plan|
  {
    var k := |Rows(db)|;
    if i <= k then Db(Some(Rows(db)), db.executed) else Db(Some(LedgerOf(plan[..i])), db.executed + plan[k..i])
  }

  predicate NameTaken(l: Ledger, name: string) { exists v :: v in l && l[v].name == name }

  predicate Named(plan: seq<Migration>, i: nat, name: string)
    requires i <= |plan|
  {
    exists j :: 0 <= j < i && plan[j].name == name
  }

  /** The name of the next migration is in the ledger exactly when an earlier one has it. */
  lemma TakenIffNamed(plan: seq<Migration>, i: nat)
    requires i < |plan|
    ensures NameTaken(LedgerOf(plan[..i]), plan[i].name) <==> Named(plan, i, plan[i].name)
  {
    LedgerRows(plan[..i]);
    hide LedgerOf;
    var l := LedgerOf(plan[..i]);
    if Named(plan, i, plan[i].name) {
      var j :| 0 <= j < i && plan[j].name == plan[i].name;
      assert (j + 1) in l && l[j + 1].name == plan[i].name;
    }
    if NameTaken(l, plan[i].name) {
      var v :| v in l && l[v].name == plan[i].name;
      assert plan[v - 1].name == plan[i].name;
    }
  }

  /** One new migration extends the ledger and what has been executed; its name is taken exactly when an
      earlier migration of the plan has it. */
  lemma ProgressStep(db: Db, plan: seq<Migration>, i: nat)
    requires ValidPlan(plan) && i < |plan| && IsPrefixOf(Rows(db), plan) && |Rows(db)| <= i
    ensures var now := Progress(db, plan, i);
            && now.ledger.value == LedgerOf(plan[..i])
            && Progress(db, plan, i + 1) == Db(Some(now.ledger.value[plan[i].version := RowOf(plan[i])]),
                                               now.executed + [plan[i]])
            && (NameTaken(now.ledger.value, plan[i].name) <==> Named(plan, i, plan[i].name))
  {
    TakenIffNamed(plan, i);
    hide NameTaken, Named;
    assert plan[..i + 1][..i] == plan[..i];
  }

  lemma NothingChecked(db: Db, plan: seq<Migration>)
    ensures Checked(Rows(db), plan, 0) && Progress(db, plan, 0) == Db(Some(Rows(db)), db.executed)
  {}

  /** A row that is there already is compared, and nothing else happens. */
  lemma RowIsSkipped(db: Db, plan: seq<Migration>, i: nat)
    requires ValidPlan(plan) && i < |plan| && Contiguous(Rows(db)) && Checked(Rows(db), plan, i)
    ensures i + 1 in Rows(db) <==> i < |Rows(db)|
    ensures i < |Rows(db)| ==>
              && Progress(db, plan, i + 1) == Progress(db, plan, i)
              && (Checked(Rows(db), plan, i + 1) <==> Rows(db)[i + 1] == RowOf(plan[i]))
              && (Rows(db)[i + 1] != RowOf(plan[i]) ==> !Checked(Rows(db), plan, |Rows(db)|))
    ensures i >= |Rows(db)| ==> Checked(Rows(db), plan, i + 1) && Checked(Rows(db), plan, |Rows(db)|)
  {
    ContiguousIsFull(Rows(db));
  }

  lemma RowsAreChecked(db: Db, plan: seq<Migration>)
    requires Checked(Rows(db), plan, |plan|) && |Rows(db)| <= |plan|
    ensures Checked(Rows(db), plan, |Rows(db)|)
  {}

  /** What the loop ends with. */
  lemma AllApplied(db: Db, plan: seq<Migration>, fails: set<nat>)
    requires Contiguous(Rows(db)) && |Rows(db)| <= |plan| && Checked(Rows(db), plan, |plan|)
             && Runnable(plan, |Rows(db)|, fails)
    ensures Applies(db, plan, fails) && Applied(db, plan, fails) == Progress(db, plan, |plan|)
  {
    PrefixIff(Rows(db), plan);
    assert plan[..|plan|] == plan;
    assert plan[|plan|..] == [];
  }

  class MigrationRunner {
    const plan: seq<Migration>
    var ledger: Option<Ledger>
    var executed: seq<Migration>

    constructor (plan: seq<Migration>, db: Db)
      requires ValidPlan(plan)
      ensures this.plan == plan && Value() == db
    {
      this.plan, ledger, executed := plan, db.ledger, db.executed;
    }

    function Value(): Db
      reads this
    {
      Db(ledger, executed)
    }

    /** What `_validate_applied_ledger` rejects. */
    method Validate(applied: Ledger) returns (error: Option<MigrationError>)
      ensures error.None? <==> Contiguous(applied) && |applied| <= |plan|
      ensures error.Some? ==> error.value == if Contiguous(applied) then Unknown else Gap
    {
      if exists v :: v in applied && !(1 <= v <= |applied|) {
        return Some(Gap);
      }
      if |applied| > |plan| {
        return Some(Unknown);
      }
      error := None;
    }

    /** Run one new migration and record it; the caller undoes everything on an error. */
    method RunNext(ghost before: Db, i: nat, fails: set<nat>) returns (error: Option<MigrationError>)
      requires ValidPlan(plan) && i < |plan| && IsPrefixOf(Rows(before), plan) && |Rows(before)| <= i
      requires Value() == Progress(before, plan, i) && ledger.Some?
      modifies this
      ensures error.None? <==> plan[i].version !in fails && !Named(plan, i, plan[i].name)
      ensures error.None? ==> Value() == Progress(before, plan, i + 1) && ledger.Some?
      ensures error.Some? ==> error.value in {SqlFailed, DuplicateName}
    {
      hide LedgerOf, Named, NameTaken, Progress, IsPrefixOf;
      var m := plan[i];
      ProgressStep(before, plan, i);
      if m.version in fails {
        return Some(SqlFailed);
      }
      executed := executed + [m];
      if NameTaken(ledger.value, m.name) {
        return Some(DuplicateName);
      }
      ledger := Some(ledger.value[m.version := RowOf(m)]);
      error := None;
    }

    /** The loop of `apply`, under one transaction: on any error everything is rolled back. */
    method Apply(fails: set<nat>) returns (report: Result<seq<nat>, MigrationError>)
      requires ValidPlan(plan)
      modifies this
      ensures Value() == Applied(old(Value()), plan, fails)
      ensures report.Ok? <==> Applies(old(Value()), plan, fails)
      ensures report.Ok? ==> report.value == seq(|plan| - |Rows(old(Value()))|, i => |Rows(old(Value()))| + i + 1)
      ensures report.Err? ==>
                var rows := Rows(old(Value()));
                && (report.error == Gap <==> !Contiguous(rows))
                && (report.error == Unknown <==> Contiguous(rows) && |rows| > |plan|)
                && (report.error == Differs <==> Contiguous(rows) && |rows| <= |plan| && !Checked(rows, plan, |rows|))
    {
      hide LedgerOf, Named, NameTaken, Progress, Checked, Contiguous, IsPrefixOf;
      var before := Value();
      var rows := Rows(before);
      PrefixIff(rows, plan);
      var invalid := Validate(rows);
      if invalid.Some? {
        return Err(invalid.value);
      }
      NothingChecked(before, plan);
      ledger := Some(rows);
      var done: seq<nat> := [];
      var i := 0;
      while i < |plan|
        invariant 0 <= i <= |plan| && Value() == Progress(before, plan, i) && ledger.Some? && Checked(rows, plan, i)
        invariant done == if i <= |rows| then [] else seq(i - |rows|, n => |rows| + n + 1)
        invariant forall n | |rows| <= n < i :: plan[n].version !in fails && !Named(plan, n, plan[n].name)
      {
        RowIsSkipped(before, plan, i);
        var m := plan[i];
        if m.version in rows {
          if rows[m.version] != RowOf(m) {
            ledger, executed := before.ledger, before.executed;
            return Err(Differs);
          }
        } else {
          var failed := RunNext(before, i, fails);
          if failed.Some? {
            ledger, executed := before.ledger, before.executed;
            return Err(failed.value);
          }
          done := done + [m.version];
        }
        i := i + 1;
      }
      RowsAreChecked(before, plan);
      AllApplied(before, plan, fails);
      report := Ok(done);
    }

    /** The ledger rows of the first `n` migrations, or none when two share a name. */
    method BaselineRows(n: nat) returns (rows: Option<Ledger>)
      requires ValidPlan(plan) && n <= |plan|
      ensures rows.Some? <==> forall i | 0 <= i < n :: !Named(plan, i, plan[i].name)
      ensures rows.Some? ==> rows.value == LedgerOf(plan[..n])
    {
      var written: Ledger := map[];
      var i := 0;
      assert plan[..0] == [] && LedgerOf([]) == map[];
      hide LedgerOf, Named, NameTaken;
      while i < n
        invariant 0 <= i <= n && written == LedgerOf(plan[..i])
        invariant forall k | 0 <= k < i :: !Named(plan, k, plan[k].name)
      {
        NamesInLedger(plan, i);
        if NameTaken(written, plan[i].name) {
          return None;
        }
        written := written[plan[i].version := RowOf(plan[i])];
        i := i + 1;
      }
      rows := Some(written);
    }

    /** Adopt an existing schema: write the ledger rows of the baseline without running anything. */
    method AdoptExistingSchema(schemaOk: bool) returns (error: Option<MigrationError>)
      requires ValidPlan(plan)
      modifies this
      ensures Value() == Adopted(old(Value()), plan, schemaOk)
      ensures error.None? <==> Adopts(old(Value()), plan, schemaOk)
    {
      hide LedgerOf, Named;
      if |plan| < BASELINE {
        return Some(PlanTooShort);
      }
      if ledger.Some? && |ledger.value| > 0 {
        return Some(Populated);
      }
      if !schemaOk {
        return Some(SchemaDiffers);
      }
      var rows := BaselineRows(BASELINE);
      if rows.None? {
        return Some(DuplicateName);
      }
      ledger := rows;
      error := None;
    }
  }

  lemma NamesInLedger(plan: seq<Migration>, i: nat)
    requires ValidPlan(plan) && i < |plan|
    ensures NameTaken(LedgerOf(plan[..i]), plan[i].name) <==> Named(plan, i, plan[i].name)
    ensures LedgerOf(plan[..i + 1]) == LedgerOf(plan[..i])[plan[i].version := RowOf(plan[i])]
  {
    LedgerRows(plan[..i]);
    assert plan[..i + 1][..i] == plan[..i];
    ProgressStep(Db(Some(LedgerOf(plan[..i])), []), plan, i) by { assert plan[..i] == plan[..|LedgerOf(plan[..i])|]; }
  }

  // ----- what applying adds up to -----

  lemma PrefixOfItself(plan: seq<Migration>, k: nat)
    requires k <= |plan|
    ensures |LedgerOf(plan[..k])| == k && IsPrefixOf(LedgerOf(plan[..k]), plan)
  {
    LedgerRows(plan[..k]);
  }

  /** A second `apply` commits and runs nothing. */
  lemma ApplyTwice(db: Db, plan: seq<Migration>, fails: set<nat>, again: set<nat>)
    requires Applies(db, plan, fails)
    ensures var once := Applied(db, plan, fails);
            Applies(once, plan, again) && Applied(once, plan, again) == once
  {
    PrefixOfItself(plan, |plan|);
    assert plan[..|plan|] == plan;
  }

  lemma SameNames(plan: seq<Migration>, more: seq<Migration>, i: nat)
    requires i < |plan|
    ensures (plan + more)[i] == plan[i] && (Named(plan + more, i, plan[i].name) <==> Named(plan, i, plan[i].name))
  {
    assert forall j | 0 <= j <= i :: (plan + more)[j] == plan[j];
  }

  /** Applying a plan and then an extension of it is applying the extension: the same ledger, the same SQL
      in the same order. */
  lemma ApplyThenExtend(db: Db, plan: seq<Migration>, more: seq<Migration>, fails: set<nat>)
    requires Applies(db, plan + more, fails) && |Rows(db)| <= |plan|
    ensures Applies(db, plan, fails) && Applies(Applied(db, plan, fails), plan + more, fails)
    ensures Applied(Applied(db, plan, fails), plan + more, fails) == Applied(db, plan + more, fails)
  {
    var k := |Rows(db)|;
    var all := plan + more;
    assert all[..k] == plan[..k] && all[..|plan|] == plan;
    forall i | k <= i < |plan| ensures plan[i].version !in fails && !Named(plan, i, plan[i].name) {
      assert !Named(all, i, all[i].name);
      SameNames(plan, more, i);
    }
    PrefixOfItself(all, |plan|);
    assert all[k..] == plan[k..] + all[|plan|..];
    hide LedgerOf, Named;
  }

  /** Adopting commits on an empty ledger over a matching schema, for a plan that covers the baseline. */
  predicate Adopts(db: Db, plan: seq<Migration>, schemaOk: bool) {
    && |plan| >= BASELINE && Rows(db) == map[] && schemaOk
    && forall i | 0 <= i < BASELINE :: !Named(plan, i, plan[i].name)
  }

  function Adopted(db: Db, plan: seq<Migration>, schemaOk: bool): Db {
    if Adopts(db, plan, schemaOk) then db.(ledger := Some(LedgerOf(plan[..BASELINE]))) else db
  }

  /** Adopting and then applying ends in the ledger of a fresh `apply`, and runs only what comes after the
      baseline. */
  lemma AdoptThenApply(db: Db, plan: seq<Migration>, fails: set<nat>)
    requires Adopts(db, plan, true) && Applies(db, plan, {}) && forall v | v in fails :: v <= BASELINE
    requires ValidPlan(plan)
    ensures var adopted := Applied(Adopted(db, plan, true), plan, fails);
            && Applies(Adopted(db, plan, true), plan, fails)
            && adopted.ledger == Applied(db, plan, {}).ledger == Some(LedgerOf(plan))
            && adopted.executed == db.executed + plan[BASELINE..]
  {
    PrefixOfItself(plan, BASELINE);
  }

  // ----- every run -----

  /** Each release brings a plan of its own, and the versions whose SQL would raise. */
  datatype Op = Apply(plan: seq<Migration>, fails: set<nat>) | Adopt(plan: seq<Migration>, schemaOk: bool)

  /** `history` records the migrations that have been applied or adopted. */
  datatype World = World(db: Db, history: seq<Migration>)

  /** A plan that its constructor rejects does nothing. */
  function Step(w: World, op: Op): World {
    if !ValidPlan(op.plan) then w
    else match op
      case Apply(plan, fails) => if Applies(w.db, plan, fails) then World(Applied(w.db, plan, fails), plan) else w
      case Adopt(plan, schemaOk) =>
        if Adopts(w.db, plan, schemaOk) then World(Adopted(w.db, plan, schemaOk), plan[..BASELINE]) else w
  }

  const Empty: World := World(Db(None, []), [])

  function Run(w: World, ops: seq<Op>): World
    decreases |ops|
  {
    if ops == [] then w else Run(Step(w, ops[0]), ops[1..])
  }

  /** The ledger is that of the history, and what has been executed is the history, with or without its
      baseline. */
  ghost predicate Sound(w: World) {
    && ValidPlan(w.history) && Rows(w.db) == LedgerOf(w.history)
    && (w.db.executed == w.history || (|w.history| >= BASELINE && w.db.executed == w.history[BASELINE..]))
  }

  /** Rows determine the migrations they were written for. */
  lemma LedgerDetermines(a: seq<Migration>, b: seq<Migration>)
    requires ValidPlan(a) && ValidPlan(b) && LedgerOf(a) == LedgerOf(b)
    ensures a == b
  {
    LedgerRows(a);
    LedgerRows(b);
    hide LedgerOf;
    forall i | 0 <= i < |a| ensures a[i] == b[i] { assert LedgerOf(a)[i + 1] == RowOf(b[i]); }
  }

  /** The ledger of a history is a prefix of exactly the plans that extend the history. */
  lemma PrefixIffExtends(history: seq<Migration>, plan: seq<Migration>)
    requires ValidPlan(history) && ValidPlan(plan)
    ensures |LedgerOf(history)| == |history|
    ensures IsPrefixOf(LedgerOf(history), plan) <==> history <= plan
  {
    LedgerRows(history);
    if |history| <= |plan| {
      var prefix := plan[..|history|];
      if LedgerOf(history) == LedgerOf(prefix) { LedgerDetermines(history, prefix); }
      hide LedgerOf, ValidPlan;
      assert history <= plan <==> history == prefix;
    }
  }

  lemma ApplyIsSound(w: World, plan: seq<Migration>, fails: set<nat>)
    requires Sound(w) && ValidPlan(plan) && Applies(w.db, plan, fails)
    ensures Sound(Step(w, Apply(plan, fails))) && w.history <= plan
    ensures w.db.executed <= Step(w, Apply(plan, fails)).db.executed
  {
    PrefixIffExtends(w.history, plan);
    var k := |w.history|;
    assert plan == w.history + plan[k..];
    if k >= BASELINE { assert plan[BASELINE..] == w.history[BASELINE..] + plan[k..]; }
    hide LedgerOf, Runnable, IsPrefixOf;
  }

  lemma AdoptIsSound(w: World, plan: seq<Migration>, schemaOk: bool)
    requires Sound(w) && ValidPlan(plan) && Adopts(w.db, plan, schemaOk)
    ensures w.history == [] && Sound(Step(w, Adopt(plan, schemaOk)))
    ensures w.db.executed <= Step(w, Adopt(plan, schemaOk)).db.executed
  {
    LedgerRows(w.history);
    assert w.history == [];
    assert plan[..BASELINE][BASELINE..] == [];
    hide LedgerOf;
  }

  lemma StepIsSound(w: World, op: Op)
    requires Sound(w)
    ensures Sound(Step(w, op)) && w.history <= Step(w, op).history && w.db.executed <= Step(w, op).db.executed
  {
    if ValidPlan(op.plan) {
      if op.Apply? && Applies(w.db, op.plan, op.fails) { ApplyIsSound(w, op.plan, op.fails); }
      if op.Adopt? && Adopts(w.db, op.plan, op.schemaOk) { AdoptIsSound(w, op.plan, op.schemaOk); }
    }
    hide Sound, Applies, Adopts;
  }

  lemma {:induction false} RunsStaySound(w: World, ops: seq<Op>)
    requires Sound(w)
    ensures Sound(Run(w, ops)) && w.history <= Run(w, ops).history && w.db.executed <= Run(w, ops).db.executed
    decreases |ops|
  {
    if ops != [] {
      StepIsSound(w, ops[0]);
      hide Step, Sound;
      RunsStaySound(Step(w, ops[0]), ops[1..]);
    }
  }

  lemma EmptyIsSound()
    ensures Sound(Empty)
  {}

  lemma {:induction false} RunConcat(w: World, a: seq<Op>, b: seq<Op>)
    ensures Run(w, a + b) == Run(Run(w, a), b)
    decreases |a|
  {
    if a == [] {
      assert a + b == b;
    } else {
      hide Step;
      assert (a + b)[1..] == a[1..] + b;
      RunConcat(Step(w, a[0]), a[1..], b);
    }
  }

  /** Over every sequence of applies and adoptions, of whatever plans, the ledger is that of one history
      which only ever grows by extension; what has been executed is that history in order, each migration
      once, with or without its baseline; and nothing executed is ever undone. */
  lemma RunsAreSound(ops: seq<Op>, more: seq<Op>)
    ensures var w := Run(Empty, ops);
            && ValidPlan(w.history) && Rows(w.db) == LedgerOf(w.history)
            && (w.db.executed == w.history || (|w.history| >= BASELINE && w.db.executed == w.history[BASELINE..]))
    ensures Run(Empty, ops).history <= Run(Empty, ops + more).history
    ensures Run(Empty, ops).db.executed <= Run(Empty, ops + more).db.executed
  {
    EmptyIsSound();
    RunsStaySound(Empty, ops);
    RunConcat(Empty, ops, more);
    RunsStaySound(Run(Empty, ops), more);
    hide Run;
  }

  /** A release is applied exactly when its plan extends the history, migration by migration, and the new
      migrations run and have names of their own: a plan with an edited, renamed or missing migration
      changes nothing. A schema is adopted only where nothing has been applied before. */
  lemma CommitsIffExtends(ops: seq<Op>, plan: seq<Migration>, fails: set<nat>, schemaOk: bool)
    requires ValidPlan(plan)
    ensures var w := Run(Empty, ops);
            && (Applies(w.db, plan, fails) <==> w.history <= plan && Runnable(plan, |w.history|, fails))
            && (Adopts(w.db, plan, schemaOk) <==>
                  w.history == [] && schemaOk && |plan| >= BASELINE
                    && forall i | 0 <= i < BASELINE :: !Named(plan, i, plan[i].name))
  {
    RunsAreSound(ops, []);
    var w := Run(Empty, ops);
    PrefixIffExtends(w.history, plan);
    LedgerRows(w.history);
    hide Run, LedgerOf, IsPrefixOf, Runnable, Named;
  }
}
