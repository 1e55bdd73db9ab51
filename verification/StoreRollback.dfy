/** What change-safety is false of: two runs the code allows, each with a rollback. */
module StoreRollback {
  import opened Json
  import opened Targeting
  import opened Schema
  import opened Store
  import opened StoreAlone
  import opened StoreRuns

  const E := EnvId(0)
  const OPTIONAL_A := Field("a", BoolField, false, None, None, "", [])
  const REQUIRED_A := Field("a", BoolField, true, None, None, "", [])
  const LOOSE: Definition := [OPTIONAL_A]
  const TIGHT: Definition := [REQUIRED_A]
  const NO_VALUES: Values := map[]
  const SOME_VALUES: Values := map["a" := Bool(true)]
  const ROW1 := VersionRow(NO_VALUES, map[], 2)
  const ROW2 := VersionRow(SOME_VALUES, map[], 2)
  /** Version 1 lacks the field, version 2 has it, and the schema makes it optional. */
  const BEFORE := Db([[], LOOSE], map[E := EnvRow(Some(2), 2)], map[(E, 1) := ROW1, (E, 2) := ROW2])

  lemma OneField(f: Field)
    ensures FieldsOf([f]) == map[f.name := f]
  {
    assert [f][..0] == [];
    assert FieldsOf([f]) == FieldsOf([])[f.name := f];
  }

  lemma Definitions(re: Regex)
    ensures Storable(re, LOOSE) && Storable(re, TIGHT)
    ensures ValidValues(re, LOOSE, NO_VALUES) && ValidValues(re, LOOSE, SOME_VALUES)
    ensures ValidValues(re, TIGHT, SOME_VALUES) && !ValidValues(re, TIGHT, NO_VALUES)
  {
    hide FieldsOf;
    OneField(OPTIONAL_A);
    OneField(REQUIRED_A);
    assert REQUIRED_A in TIGHT;
  }

  /** The rows before are what four write requests make of a new environment. */
  lemma BeforeComesAbout(re: Regex)
    ensures var d0 := CreateEnv(Db([], map[], map[]), E).db;
            && PutSchema(re, d0, LOOSE).Ok?
            && var d1 := PutSchema(re, d0, LOOSE).db;
            && NextNumber(d1, E) == 1 && d1.envs == map[E := EnvRow(None, 0)]
            && PutValues(re, d1, E, NO_VALUES, map[]).Ok?
            && var d2 := PutValues(re, d1, E, NO_VALUES, map[]).db;
            && NextNumber(d2, E) == 2 && d2.envs == map[E := EnvRow(Some(1), 1)]
            && PutValues(re, d2, E, SOME_VALUES, map[]) == Ok(BEFORE)
  {
    Definitions(re);
    hide ValidValues, Storable;
    var d0 := CreateEnv(Db([], map[], map[]), E).db;
    assert d0.envs == map[E := EnvRow(None, 0)];
    var d1 := PutSchema(re, d0, LOOSE).db;
    assert d1 == Db([[], LOOSE], map[E := EnvRow(None, 0)], map[]);
    var d2 := PutValues(re, d1, E, NO_VALUES, map[]).db;
    assert NextNumber(d1, E) == 1;
    assert d2 == Db([[], LOOSE], map[E := EnvRow(Some(1), 1)], map[(E, 1) := ROW1]);
    assert (E, 1) in d2.versions.Keys && NextNumber(d2, E) == 2;
  }

  lemma BeforeIsFine(re: Regex)
    ensures WellKept(re, BEFORE) && ChangeSafe(re, BEFORE)
  {
    Definitions(re);
    hide ValidValues;
    assert BEFORE.defs[1] == LOOSE == CurrentDef(BEFORE);
  }

  const T := Tid(1)
  const U := Tid(2)
  const LOG := [Moved(E, 1, 1), Moved(E, 2, 2)]

  lemma BeforeIsReached(re: Regex) returns (run: seq<Step>)
    ensures Exec(re, false, Init(), run) == Some(Rest(BEFORE, LOG))
  {
    BeforeComesAbout(re);
    hide PutSchema, PutValues, Exec, Next, NextNumber;
    var d0 := CreateEnv(Db([], map[], map[]), E).db;
    var d1 := PutSchema(re, d0, LOOSE).db;
    var d2 := PutValues(re, d1, E, NO_VALUES, map[]).db;
    run := NewEnvRuns(re);
    var more := SchemaRuns(re, false, d0, [], T, LOOSE);
    run := Joined(re, false, Init(), run, Rest(d0, []), more, Rest(d1, []));
    more := PutRuns(re, false, d1, [], T, E, NO_VALUES, map[]);
    assert [] + [Moved(E, 1, 1)] == [Moved(E, 1, 1)];
    run := Joined(re, false, Init(), run, Rest(d1, []), more, Rest(d2, [Moved(E, 1, 1)]));
    more := PutRuns(re, false, d2, [Moved(E, 1, 1)], T, E, SOME_VALUES, map[]);
    assert [Moved(E, 1, 1)] + [Moved(E, 2, 2)] == LOG;
    run := Joined(re, false, Init(), run, Rest(d2, [Moved(E, 1, 1)]), more, Rest(BEFORE, LOG));
  }

  lemma NewEnvRuns(re: Regex) returns (run: seq<Step>)
    ensures Exec(re, false, Init(), run) == Some(Rest(CreateEnv(Db([], map[], map[]), E).db, []))
  {
    run := Then(re, false, Init(), [], Init(), NewEnv(E), Rest(CreateEnv(Db([], map[], map[]), E).db, []));
  }

  /** A rollback does not revalidate: tighten the schema, roll back, and the live values are invalid. */
  lemma RollbackBreaksChangeSafety(re: Regex) returns (run: seq<Step>, s: State)
    ensures PutSchema(re, BEFORE, TIGHT).Ok? && ChangeSafe(re, PutSchema(re, BEFORE, TIGHT).db)
    ensures Exec(re, false, Init(), run) == Some(s) && s.txs == map[]
    ensures Some(s.db) == Reached(Rollback(PutSchema(re, BEFORE, TIGHT).db, E, 1)) && !ChangeSafe(re, s.db)
  {
    Definitions(re);
    hide ValidValues, Storable;
    run := BeforeIsReached(re);
    var tightened := PutSchema(re, BEFORE, TIGHT).db;
    SchemaKeepsChangeSafe(re, BEFORE, TIGHT);
    var more := SchemaRuns(re, false, BEFORE, LOG, T, TIGHT);
    run := Joined(re, false, Init(), run, Rest(BEFORE, LOG), more, Rest(tightened, LOG));
    more := BackRuns(re, false, Rest(tightened, LOG), U, E, 1);
    s := Rest(Rollback(tightened, E, 1).db, LOG + [Moved(E, 1, 3)]);
    run := Joined(re, false, Init(), run, Rest(tightened, LOG), more, s);
    assert CurrentDef(s.db) == TIGHT;
    assert Breaks(re, s.db, TIGHT, E);
  }

  function Reached(o: Outcome): Option<Db> {
    if o.Ok? then Some(o.db) else None
  }

  /**
   * Even a rollback whose target fits the committed definition is not safe: here it commits after
   * a put-schema has checked the environment and before that put-schema commits.
   */
  lemma RaceBreaksChangeSafety(re: Regex) returns (before: seq<Step>, b: State, after: seq<Step>, s: State)
    ensures Exec(re, false, Init(), before) == Some(b) && ChangeSafe(re, b.db)
    ensures b.db == BEFORE && ValidValues(re, CurrentDef(BEFORE), ROW1.values)
    ensures Exec(re, false, b, after) == Some(s) && s.txs == map[] && !ChangeSafe(re, s.db)
  {
    Definitions(re);
    BeforeIsFine(re);
    hide ValidValues, Storable;
    before := BeforeIsReached(re);
    b := Rest(BEFORE, LOG);
    var checked := Checking(BEFORE, LOG, T, TIGHT, {});
    after := SchemaChecks(re, false, BEFORE, LOG, T, TIGHT);
    var more := BackRuns(re, false, checked, U, E, 1);
    var back, log := Rollback(BEFORE, E, 1).db, LOG + [Moved(E, 1, 3)];
    after := Joined(re, false, b, after, checked, more, Checking(back, log, T, TIGHT, {}));
    CheckedCommits(re, false, back, log, T, TIGHT);
    s := Rest(back.(defs := Defs(back) + [TIGHT]), log);
    after := Then(re, false, b, after, Checking(back, log, T, TIGHT, {}), Commit(T), s);
    assert CurrentDef(s.db) == TIGHT;
    assert Breaks(re, s.db, TIGHT, E);
  }
}

/** Which rollbacks are harmless, exactly. */
module StoreHarmless {
  import opened Json
  import opened Schema
  import opened Store
  import opened StoreAlone
  import opened StoreRuns

  predicate IsChecking(tx: Tx) {
    tx.Schema? && tx.schema.SChecking?
  }

  /** The environments a put-schema has gone past fit its definition. */
  predicate Passed(re: Regex, db: Db, tx: Tx)
    requires IsChecking(tx)
  {
    forall e :: e in db.envs && e !in tx.schema.todo ==> !Breaks(re, db, tx.def, e)
  }

  /** No version of the environment fits both the committed definition and def. */
  predicate StuckAt(re: Regex, db: Db, def: Definition, e: EnvId) {
    && e in db.envs && db.envs[e].current.Some?
    && forall k :: k in db.versions && k.0 == e ==>
         !(ValidValues(re, CurrentDef(db), db.versions[k].values) && ValidValues(re, def, db.versions[k].values))
  }

  /** A put-schema that can never commit: an environment it has still to check stands in its way. */
  ghost predicate Stuck(re: Regex, db: Db, tx: Tx)
    requires IsChecking(tx)
  {
    exists e :: e in tx.schema.todo && StuckAt(re, db, tx.def, e)
  }

  /** Safe now, and nothing under way can change that. */
  ghost predicate Holding(re: Regex, s: State) {
    && Inv(re, false, s) && ChangeSafe(re, s.db)
    && forall t :: t in s.txs && IsChecking(s.txs[t]) ==> Passed(re, s.db, s.txs[t]) || Stuck(re, s.db, s.txs[t])
  }

  /** The values fit the committed definition, and that of each put-schema past env that can still commit. */
  ghost predicate Harmless(re: Regex, s: State, env: EnvId, values: Json.Values) {
    && ValidValues(re, CurrentDef(s.db), values)
    && forall t :: t in s.txs && IsChecking(s.txs[t]) && env !in s.txs[t].schema.todo
                   ==> ValidValues(re, s.txs[t].def, values) || Stuck(re, s.db, s.txs[t])
  }

  lemma InvIsHolding(re: Regex, s: State)
    requires Inv(re, true, s)
    ensures Holding(re, s)
  {
    hide ValidValues, WellKept, LocksOk, Breaks, NextNumber, Acceptable, Storable;
    forall t | t in s.txs ensures TxOk(re, false, s.db, s.txs[t])
    {
      assert TxOk(re, true, s.db, s.txs[t]);
    }
    forall t | t in s.txs && IsChecking(s.txs[t]) ensures Passed(re, s.db, s.txs[t]) {
      assert TxOk(re, true, s.db, s.txs[t]);
    }
  }

  // ---------------------------------------------------------------- harmless ones keep everything safe

  /** No one else is checking while t holds the schema row. */
  lemma OneChecker(s: State, t: Tid, u: Tid)
    requires LocksOk(s) && t in s.txs && HoldsSchema(s.txs[t]) && u in s.txs && IsChecking(s.txs[u])
    ensures u == t
  {
    assert HoldsSchema(s.txs[u]);
  }

  lemma StuckStays(re: Regex, db: Db, db': Db, tx: Tx)
    requires IsChecking(tx) && Stuck(re, db, tx)
    requires db'.versions == db.versions && Defs(db') == Defs(db)
    requires forall e :: e in db.envs && db.envs[e].current.Some? ==> e in db'.envs && db'.envs[e].current.Some?
    ensures Stuck(re, db', tx)
  {
    hide ValidValues;
    var e :| e in tx.schema.todo && StuckAt(re, db, tx.def, e);
    assert StuckAt(re, db', tx.def, e);
  }

  lemma AdvanceKeepsHolding(re: Regex, s: State, t: Tid, check: EnvId)
    requires Holding(re, s) && Next(re, true, s, Advance(t, check)).Some?
    ensures Holding(re, Next(re, true, s, Advance(t, check)).value)
  {
    var s' := Next(re, true, s, Advance(t, check)).value;
    AdvanceKeeps(re, false, s, t, check);
    AdvanceKeepsTx(re, false, s, t, check) by { assert TxOk(re, false, s.db, s.txs[t]); }
    if IsChecking(s'.txs[t]) { CheckKeepsPassed(re, s, t, check); }
  }

  lemma CheckKeepsPassed(re: Regex, s: State, t: Tid, check: EnvId)
    requires Holding(re, s) && t in s.txs && s.txs[t].Schema? && AdvanceSchema(re, s, t, s.txs[t], check).Some?
    requires IsChecking(AdvanceSchema(re, s, t, s.txs[t], check).value.txs[t])
    ensures var tx' := AdvanceSchema(re, s, t, s.txs[t], check).value.txs[t];
            Passed(re, s.db, tx') || Stuck(re, s.db, tx')
  {
    hide ValidValues, Inv;
    var tx, tx' := s.txs[t], AdvanceSchema(re, s, t, s.txs[t], check).value.txs[t];
    if tx.schema.SChecking? && !Passed(re, s.db, tx) {
      var e :| e in tx.schema.todo && StuckAt(re, s.db, tx.def, e);
      assert e == check ==> (e, s.db.envs[e].current.value) in s.db.versions by { PointedAt(re, s, e); }
      assert !Breaks(re, s.db, CurrentDef(s.db), e);
      assert e in tx'.schema.todo;
    }
  }

  lemma PointedAt(re: Regex, s: State, e: EnvId)
    requires Inv(re, false, s) && e in s.db.envs && s.db.envs[e].current.Some?
    ensures (e, s.db.envs[e].current.value) in s.db.versions
  {
  }

  lemma BackKeepsChecking(re: Regex, db: Db, env: EnvId, target: int, tx: Tx)
    requires IsChecking(tx) && Rollback(db, env, target).Ok? && env in db.envs
    requires Passed(re, db, tx) || Stuck(re, db, tx)
    requires env !in tx.schema.todo ==>
               ValidValues(re, tx.def, db.versions[(env, target)].values) || Stuck(re, db, tx)
    ensures Passed(re, Rollback(db, env, target).db, tx) || Stuck(re, Rollback(db, env, target).db, tx)
  {
    hide ValidValues, Stuck;
    var db' := Rollback(db, env, target).db;
    if Stuck(re, db, tx) {
      StuckStays(re, db, db', tx);
    } else {
      forall e | e in db'.envs && e !in tx.schema.todo ensures !Breaks(re, db', tx.def, e) {
        assert e in db.envs && !Breaks(re, db, tx.def, e);
      }
    }
  }

  lemma BackLands(re: Regex, s: State, t: Tid, s1: State)
    requires Inv(re, false, s) && t in s.txs && s.txs[t].Back? && ReadyToCommit(s.txs[t])
    requires Next(re, false, s, Commit(t)) == Some(s1)
    ensures LocksOk(s1) && s1.txs == s.txs - {t}
    ensures Rollback(s.db, s.txs[t].env, s.txs[t].target) == Ok(s1.db)
  {
    CommitIsAlone(re, false, s, t);
    CommitKeeps(re, false, s, t);
  }

  /** Committing a harmless rollback. */
  lemma BackKeepsHolding(re: Regex, s: State, t: Tid, s': State)
    requires Holding(re, s) && t in s.txs && s.txs[t].Back? && ReadyToCommit(s.txs[t])
    requires (s.txs[t].env, s.txs[t].target) in s.db.versions && Next(re, false, s, Commit(t)) == Some(s')
    requires Harmless(re, s, s.txs[t].env, s.db.versions[(s.txs[t].env, s.txs[t].target)].values)
    ensures Holding(re, s')
  {
    hide Inv, Next, LocksOk, ValidValues, Passed, Stuck, ChangeSafe;
    var tx := s.txs[t];
    CommitKeeps(re, false, s, t);
    BackLands(re, s, t, s');
    RollbackKeepsChangeSafe(re, s.db, tx.env, tx.target);
    forall u | u in s'.txs && IsChecking(s'.txs[u])
      ensures Passed(re, s'.db, s'.txs[u]) || Stuck(re, s'.db, s'.txs[u])
    {
      assert s'.txs[u] == s.txs[u];
      BackKeepsChecking(re, s.db, tx.env, tx.target, s.txs[u]);
    }
  }

  lemma FitsIsHarmless(re: Regex, s: State, env: EnvId, target: int)
    requires (env, target) in s.db.versions && RollbackFits(re, s, env, target)
    ensures Harmless(re, s, env, s.db.versions[(env, target)].values)
  {
    hide ValidValues, Stuck;
  }

  lemma PutOrSchemaKeepsHolding(re: Regex, s: State, t: Tid)
    requires Holding(re, s) && Next(re, true, s, Commit(t)).Some? && !s.txs[t].Back?
    ensures Holding(re, Next(re, true, s, Commit(t)).value)
  {
    var tx, s' := s.txs[t], Next(re, true, s, Commit(t)).value;
    assert Next(re, false, s, Commit(t)) == Some(s');
    CommitKeeps(re, false, s, t);
    PutOrSchemaIsSafe(re, s, t);
    forall u | u in s'.txs ensures !IsChecking(s'.txs[u]) {
      assert HoldsSchema(tx);
      if IsChecking(s.txs[u]) { OneChecker(s, t, u); }
    }
  }

  lemma PutOrSchemaIsSafe(re: Regex, s: State, t: Tid)
    requires Holding(re, s) && t in s.txs && ReadyToCommit(s.txs[t]) && !s.txs[t].Back?
    ensures ChangeSafe(re, Written(s.db, s.txs[t]))
  {
    var tx := s.txs[t];
    if tx.Put? {
      CommitIsAlone(re, false, s, t);
      hide Inv, ValidValues, ChangeSafe, Acceptable;
      PutKeepsChangeSafe(re, s.db, tx.env, tx.values, tx.targeting);
    } else {
      hide ValidValues, Inv;
      assert Passed(re, s.db, tx);
    }
  }

  lemma NextIsNext(re: Regex, s: State, step: Step)
    requires Next(re, true, s, step).Some?
    ensures Next(re, false, s, step) == Next(re, true, s, step)
  {
    hide RollbackFits, AdvancePut, AdvanceSchema, AdvanceBack, Startable;
  }

  lemma StepKeepsHolding(re: Regex, s: State, step: Step)
    requires Holding(re, s) && Next(re, true, s, step).Some?
    ensures Holding(re, Next(re, true, s, step).value)
  {
    NextIsNext(re, s, step);
    match step
    case Begin(t, tx) => BeginKeeps(re, false, s, t, tx);
    case Advance(t, check) => AdvanceKeepsHolding(re, s, t, check);
    case Abort(t) => AbortKeeps(re, false, s, t);
    case Commit(t) =>
      if s.txs[t].Back? {
        FitsIsHarmless(re, s, s.txs[t].env, s.txs[t].target);
        BackKeepsHolding(re, s, t, Next(re, true, s, step).value);
      } else {
        PutOrSchemaKeepsHolding(re, s, t);
      }
    case NewEnv(env) => NewEnvKeepsHolding(re, s, env);
  }

  lemma NewEnvKeepsHolding(re: Regex, s: State, env: EnvId)
    requires Holding(re, s) && env !in s.db.envs
    ensures Holding(re, s.(db := CreateEnv(s.db, env).db))
  {
    hide Inv, ValidValues, Stuck, Breaks;
    NewEnvKeeps(re, false, s, env);
    var db' := CreateEnv(s.db, env).db;
    NewEnvKeepsSafe(re, s.db, env, CurrentDef(s.db), {});
    forall t | t in s.txs && IsChecking(s.txs[t]) ensures Passed(re, db', s.txs[t]) || Stuck(re, db', s.txs[t]) {
      if Stuck(re, s.db, s.txs[t]) {
        StuckStays(re, s.db, db', s.txs[t]);
      } else {
        NewEnvKeepsSafe(re, s.db, env, s.txs[t].def, s.txs[t].schema.todo);
      }
    }
  }

  lemma {:induction false} ExecKeepsHolding(re: Regex, s: State, steps: seq<Step>)
    requires Holding(re, s) && Exec(re, true, s, steps).Some?
    ensures Holding(re, Exec(re, true, s, steps).value)
    decreases |steps|
  {
    hide Holding, Next;
    if steps != [] {
      StepKeepsHolding(re, s, steps[0]);
      ExecKeepsHolding(re, Next(re, true, s, steps[0]).value, steps[1..]);
    }
  }

  // ---------------------------------------------------------------- the others can do harm

  lemma {:induction false} OthersAbort(re: Regex, s: State, u: Tid) returns (run: seq<Step>)
    requires LocksOk(s) && u in s.txs && IsChecking(s.txs[u])
    ensures Exec(re, true, s, run) == Some(Checking(s.db, s.log, u, s.txs[u].def, s.txs[u].schema.todo))
    decreases |s.txs.Keys|
  {
    hide LocksOk;
    var done := Checking(s.db, s.log, u, s.txs[u].def, s.txs[u].schema.todo);
    if v :| v in s.txs && v != u {
      var s' := Gone(s, v);
      GoneKeepsLocks(s, v, s.db, s.log);
      assert s' == Gone(s, v).(db := s.db, log := s.log) && s'.txs.Keys == s.txs.Keys - {v};
      var rest := OthersAbort(re, s', u);
      assert Next(re, true, s, Abort(v)) == Some(s');
      run := Then(re, true, s, [], s, Abort(v), s');
      run := Joined(re, true, s, run, s', rest, done);
    } else {
      run := [];
      assert s.txs.Keys == {u};
      OnlyChecker(s, u);
      assert s.txs == done.txs;
    }
  }

  lemma OnlyChecker(s: State, u: Tid)
    requires LocksOk(s) && s.txs.Keys == {u} && IsChecking(s.txs[u])
    ensures s.schemaLock == Some(u) && s.envLocks == map[]
  {
    assert HoldsSchema(s.txs[u]);
    assert s.envLocks.Keys == {};
  }

  lemma {:induction false} ChecksWithHelp(
      re: Regex, db: Db, log: seq<Event>, u: Tid, def: Definition, todo: set<EnvId>, env: EnvId)
    returns (run: seq<Step>, db': Db, log': seq<Event>)
    requires env in db.envs && env !in todo && forall e :: e in todo ==> !StuckAt(re, db, def, e)
    ensures Exec(re, true, Checking(db, log, u, def, todo), run) == Some(Checking(db', log', u, def, {}))
    ensures db'.versions == db.versions && env in db'.envs && db'.envs[env] == db.envs[env]
    decreases |todo|
  {
    hide ValidValues, Next, StuckAt, Breaks;
    if e :| e in todo {
      var s := Checking(db, log, u, def, todo);
      var first, db1, log1 := PassesOne(re, db, log, u, def, todo, e);
      run, db', log' := ChecksWithHelp(re, db1, log1, u, def, todo - {e}, env);
      run := Joined(re, true, s, first, Checking(db1, log1, u, def, todo - {e}), run, Checking(db', log', u, def, {}));
    } else {
      assert todo == {};
      run, db', log' := [], db, log;
    }
  }

  /** The put-schema gets past e, after a rollback of e where that is what it takes. */
  lemma PassesOne(re: Regex, db: Db, log: seq<Event>, u: Tid, def: Definition, todo: set<EnvId>, e: EnvId)
    returns (run: seq<Step>, db': Db, log': seq<Event>)
    requires e in todo && forall f :: f in todo ==> !StuckAt(re, db, def, f)
    ensures Exec(re, true, Checking(db, log, u, def, todo), run) == Some(Checking(db', log', u, def, todo - {e}))
    ensures db'.versions == db.versions
    ensures forall f :: f in db.envs && f != e ==> f in db'.envs && db'.envs[f] == db.envs[f]
    ensures forall f :: f in todo ==> !StuckAt(re, db', def, f)
  {
    hide Next, ValidValues;
    var s := Checking(db, log, u, def, todo);
    db', log', run := db, log, [];
    if Breaks(re, db, def, e) {
      run, db', log' := Helps(re, db, log, u, def, todo, e);
    }
    hide Breaks;
    CheckOne(re, true, db', log', u, def, todo, e);
    run := Then(re, true, s, run, Checking(db', log', u, def, todo), Advance(u, e),
                Checking(db', log', u, def, todo - {e}));
  }

  /** A rollback of e that fits, to a version the put-schema's definition accepts. */
  lemma Helps(re: Regex, db: Db, log: seq<Event>, u: Tid, def: Definition, todo: set<EnvId>, e: EnvId)
    returns (run: seq<Step>, db': Db, log': seq<Event>)
    requires e in todo && Breaks(re, db, def, e) && forall f :: f in todo ==> !StuckAt(re, db, def, f)
    ensures Exec(re, true, Checking(db, log, u, def, todo), run) == Some(Checking(db', log', u, def, todo))
    ensures db'.versions == db.versions
    ensures forall f :: f in db.envs && f != e ==> f in db'.envs && db'.envs[f] == db.envs[f]
    ensures !Breaks(re, db', def, e) && forall f :: f in todo ==> !StuckAt(re, db', def, f)
  {
    hide Next, Exec, ValidValues;
    var s := Checking(db, log, u, def, todo);
    assert !StuckAt(re, db, def, e);
    var k :| k in db.versions && k.0 == e
             && ValidValues(re, CurrentDef(db), db.versions[k].values) && ValidValues(re, def, db.versions[k].values);
    assert k == (e, k.1);
    db', log' := Rollback(db, e, k.1).db, log + [Moved(e, k.1, db.envs[e].revision + 1)];
    run := BackRuns(re, true, s, Tid(u.id + 1), e, k.1);
    forall f | f in todo ensures !StuckAt(re, db', def, f) {
      assert !StuckAt(re, db, def, f);
    }
  }

  /** A rollback under a put-schema that can still commit, to values its definition refuses. */
  lemma CanGetUnsafe(re: Regex, s: State, u: Tid, env: EnvId) returns (run: seq<Step>, z: State)
    requires LocksOk(s) && u in s.txs && IsChecking(s.txs[u]) && !Stuck(re, s.db, s.txs[u])
    requires env !in s.txs[u].schema.todo && Breaks(re, s.db, s.txs[u].def, env)
    ensures Exec(re, true, s, run) == Some(z) && !ChangeSafe(re, z.db)
  {
    hide ValidValues, Exec, LocksOk, Next;
    var tx := s.txs[u];
    run := OthersAbort(re, s, u);
    forall e | e in tx.schema.todo ensures !StuckAt(re, s.db, tx.def, e) {}
    var more, db, log := ChecksWithHelp(re, s.db, s.log, u, tx.def, tx.schema.todo, env);
    var checked := Checking(db, log, u, tx.def, {});
    run := Joined(re, true, s, run, Checking(s.db, s.log, u, tx.def, tx.schema.todo), more, checked);
    CheckedCommits(re, true, db, log, u, tx.def);
    z := Rest(db.(defs := Defs(db) + [tx.def]), log);
    run := Then(re, true, s, run, checked, Commit(u), z);
    assert CurrentDef(z.db) == tx.def && Breaks(re, z.db, tx.def, env);
  }

  /**
   * Exactly which rollbacks are harmless: however the run goes on after the commit, as long as
   * later rollbacks fit, live values stay valid - if and only if this one's target fits the
   * committed definition and that of each put-schema past its environment that can still commit.
   */
  lemma HarmlessRollbacks(re: Regex, s: State, t: Tid)
    requires Holding(re, s) && t in s.txs && s.txs[t].Back? && ReadyToCommit(s.txs[t])
    ensures (s.txs[t].env, s.txs[t].target) in s.db.versions && Next(re, false, s, Commit(t)).Some?
    ensures Harmless(re, s, s.txs[t].env, s.db.versions[(s.txs[t].env, s.txs[t].target)].values)
            <==> forall run, z :: Exec(re, true, Next(re, false, s, Commit(t)).value, run) == Some(z)
                                  ==> ChangeSafe(re, z.db)
  {
    assert TxOk(re, false, s.db, s.txs[t]);
    var tx, s1 := s.txs[t], Next(re, false, s, Commit(t)).value;
    if Harmless(re, s, tx.env, s.db.versions[(tx.env, tx.target)].values) {
      BackKeepsHolding(re, s, t, s1);
      forall run, z | Exec(re, true, s1, run) == Some(z) ensures ChangeSafe(re, z.db) {
        ExecKeepsHolding(re, s1, run);
      }
    } else {
      var run, z := HarmfulRollback(re, s, t, s1);
    }
  }

  lemma HarmfulRollback(re: Regex, s: State, t: Tid, s1: State) returns (run: seq<Step>, z: State)
    requires Holding(re, s) && t in s.txs && s.txs[t].Back? && ReadyToCommit(s.txs[t])
    requires (s.txs[t].env, s.txs[t].target) in s.db.versions && Next(re, false, s, Commit(t)) == Some(s1)
    requires !Harmless(re, s, s.txs[t].env, s.db.versions[(s.txs[t].env, s.txs[t].target)].values)
    ensures Exec(re, true, s1, run) == Some(z) && !ChangeSafe(re, z.db)
  {
    hide Inv, Next, LocksOk, Stuck, ValidValues;
    var tx := s.txs[t];
    var values := s.db.versions[(tx.env, tx.target)].values;
    BackLands(re, s, t, s1);
    if !ValidValues(re, CurrentDef(s.db), values) {
      run, z := [], s1;
      assert Breaks(re, s1.db, CurrentDef(s1.db), tx.env);
    } else {
      var u :| u in s.txs && IsChecking(s.txs[u]) && tx.env !in s.txs[u].schema.todo
               && !ValidValues(re, s.txs[u].def, values) && !Stuck(re, s.db, s.txs[u]);
      assert u in s1.txs && s1.txs[u] == s.txs[u];
      if Stuck(re, s1.db, s1.txs[u]) { StuckBack(re, s.db, s1.db, s.txs[u]); }
      assert Breaks(re, s1.db, s1.txs[u].def, tx.env);
      run, z := CanGetUnsafe(re, s1, u, tx.env);
    }
  }

  lemma StuckBack(re: Regex, db: Db, db': Db, tx: Tx)
    requires IsChecking(tx) && Stuck(re, db', tx) && db'.versions == db.versions && Defs(db') == Defs(db)
    requires forall e :: e in tx.schema.todo && e in db'.envs ==> e in db.envs && db'.envs[e] == db.envs[e]
    ensures Stuck(re, db, tx)
  {
    hide ValidValues;
    var e :| e in tx.schema.todo && StuckAt(re, db', tx.def, e);
    assert StuckAt(re, db, tx.def, e);
  }
}
