/** The write paths run one after the other are runs of the transaction machine. */
module StoreAlone {
  import opened Json
  import opened Targeting
  import opened Schema
  import opened Store
  import opened StoreRuns

  /** No transaction under way. */
  function Rest(db: Db, log: seq<Event>): State {
    State(db, None, map[], map[], log)
  }

  /** A put-schema under way by itself, with the environments of todo still to be checked. */
  function Checking(db: Db, log: seq<Event>, t: Tid, def: Definition, todo: set<EnvId>): State {
    State(db, Some(t), map[], map[t := Tx.Schema(def, SChecking(todo))], log)
  }

  lemma {:induction false} ExecConcat(re: Regex, strict: bool, s: State, a: seq<Step>, m: State, b: seq<Step>)
    requires Exec(re, strict, s, a) == Some(m)
    ensures Exec(re, strict, s, a + b) == Exec(re, strict, m, b)
    decreases |a|
  {
    hide Next;
    if a == [] {
      assert a + b == b;
    } else {
      assert (a + b)[1..] == a[1..] + b;
      ExecConcat(re, strict, Next(re, strict, s, a[0]).value, a[1..], m, b);
    }
  }

  lemma Then(re: Regex, strict: bool, s: State, run: seq<Step>, m: State, step: Step, n: State)
    returns (run': seq<Step>)
    requires Exec(re, strict, s, run) == Some(m) && Next(re, strict, m, step) == Some(n)
    ensures Exec(re, strict, s, run') == Some(n)
  {
    hide Next;
    run' := run + [step];
    assert [step][0] == step && [step][1..] == [];
    assert Exec(re, strict, m, [step]) == Some(n);
    ExecConcat(re, strict, s, run, m, [step]);
  }

  lemma Joined(re: Regex, strict: bool, s: State, a: seq<Step>, m: State, b: seq<Step>, n: State)
    returns (run: seq<Step>)
    requires Exec(re, strict, s, a) == Some(m) && Exec(re, strict, m, b) == Some(n)
    ensures Exec(re, strict, s, run) == Some(n)
  {
    run := a + b;
    ExecConcat(re, strict, s, a, m, b);
  }

  lemma Rewrites(s: State, t: Tid, a: Tx, b: Tx)
    ensures With(With(s, t, a), t, b) == With(s, t, b)
  {
    assert s.txs[t := a][t := b] == s.txs[t := b];
  }

  /** A transaction that is done leaves no trace but its rows. */
  lemma Leaves(s: State, t: Tid, tx: Tx, schemaLock: Option<Tid>, env: EnvId)
    requires t !in s.txs && s.schemaLock != Some(t) && s.envLocks == map[]
    requires schemaLock == s.schemaLock || (s.schemaLock.None? && schemaLock == Some(t))
    ensures Gone(With(s, t, tx).(schemaLock := schemaLock, envLocks := map[env := t]), t) == s
    ensures Gone(With(s, t, tx).(schemaLock := schemaLock), t) == s
  {
    assert s.txs[t := tx] - {t} == s.txs;
    assert (map e | e in map[env := t] && map[env := t][e] != t :: map[env := t][e]) == map[];
  }

  // ---------------------------------------------------------------- rollback

  /** A rollback from beginning to end, beside whatever holds no environment row. */
  lemma BackRuns(re: Regex, strict: bool, s: State, t: Tid, env: EnvId, target: int) returns (run: seq<Step>)
    requires t !in s.txs && s.schemaLock != Some(t) && s.envLocks == map[]
    requires Rollback(s.db, env, target).Ok? && (strict ==> RollbackFits(re, s, env, target))
    ensures Exec(re, strict, s, run)
         == Some(s.(db := Rollback(s.db, env, target).db,
                    log := s.log + [Moved(env, target, s.db.envs[env].revision + 1)]))
  {
    hide ValidValues;
    var rev := s.db.envs[env].revision + 1;
    var b0, b1, b2 := Back(env, target, BBegun), Back(env, target, BFound), Back(env, target, BPointed(rev));
    var s2 := With(s, t, b2).(envLocks := map[env := t]);
    Rewrites(s, t, b0, b1);
    Rewrites(s, t, b1, b2);
    assert map[][env := t] == map[env := t];
    run := Then(re, strict, s, [], s, Begin(t, b0), With(s, t, b0));
    run := Then(re, strict, s, run, With(s, t, b0), Advance(t, env), With(s, t, b1));
    assert Next(re, strict, With(s, t, b1), Advance(t, env)) == Some(s2);
    run := Then(re, strict, s, run, With(s, t, b1), Advance(t, env), s2);
    Leaves(s, t, b2, s.schemaLock, env);
    assert strict ==> RollbackFits(re, s2, env, target);
    var s3 := s.(db := Rollback(s.db, env, target).db, log := s.log + [Moved(env, target, rev)]);
    assert Next(re, strict, s2, Commit(t)) == Some(s3);
    run := Then(re, strict, s, run, s2, Commit(t), s3);
  }

  // ---------------------------------------------------------------- put-values

  lemma PutBegins(re: Regex, strict: bool, db: Db, log: seq<Event>, t: Tid, put: Tx) returns (run: seq<Step>)
    requires put.Put? && put.put == PBegun && put.env in db.envs
    ensures Exec(re, strict, Rest(db, log), run)
         == Some(With(Rest(db, log), t, put.(put := PLocked(CurrentDef(db), |Defs(db)|))).(schemaLock := Some(t)))
  {
    var s := Rest(db, log);
    var lock := if db.defs == [] then Some(t) else None;
    var p1, p2 := put.(put := PInited), put.(put := PLocked(CurrentDef(db), |Defs(db)|));
    var s1, s2 := With(s, t, p1).(schemaLock := lock), With(s, t, p2).(schemaLock := Some(t));
    Rewrites(s, t, put, p1);
    Rewrites(s, t, p1, p2);
    run := Then(re, strict, s, [], s, Begin(t, put), With(s, t, put));
    assert Next(re, strict, With(s, t, put), Advance(t, put.env)) == Some(s1);
    run := Then(re, strict, s, run, With(s, t, put), Advance(t, put.env), s1);
    assert Next(re, strict, s1, Advance(t, put.env)) == Some(s2);
    run := Then(re, strict, s, run, s1, Advance(t, put.env), s2);
  }

  lemma PutNumbers(re: Regex, strict: bool, db: Db, log: seq<Event>, t: Tid, put: Tx, n: int) returns (run: seq<Step>)
    requires put.Put? && put.put == PLocked(CurrentDef(db), |Defs(db)|) && put.env in db.envs
    requires Acceptable(re, CurrentDef(db), put.values, put.targeting)
    requires n == NextNumber(db, put.env) && (put.env, n) !in db.versions
    ensures Exec(re, strict, With(Rest(db, log), t, put).(schemaLock := Some(t)), run)
         == Some(With(Rest(db, log), t, put.(put := PInserted(|Defs(db)|, n))).(schemaLock := Some(t)))
  {
    hide Acceptable, NextNumber;
    var s, env, sv := Rest(db, log), put.env, |Defs(db)|;
    var p0, p1 := put.(put := PNumbered(sv, n)), put.(put := PInserted(sv, n));
    var start, s0 := With(s, t, put).(schemaLock := Some(t)), With(s, t, p0).(schemaLock := Some(t));
    var s1 := With(s, t, p1).(schemaLock := Some(t));
    Rewrites(s, t, put, p0);
    Rewrites(s, t, p0, p1);
    assert Next(re, strict, start, Advance(t, env)) == Some(s0);
    run := Then(re, strict, start, [], start, Advance(t, env), s0);
    assert Next(re, strict, s0, Advance(t, env)) == Some(s1);
    run := Then(re, strict, start, run, s0, Advance(t, env), s1);
  }

  lemma PutPoints(re: Regex, strict: bool, db: Db, log: seq<Event>, t: Tid, put: Tx) returns (run: seq<Step>)
    requires put.Put? && put.put.PInserted? && put.env in db.envs && put.put.sv == |Defs(db)|
    ensures var row := VersionRow(put.values, put.targeting, |Defs(db)|);
            Exec(re, strict, With(Rest(db, log), t, put).(schemaLock := Some(t)), run)
            == Some(Rest(Db(Defs(db), Repointed(db, put.env, put.put.n), db.versions[(put.env, put.put.n) := row]),
                         log + [Moved(put.env, put.put.n, db.envs[put.env].revision + 1)]))
  {
    var s, env, n, rev := Rest(db, log), put.env, put.put.n, db.envs[put.env].revision + 1;
    var p2 := put.(put := PPointed(|Defs(db)|, n, rev));
    var s1 := With(s, t, put).(schemaLock := Some(t));
    var s2 := With(s, t, p2).(schemaLock := Some(t), envLocks := map[env := t]);
    Rewrites(s, t, put, p2);
    assert map[][env := t] == map[env := t];
    assert Next(re, strict, s1, Advance(t, env)) == Some(s2);
    run := Then(re, strict, s1, [], s1, Advance(t, env), s2);
    Leaves(s, t, p2, Some(t), env);
    var row := VersionRow(put.values, put.targeting, |Defs(db)|);
    var s3 := Rest(Db(Defs(db), Repointed(db, env, n), db.versions[(env, n) := row]), log + [Moved(env, n, rev)]);
    assert Next(re, strict, s2, Commit(t)) == Some(s3);
    run := Then(re, strict, s1, run, s2, Commit(t), s3);
  }

  lemma PutEnds(re: Regex, strict: bool, db: Db, log: seq<Event>, t: Tid, put: Tx) returns (run: seq<Step>)
    requires put.Put? && put.put == PLocked(CurrentDef(db), |Defs(db)|)
    requires PutValues(re, db, put.env, put.values, put.targeting).Ok?
    ensures Exec(re, strict, With(Rest(db, log), t, put).(schemaLock := Some(t)), run)
         == Some(Rest(PutValues(re, db, put.env, put.values, put.targeting).db,
                      log + [Moved(put.env, NextNumber(db, put.env), db.envs[put.env].revision + 1)]))
  {
    hide Acceptable, NextNumber, Exec, Next;
    var n := NextNumber(db, put.env);
    NextIsFree(db, put.env);
    var s, inserted := With(Rest(db, log), t, put).(schemaLock := Some(t)), put.(put := PInserted(|Defs(db)|, n));
    var m := With(Rest(db, log), t, inserted).(schemaLock := Some(t));
    run := PutNumbers(re, strict, db, log, t, put, n);
    var more := PutPoints(re, strict, db, log, t, inserted);
    run := Joined(re, strict, s, run, m, more,
                  Rest(PutValues(re, db, put.env, put.values, put.targeting).db,
                       log + [Moved(put.env, n, db.envs[put.env].revision + 1)]));
  }

  lemma PutRuns(
      re: Regex, strict: bool, db: Db, log: seq<Event>, t: Tid, env: EnvId, values: Values, targeting: RuleMap)
    returns (run: seq<Step>)
    requires PutValues(re, db, env, values, targeting).Ok?
    ensures Exec(re, strict, Rest(db, log), run)
         == Some(Rest(PutValues(re, db, env, values, targeting).db,
                      log + [Moved(env, NextNumber(db, env), db.envs[env].revision + 1)]))
  {
    hide Acceptable, NextNumber, Exec;
    var put := Put(env, values, targeting, PBegun);
    var locked := put.(put := PLocked(CurrentDef(db), |Defs(db)|));
    run := PutBegins(re, strict, db, log, t, put);
    var more := PutEnds(re, strict, db, log, t, locked);
    run := Joined(re, strict, Rest(db, log), run, With(Rest(db, log), t, locked).(schemaLock := Some(t)), more,
                  Rest(PutValues(re, db, env, values, targeting).db,
                       log + [Moved(env, NextNumber(db, env), db.envs[env].revision + 1)]));
  }

  // ---------------------------------------------------------------- put-schema

  /** A first GetOrInitSchema is rolled back or overtaken with its transaction: only what commits is in db. */
  lemma SchemaBegins(re: Regex, strict: bool, db: Db, log: seq<Event>, t: Tid, def: Definition)
    returns (run: seq<Step>)
    requires Storable(re, def)
    ensures Exec(re, strict, Rest(db, log), run)
         == Some(Checking(db, log, t, def, set e | e in db.envs && db.envs[e].current.Some?))
  {
    hide Storable;
    var s := Rest(db, log);
    var lock := if db.defs == [] then Some(t) else None;
    var x0, x1, x2 := Tx.Schema(def, SBegun), Tx.Schema(def, SInited), Tx.Schema(def, SLocked);
    var s0, s1, s2 := With(s, t, x0), With(s, t, x1).(schemaLock := lock), With(s, t, x2).(schemaLock := Some(t));
    var listed := Checking(db, log, t, def, set e | e in db.envs && db.envs[e].current.Some?);
    Rewrites(s, t, x0, x1);
    Rewrites(s, t, x1, x2);
    Rewrites(s, t, x2, listed.txs[t]);
    assert With(s, t, listed.txs[t]).txs == listed.txs;
    run := Then(re, strict, s, [], s, Begin(t, x0), s0);
    assert Next(re, strict, s0, Advance(t, EnvId(0))) == Some(s1);
    run := Then(re, strict, s, run, s0, Advance(t, EnvId(0)), s1);
    assert Next(re, strict, s1, Advance(t, EnvId(0))) == Some(s2);
    run := Then(re, strict, s, run, s1, Advance(t, EnvId(0)), s2);
    assert Next(re, strict, s2, Advance(t, EnvId(0))) == Some(listed);
    run := Then(re, strict, s, run, s2, Advance(t, EnvId(0)), listed);
  }

  lemma CheckOne(re: Regex, strict: bool, db: Db, log: seq<Event>, t: Tid, def: Definition, todo: set<EnvId>, e: EnvId)
    requires e in todo && !Breaks(re, db, def, e)
    ensures Next(re, strict, Checking(db, log, t, def, todo), Advance(t, e))
         == Some(Checking(db, log, t, def, todo - {e}))
  {
    hide Breaks;
    assert Checking(db, log, t, def, todo).txs[t := Tx.Schema(def, SChecking(todo - {e}))]
        == Checking(db, log, t, def, todo - {e}).txs;
  }

  lemma {:induction false} CheckAll(
      re: Regex, strict: bool, db: Db, log: seq<Event>, t: Tid, def: Definition, todo: set<EnvId>)
    returns (run: seq<Step>)
    requires forall e :: e in todo ==> !Breaks(re, db, def, e)
    ensures Exec(re, strict, Checking(db, log, t, def, todo), run) == Some(Checking(db, log, t, def, {}))
    decreases |todo|
  {
    hide Breaks, Next;
    if e :| e in todo {
      var s := Checking(db, log, t, def, todo);
      CheckOne(re, strict, db, log, t, def, todo, e);
      var rest := CheckAll(re, strict, db, log, t, def, todo - {e});
      run := Then(re, strict, s, [], s, Advance(t, e), Checking(db, log, t, def, todo - {e}));
      run := Joined(re, strict, s, run, Checking(db, log, t, def, todo - {e}), rest, Checking(db, log, t, def, {}));
    } else {
      assert todo == {};
      run := [];
    }
  }

  lemma CheckedCommits(re: Regex, strict: bool, db: Db, log: seq<Event>, t: Tid, def: Definition)
    ensures Next(re, strict, Checking(db, log, t, def, {}), Commit(t))
         == Some(Rest(db.(defs := Defs(db) + [def]), log))
  {
    var s := Checking(db, log, t, def, {});
    assert Gone(s, t).txs == map[] && Gone(s, t).envLocks == map[] && log + [] == log;
  }

  /** A put-schema up to where it has checked every environment. */
  lemma SchemaChecks(re: Regex, strict: bool, db: Db, log: seq<Event>, t: Tid, def: Definition)
    returns (run: seq<Step>)
    requires PutSchema(re, db, def).Ok?
    ensures Exec(re, strict, Rest(db, log), run) == Some(Checking(db, log, t, def, {}))
  {
    hide Storable, Breaks, Exec;
    var todo := set e | e in db.envs && db.envs[e].current.Some?;
    run := SchemaBegins(re, strict, db, log, t, def);
    var more := CheckAll(re, strict, db, log, t, def, todo);
    run := Joined(re, strict, Rest(db, log), run, Checking(db, log, t, def, todo), more, Checking(db, log, t, def, {}));
  }

  lemma SchemaRuns(re: Regex, strict: bool, db: Db, log: seq<Event>, t: Tid, def: Definition)
    returns (run: seq<Step>)
    requires PutSchema(re, db, def).Ok?
    ensures Exec(re, strict, Rest(db, log), run) == Some(Rest(PutSchema(re, db, def).db, log))
  {
    hide Storable, Breaks, Exec, Next;
    run := SchemaChecks(re, strict, db, log, t, def);
    CheckedCommits(re, strict, db, log, t, def);
    run := Then(re, strict, Rest(db, log), run, Checking(db, log, t, def, {}), Commit(t),
                Rest(PutSchema(re, db, def).db, log));
  }

  /**
   * The converse of CommitIsAlone: from rest, whatever a write path does when run alone, some run
   * of the transaction machine does too.
   */
  lemma AloneIsARun(re: Regex, db: Db, log: seq<Event>, t: Tid, tx: Tx)
    returns (run: seq<Step>, log': seq<Event>)
    requires StoreRuns.Alone(re, db, tx).Ok?
    ensures Exec(re, false, Rest(db, log), run) == Some(Rest(StoreRuns.Alone(re, db, tx).db, log'))
  {
    hide Acceptable, Storable, Breaks, NextNumber, Exec, Next;
    match tx
    case Put(env, values, targeting, _) =>
      run := PutRuns(re, false, db, log, t, env, values, targeting);
      log' := log + [Moved(env, NextNumber(db, env), db.envs[env].revision + 1)];
    case Schema(def, _) =>
      run := SchemaRuns(re, false, db, log, t, def);
      log' := log;
    case Back(env, target, _) =>
      run := BackRuns(re, false, Rest(db, log), t, env, target);
      log' := log + [Moved(env, target, db.envs[env].revision + 1)];
  }
}
