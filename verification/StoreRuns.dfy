/**
 * The write paths as concurrent transactions: each statement sees the latest committed rows and
 * its own writes, FOR UPDATE and UPDATE hold their row until the end of the transaction.
 */
module StoreRuns {
  import opened Json
  import opened Targeting
  import opened Schema
  import opened Store

  datatype Tid = Tid(id: int)

  /**
   * How far a put-values transaction is: begun; schema row made sure of; schema row locked and
   * read; version number chosen; version inserted; environment row locked and updated.
   */
  datatype PutPc =
    | PBegun | PInited | PLocked(def: Definition, sv: int) | PNumbered(sv: int, n: int)
    | PInserted(sv: int, n: int) | PPointed(sv: int, n: int, rev: int)

  /** A put-schema transaction: todo holds the listed environments whose values are still to be checked. */
  datatype SchemaPc = SBegun | SInited | SLocked | SChecking(todo: set<EnvId>)

  /** A rollback transaction: begun; target row found; environment row locked and updated. */
  datatype BackPc = BBegun | BFound | BPointed(rev: int)

  datatype Tx =
    | Put(env: EnvId, values: Values, targeting: RuleMap, put: PutPc)
    | Schema(def: Definition, schema: SchemaPc)
    | Back(env: EnvId, target: int, back: BackPc)

  /** A commit that moved an environment's current version. */
  datatype Event = Moved(env: EnvId, version: int, revision: int)

  /** db is what is committed; a transaction's own writes are determined by where it is. */
  datatype State = State(
    db: Db, schemaLock: Option<Tid>, envLocks: map<EnvId, Tid>, txs: map<Tid, Tx>, log: seq<Event>)

  /** check names the environment a put-schema transaction checks next. */
  datatype Step =
    | Begin(t: Tid, tx: Tx) | Advance(t: Tid, check: EnvId) | Abort(t: Tid) | Commit(t: Tid)
    | NewEnv(env: EnvId)

  predicate Startable(re: Regex, db: Db, tx: Tx) {
    match tx
    case Put(env, _, _, pc) => pc == PBegun && env in db.envs
    case Schema(def, pc) => pc == SBegun && Storable(re, def)
    case Back(env, _, pc) => pc == BBegun && env in db.envs
  }

  /** GetOrInitSchema: a first insert holds the row as its inserter, and others wait for it. */
  function InitRow(s: State, t: Tid): Option<Option<Tid>> {
    if s.db.defs != [] then Some(s.schemaLock)
    else if s.schemaLock.None? then Some(Some(t))
    else None
  }

  predicate CanLockSchema(s: State, t: Tid) {
    s.schemaLock == Some(t) || (s.schemaLock.None? && s.db.defs != [])
  }

  function With(s: State, t: Tid, tx: Tx): State {
    s.(txs := s.txs[t := tx])
  }

  ghost function AdvancePut(re: Regex, s: State, t: Tid, tx: Tx): Option<State>
    requires tx.Put? && tx.env in s.db.envs
  {
    match tx.put
    case PBegun =>
      var l := InitRow(s, t);
      if l.None? then None else Some(With(s, t, tx.(put := PInited)).(schemaLock := l.value))
    case PInited =>
      if !CanLockSchema(s, t) then None
      else Some(With(s, t, tx.(put := PLocked(CurrentDef(s.db), |Defs(s.db)|))).(schemaLock := Some(t)))
    case PLocked(def, sv) =>
      if !Acceptable(re, def, tx.values, tx.targeting) then None
      else Some(With(s, t, tx.(put := PNumbered(sv, NextNumber(s.db, tx.env)))))
    case PNumbered(sv, n) =>
      if NumberTaken(s, t, tx.env, n) then None else Some(With(s, t, tx.(put := PInserted(sv, n))))
    case PInserted(sv, n) =>
      if tx.env in s.envLocks then None
      else Some(With(s, t, tx.(put := PPointed(sv, n, s.db.envs[tx.env].revision + 1)))
                .(envLocks := s.envLocks[tx.env := t]))
    case PPointed(_, _, _) => None
  }

  /** Committed, or inserted by a transaction still under way: the unique index refuses it, or makes it wait. */
  ghost predicate NumberTaken(s: State, t: Tid, env: EnvId, n: int) {
    (env, n) in s.db.versions
    || exists u :: u in s.txs && u != t && s.txs[u].Put? && s.txs[u].env == env
                   && (s.txs[u].put.PInserted? || s.txs[u].put.PPointed?) && s.txs[u].put.n == n
  }

  function AdvanceSchema(re: Regex, s: State, t: Tid, tx: Tx, check: EnvId): Option<State>
    requires tx.Schema?
  {
    match tx.schema
    case SBegun =>
      var l := InitRow(s, t);
      if l.None? then None else Some(With(s, t, tx.(schema := SInited)).(schemaLock := l.value))
    case SInited =>
      if !CanLockSchema(s, t) then None
      else Some(With(s, t, tx.(schema := SLocked)).(schemaLock := Some(t)))
    case SLocked =>
      Some(With(s, t, tx.(schema := SChecking(set e | e in s.db.envs && s.db.envs[e].current.Some?))))
    case SChecking(todo) =>
      if check !in todo || Breaks(re, s.db, tx.def, check) then None
      else Some(With(s, t, tx.(schema := SChecking(todo - {check}))))
  }

  function AdvanceBack(s: State, t: Tid, tx: Tx): Option<State>
    requires tx.Back? && tx.env in s.db.envs
  {
    match tx.back
    case BBegun =>
      if (tx.env, tx.target) !in s.db.versions then None else Some(With(s, t, tx.(back := BFound)))
    case BFound =>
      if tx.env in s.envLocks then None
      else Some(With(s, t, tx.(back := BPointed(s.db.envs[tx.env].revision + 1)))
                .(envLocks := s.envLocks[tx.env := t]))
    case BPointed(_) => None
  }

  predicate ReadyToCommit(tx: Tx) {
    match tx
    case Put(_, _, _, pc) => pc.PPointed?
    case Schema(_, pc) => pc == SChecking({})
    case Back(_, _, pc) => pc.BPointed?
  }

  /** The end of a transaction: gone, and its locks with it. */
  function Gone(s: State, t: Tid): State {
    s.(txs := s.txs - {t},
       schemaLock := if s.schemaLock == Some(t) then None else s.schemaLock,
       envLocks := map e | e in s.envLocks && s.envLocks[e] != t :: s.envLocks[e])
  }

  /** What a transaction that is ready writes. */
  function Written(db: Db, tx: Tx): Db {
    match tx
    case Put(env, values, targeting, PPointed(sv, n, rev)) =>
      Db(Defs(db), db.envs[env := EnvRow(Some(n), rev)], db.versions[(env, n) := VersionRow(values, targeting, sv)])
    case Schema(def, _) => db.(defs := Defs(db) + [def])
    case Back(env, target, BPointed(rev)) => db.(envs := db.envs[env := EnvRow(Some(target), rev)])
    case _ => db
  }

  function Logged(tx: Tx): seq<Event> {
    match tx
    case Put(env, _, _, PPointed(_, n, rev)) => [Moved(env, n, rev)]
    case Back(env, target, BPointed(rev)) => [Moved(env, target, rev)]
    case _ => []
  }

  /**
   * The hypothesis on rollbacks that change-safety needs: the target fits the committed
   * definition, and the one of a put-schema that has already passed this environment.
   */
  predicate RollbackFits(re: Regex, s: State, env: EnvId, target: int)
    requires (env, target) in s.db.versions
  {
    var values := s.db.versions[(env, target)].values;
    && ValidValues(re, CurrentDef(s.db), values)
    && forall t :: t in s.txs && s.txs[t].Schema? && s.txs[t].schema.SChecking? && env !in s.txs[t].schema.todo
                   ==> ValidValues(re, s.txs[t].def, values)
  }

  /** With strict set, only rollbacks that fit are taken to commit. */
  ghost function Next(re: Regex, strict: bool, s: State, step: Step): Option<State> {
    match step
    case Begin(t, tx) =>
      if t in s.txs || !Startable(re, s.db, tx) then None else Some(With(s, t, tx))
    case Advance(t, check) =>
      if t !in s.txs then None
      else if s.txs[t].Schema? then AdvanceSchema(re, s, t, s.txs[t], check)
      else if s.txs[t].env !in s.db.envs then None
      else if s.txs[t].Put? then AdvancePut(re, s, t, s.txs[t])
      else AdvanceBack(s, t, s.txs[t])
    case Abort(t) =>
      if t in s.txs then Some(Gone(s, t)) else None
    case Commit(t) =>
      if t !in s.txs || !ReadyToCommit(s.txs[t]) then None
      else if strict && s.txs[t].Back? && !((s.txs[t].env, s.txs[t].target) in s.db.versions
                                            && RollbackFits(re, s, s.txs[t].env, s.txs[t].target)) then None
      else Some(Gone(s, t).(db := Written(s.db, s.txs[t]), log := s.log + Logged(s.txs[t])))
    case NewEnv(env) =>
      if CreateEnv(s.db, env).Ok? then Some(s.(db := CreateEnv(s.db, env).db)) else None
  }

  function Init(): State {
    State(Db([], map[], map[]), None, map[], map[], [])
  }

  ghost function Exec(re: Regex, strict: bool, s: State, steps: seq<Step>): Option<State>
    decreases |steps|
  {
    if steps == [] then Some(s)
    else
      var n := Next(re, strict, s, steps[0]);
      if n.None? then None else Exec(re, strict, n.value, steps[1..])
  }

  // ---------------------------------------------------------------- the invariant

  /** Past the point where it took the schema row's lock. */
  predicate HoldsSchema(tx: Tx) {
    match tx
    case Put(_, _, _, pc) => !pc.PBegun? && !pc.PInited?
    case Schema(_, pc) => !pc.SBegun? && !pc.SInited?
    case Back(_, _, _) => false
  }

  predicate HoldsEnv(tx: Tx, env: EnvId) {
    match tx
    case Put(e, _, _, pc) => pc.PPointed? && e == env
    case Back(e, _, pc) => pc.BPointed? && e == env
    case _ => false
  }

  predicate Inited(tx: Tx) {
    (tx.Put? && tx.put.PInited?) || (tx.Schema? && tx.schema.SInited?)
  }

  ghost predicate LocksOk(s: State) {
    && (s.schemaLock.Some? ==> s.schemaLock.value in s.txs
                               && (HoldsSchema(s.txs[s.schemaLock.value]) || Inited(s.txs[s.schemaLock.value])))
    && (forall t :: t in s.txs && HoldsSchema(s.txs[t]) ==> s.schemaLock == Some(t))
    && (forall t :: t in s.txs && Inited(s.txs[t]) ==> s.schemaLock == Some(t) || s.db.defs != [])
    && (forall e :: e in s.envLocks ==> s.envLocks[e] in s.txs && HoldsEnv(s.txs[s.envLocks[e]], e))
    && (forall t, e :: t in s.txs && HoldsEnv(s.txs[t], e) ==> e in s.envLocks && s.envLocks[e] == t)
  }

  /** What a put-values transaction has read is still true. */
  ghost predicate PutOk(re: Regex, db: Db, tx: Tx)
    requires tx.Put?
  {
    && tx.env in db.envs
    && match tx.put
       case PBegun => true
       case PInited => true
       case PLocked(def, sv) => def == CurrentDef(db) && sv == |Defs(db)|
       case PNumbered(sv, n) =>
         sv == |Defs(db)| && n == NextNumber(db, tx.env) && Acceptable(re, CurrentDef(db), tx.values, tx.targeting)
       case PInserted(sv, n) =>
         sv == |Defs(db)| && n == NextNumber(db, tx.env) && Acceptable(re, CurrentDef(db), tx.values, tx.targeting)
       case PPointed(sv, n, rev) =>
         sv == |Defs(db)| && n == NextNumber(db, tx.env) && Acceptable(re, CurrentDef(db), tx.values, tx.targeting)
         && rev == db.envs[tx.env].revision + 1
  }

  predicate BackOk(db: Db, tx: Tx)
    requires tx.Back?
  {
    && tx.env in db.envs
    && (!tx.back.BBegun? ==> (tx.env, tx.target) in db.versions)
    && (tx.back.BPointed? ==> tx.back.rev == db.envs[tx.env].revision + 1)
  }

  /** The environments a put-schema transaction has passed still fit its definition. */
  predicate SchemaOk(re: Regex, strict: bool, db: Db, tx: Tx)
    requires tx.Schema?
  {
    && Storable(re, tx.def)
    && (strict && tx.schema.SChecking? ==>
          forall e :: e in db.envs && e !in tx.schema.todo ==> !Breaks(re, db, tx.def, e))
  }

  ghost predicate TxOk(re: Regex, strict: bool, db: Db, tx: Tx) {
    match tx
    case Put(_, _, _, _) => PutOk(re, db, tx)
    case Schema(_, _) => SchemaOk(re, strict, db, tx)
    case Back(_, _, _) => BackOk(db, tx)
  }

  ghost predicate Inv(re: Regex, strict: bool, s: State) {
    && WellKept(re, s.db)
    && LocksOk(s)
    && (forall t :: t in s.txs ==> TxOk(re, strict, s.db, s.txs[t]))
    && (strict ==> ChangeSafe(re, s.db))
  }

  // ---------------------------------------------------------------- serializability

  /** What a write path does when it runs alone. */
  ghost function Alone(re: Regex, db: Db, tx: Tx): Outcome {
    match tx
    case Put(env, values, targeting, _) => PutValues(re, db, env, values, targeting)
    case Schema(def, _) => PutSchema(re, db, def)
    case Back(env, target, _) => Rollback(db, env, target)
  }

  /**
   * Serializability, exactly. A committing transaction has the effect it would have had run alone,
   * in full, on the rows committed at that moment - except for a put-schema one of whose checked
   * environments has since been rolled back to values it would refuse.
   */
  lemma CommitIsAlone(re: Regex, strict: bool, s: State, t: Tid)
    requires Inv(re, strict, s) && t in s.txs && ReadyToCommit(s.txs[t])
    ensures Alone(re, s.db, s.txs[t]) == Ok(Written(s.db, s.txs[t]))
            <==> (s.txs[t].Schema? ==> forall e :: e in s.db.envs ==> !Breaks(re, s.db, s.txs[t].def, e))
    ensures strict || !s.txs[t].Schema? ==> Alone(re, s.db, s.txs[t]) == Ok(Written(s.db, s.txs[t]))
  {
    hide ValidValues, ValidTargeting, Storable, NextNumber, WellKept;
    assert TxOk(re, strict, s.db, s.txs[t]);
  }

  // ---------------------------------------------------------------- every step keeps the invariant

  lemma BeginKeeps(re: Regex, strict: bool, s: State, t: Tid, tx: Tx)
    requires Inv(re, strict, s) && t !in s.txs && Startable(re, s.db, tx)
    ensures Inv(re, strict, With(s, t, tx))
  {
    hide WellKept, ChangeSafe, Storable, Acceptable, ValidValues, NextNumber;
  }

  /** t moves on, taking at most the schema row and one environment row, both free before. */
  ghost predicate Moves(s: State, s': State, t: Tid, tx': Tx)
    requires t in s.txs
  {
    && s'.db == s.db && s'.txs == s.txs[t := tx']
    && (s'.schemaLock == s.schemaLock || (s.schemaLock.None? && s'.schemaLock == Some(t)))
    && (HoldsSchema(tx') ==> s'.schemaLock == Some(t))
    && (s'.schemaLock == Some(t) ==> HoldsSchema(tx') || Inited(tx'))
    && (Inited(tx') ==> s'.schemaLock == Some(t) || s.db.defs != [])
    && (if s'.envLocks == s.envLocks then forall e :: HoldsEnv(tx', e) <==> HoldsEnv(s.txs[t], e)
        else exists e :: e !in s.envLocks && s'.envLocks == s.envLocks[e := t] && HoldsEnv(tx', e)
                         && forall f :: (HoldsEnv(tx', f) <==> f == e) && !HoldsEnv(s.txs[t], f))
  }

  lemma MoveKeepsLocks(s: State, s': State, t: Tid, tx': Tx)
    requires LocksOk(s) && t in s.txs && Moves(s, s', t, tx')
    ensures LocksOk(s')
  {
    hide HoldsSchema, HoldsEnv, Inited;
  }

  lemma AdvancePutKeepsLocks(re: Regex, s: State, t: Tid)
    requires LocksOk(s) && t in s.txs && s.txs[t].Put? && s.txs[t].env in s.db.envs
    requires AdvancePut(re, s, t, s.txs[t]).Some?
    ensures LocksOk(AdvancePut(re, s, t, s.txs[t]).value)
  {
    hide Acceptable, NextNumber, NumberTaken;
    var s' := AdvancePut(re, s, t, s.txs[t]).value;
    assert Moves(s, s', t, s'.txs[t]);
    MoveKeepsLocks(s, s', t, s'.txs[t]);
  }

  lemma AdvanceSchemaKeepsLocks(re: Regex, s: State, t: Tid, check: EnvId)
    requires LocksOk(s) && t in s.txs && s.txs[t].Schema?
    requires AdvanceSchema(re, s, t, s.txs[t], check).Some?
    ensures LocksOk(AdvanceSchema(re, s, t, s.txs[t], check).value)
  {
    hide Breaks;
    var s' := AdvanceSchema(re, s, t, s.txs[t], check).value;
    assert Moves(s, s', t, s'.txs[t]);
    MoveKeepsLocks(s, s', t, s'.txs[t]);
  }

  lemma AdvanceBackKeepsLocks(s: State, t: Tid)
    requires LocksOk(s) && t in s.txs && s.txs[t].Back? && s.txs[t].env in s.db.envs
    requires AdvanceBack(s, t, s.txs[t]).Some?
    ensures LocksOk(AdvanceBack(s, t, s.txs[t]).value)
  {
    var s' := AdvanceBack(s, t, s.txs[t]).value;
    assert Moves(s, s', t, s'.txs[t]);
    MoveKeepsLocks(s, s', t, s'.txs[t]);
  }

  /** What the transaction that moves has just read is true. */
  lemma AdvanceKeepsTx(re: Regex, strict: bool, s: State, t: Tid, check: EnvId)
    requires t in s.txs && TxOk(re, strict, s.db, s.txs[t])
    requires Next(re, strict, s, Advance(t, check)).Some?
    ensures var s' := Next(re, strict, s, Advance(t, check)).value;
            t in s'.txs && TxOk(re, strict, s.db, s'.txs[t]) && s'.db == s.db && s'.txs == s.txs[t := s'.txs[t]]
            && s'.log == s.log
  {
    hide Acceptable, NextNumber, NumberTaken, Storable, ValidValues;
  }

  lemma AdvanceKeeps(re: Regex, strict: bool, s: State, t: Tid, check: EnvId)
    requires Inv(re, strict, s) && Next(re, strict, s, Advance(t, check)).Some?
    ensures Inv(re, strict, Next(re, strict, s, Advance(t, check)).value)
  {
    AdvanceKeepsTx(re, strict, s, t, check);
    if s.txs[t].Put? {
      AdvancePutKeepsLocks(re, s, t);
    } else if s.txs[t].Schema? {
      AdvanceSchemaKeepsLocks(re, s, t, check);
    } else {
      AdvanceBackKeepsLocks(s, t);
    }
    hide TxOk, LocksOk, WellKept, ChangeSafe, AdvancePut, AdvanceSchema, AdvanceBack;
  }

  lemma GoneKeepsLocks(s: State, t: Tid, db: Db, log: seq<Event>)
    requires LocksOk(s) && t in s.txs
    requires s.db.defs != [] ==> db.defs != []
    ensures LocksOk(Gone(s, t).(db := db, log := log))
  {
    hide HoldsSchema, HoldsEnv, Inited;
  }

  lemma AbortKeeps(re: Regex, strict: bool, s: State, t: Tid)
    requires Inv(re, strict, s) && t in s.txs
    ensures Inv(re, strict, Gone(s, t))
  {
    GoneKeepsLocks(s, t, s.db, s.log);
    assert Gone(s, t).(db := s.db, log := s.log) == Gone(s, t);
    hide TxOk, LocksOk, WellKept, ChangeSafe;
  }

  lemma NewEnvKeepsSafe(re: Regex, db: Db, env: EnvId, def: Definition, passed: set<EnvId>)
    requires env !in db.envs
    requires forall e :: e in db.envs && e !in passed ==> !Breaks(re, db, def, e)
    ensures forall e :: e in CreateEnv(db, env).db.envs && e !in passed ==> !Breaks(re, CreateEnv(db, env).db, def, e)
  {
    hide ValidValues;
    var db' := CreateEnv(db, env).db;
    forall e | e in db'.envs && e !in passed ensures !Breaks(re, db', def, e) {
      assert e in db.envs ==> !Breaks(re, db, def, e);
    }
  }

  lemma NewEnvKeepsTx(re: Regex, strict: bool, db: Db, env: EnvId, tx: Tx)
    requires env !in db.envs && TxOk(re, strict, db, tx)
    ensures TxOk(re, strict, CreateEnv(db, env).db, tx)
  {
    hide Acceptable, Storable, Breaks, NextNumber;
    var db' := CreateEnv(db, env).db;
    if tx.Schema? && strict && tx.schema.SChecking? {
      NewEnvKeepsSafe(re, db, env, tx.def, tx.schema.todo);
    }
    if tx.Put? { assert NextNumber(db', tx.env) == NextNumber(db, tx.env) by { NumberOf(db, db', tx.env); } }
  }

  lemma NumberOf(db: Db, db': Db, env: EnvId)
    requires db.versions == db'.versions
    ensures NextNumber(db, env) == NextNumber(db', env)
  {
  }

  lemma NewEnvKeepsRows(re: Regex, db: Db, env: EnvId)
    requires WellKept(re, db) && env !in db.envs
    ensures WellKept(re, CreateEnv(db, env).db)
  {
    hide Acceptable;
    var db' := CreateEnv(db, env).db;
    forall e | e in db'.envs && e != env ensures e in db.envs && db'.envs[e] == db.envs[e] {}
  }

  lemma NewEnvKeeps(re: Regex, strict: bool, s: State, env: EnvId)
    requires Inv(re, strict, s) && env !in s.db.envs
    ensures Inv(re, strict, s.(db := CreateEnv(s.db, env).db))
  {
    hide WellKept, Breaks, TxOk;
    var db' := CreateEnv(s.db, env).db;
    NewEnvKeepsRows(re, s.db, env);
    if strict { NewEnvKeepsSafe(re, s.db, env, CurrentDef(s.db), {}); }
    forall t | t in s.txs ensures TxOk(re, strict, db', s.txs[t]) {
      NewEnvKeepsTx(re, strict, s.db, env, s.txs[t]);
    }
  }

  /** A commit keeps the committed rows in order, and safe where rollbacks fit. */
  lemma CommitKeepsRows(re: Regex, strict: bool, s: State, t: Tid)
    requires Inv(re, strict, s) && Next(re, strict, s, Commit(t)).Some?
    ensures WellKept(re, Written(s.db, s.txs[t]))
    ensures strict ==> ChangeSafe(re, Written(s.db, s.txs[t]))
  {
    hide WellKept, ChangeSafe, ValidValues, Storable, Acceptable, NextNumber;
    var tx := s.txs[t];
    if strict || !tx.Schema? { CommitIsAlone(re, strict, s, t); }
    match tx
    case Put(env, values, targeting, _) => PutKeeps(re, s.db, env, values, targeting);
    case Schema(def, _) =>
      NewDefinitionKeepsRows(re, s.db, def);
      if strict { SchemaKeepsChangeSafe(re, s.db, def); }
    case Back(env, target, _) =>
      RollbackKeepsRows(re, s.db, env, target);
      if strict { RollbackKeepsChangeSafe(re, s.db, env, target); }
  }

  /** What another transaction has read stays true across a commit: the locks keep it so. */
  lemma CommitKeepsOthers(re: Regex, strict: bool, s: State, t: Tid, u: Tid)
    requires Inv(re, strict, s) && Next(re, strict, s, Commit(t)).Some?
    requires u in s.txs && u != t
    ensures TxOk(re, strict, Written(s.db, s.txs[t]), s.txs[u])
  {
    hide WellKept, ChangeSafe, ValidValues, Storable, Acceptable, NextNumber;
    assert TxOk(re, strict, s.db, s.txs[t]) && TxOk(re, strict, s.db, s.txs[u]);
    var db' := Written(s.db, s.txs[t]);
    match s.txs[u]
    case Put(env, _, _, _) => assert HoldsEnv(s.txs[t], env) ==> s.envLocks[env] == t; CommitKeepsPut(re, s, t, u);
    case Schema(_, _) => CommitKeepsSchema(re, strict, s, t, u);
    case Back(env, _, _) => assert HoldsEnv(s.txs[t], env) ==> s.envLocks[env] == t;
  }

  lemma CommitKeepsPut(re: Regex, s: State, t: Tid, u: Tid)
    requires LocksOk(s) && t in s.txs && u in s.txs && u != t && s.txs[u].Put? && PutOk(re, s.db, s.txs[u])
    requires ReadyToCommit(s.txs[t]) && (s.txs[t].Schema? || s.txs[t].env in s.db.envs)
    ensures PutOk(re, Written(s.db, s.txs[t]), s.txs[u])
  {
    hide Acceptable;
    var db' := Written(s.db, s.txs[t]);
    if HoldsSchema(s.txs[u]) {
      assert s.txs[t].Back?;
      assert NextNumber(db', s.txs[u].env) == NextNumber(s.db, s.txs[u].env);
      assert CurrentDef(db') == CurrentDef(s.db);
      assert HoldsEnv(s.txs[t], s.txs[t].env);
      assert HoldsEnv(s.txs[u], s.txs[u].env) ==> s.envLocks[s.txs[u].env] == u;
    }
  }

  lemma CommitKeepsSchema(re: Regex, strict: bool, s: State, t: Tid, u: Tid)
    requires Inv(re, strict, s) && Next(re, strict, s, Commit(t)).Some?
    requires u in s.txs && u != t && s.txs[u].Schema?
    ensures SchemaOk(re, strict, Written(s.db, s.txs[t]), s.txs[u])
  {
    hide WellKept, ChangeSafe, ValidValues, Storable, Acceptable, NextNumber;
    assert TxOk(re, strict, s.db, s.txs[u]);
    var tx, db' := s.txs[u], Written(s.db, s.txs[t]);
    if strict && tx.schema.SChecking? {
      assert s.txs[t].Back?;
      forall e | e in db'.envs && e !in tx.schema.todo ensures !Breaks(re, db', tx.def, e) {
        assert e in s.db.envs ==> !Breaks(re, s.db, tx.def, e);
      }
    }
  }

  lemma CommitKeeps(re: Regex, strict: bool, s: State, t: Tid)
    requires Inv(re, strict, s) && Next(re, strict, s, Commit(t)).Some?
    ensures Inv(re, strict, Next(re, strict, s, Commit(t)).value)
  {
    hide TxOk, LocksOk, WellKept, ChangeSafe, RollbackFits;
    var s', db' := Next(re, strict, s, Commit(t)).value, Written(s.db, s.txs[t]);
    CommitKeepsRows(re, strict, s, t);
    GoneKeepsLocks(s, t, db', s'.log);
    assert s' == Gone(s, t).(db := db', log := s'.log);
    forall u | u in s'.txs ensures TxOk(re, strict, db', s'.txs[u]) {
      CommitKeepsOthers(re, strict, s, t, u);
    }
  }

  lemma StepKeeps(re: Regex, strict: bool, s: State, step: Step)
    requires Inv(re, strict, s) && Next(re, strict, s, step).Some?
    ensures Inv(re, strict, Next(re, strict, s, step).value)
  {
    hide Inv, AdvancePut, AdvanceSchema, AdvanceBack;
    match step
    case Begin(t, tx) => BeginKeeps(re, strict, s, t, tx);
    case Advance(t, check) => AdvanceKeeps(re, strict, s, t, check);
    case Abort(t) => AbortKeeps(re, strict, s, t);
    case Commit(t) => CommitKeeps(re, strict, s, t);
    case NewEnv(env) => NewEnvKeeps(re, strict, s, env);
  }
}
