/** The guarantees of the store over every interleaving of the write paths. */
module StoreTheorems {
  import opened Json
  import opened Targeting
  import opened Schema
  import opened Store
  import opened StoreRuns
  import opened Evaluator
  import opened Soundness

  ghost predicate Reachable(re: Regex, strict: bool, steps: seq<Step>, s: State) {
    Exec(re, strict, Init(), steps) == Some(s)
  }

  lemma {:induction false} ExecKeeps(re: Regex, strict: bool, s: State, steps: seq<Step>)
    requires Inv(re, strict, s) && Exec(re, strict, s, steps).Some?
    ensures Inv(re, strict, Exec(re, strict, s, steps).value)
    decreases |steps|
  {
    hide Inv, Next;
    if steps != [] {
      StepKeeps(re, strict, s, steps[0]);
      ExecKeeps(re, strict, Next(re, strict, s, steps[0]).value, steps[1..]);
    }
  }

  lemma ReachableIsInv(re: Regex, strict: bool, steps: seq<Step>, s: State)
    requires Reachable(re, strict, steps, s)
    ensures Inv(re, strict, s)
  {
    hide ValidValues, Acceptable;
    assert Inv(re, strict, Init());
    ExecKeeps(re, strict, Init(), steps);
  }

  // ---------------------------------------------------------------- change-safety

  /**
   * Change-safety under concurrency: in every committed state of every interleaving whose
   * committed rollbacks fit, each environment's live values validate against the current schema.
   */
  lemma AlwaysChangeSafe(re: Regex, steps: seq<Step>, s: State)
    requires Reachable(re, true, steps, s)
    ensures ChangeSafe(re, s.db)
  {
    ReachableIsInv(re, true, steps, s);
  }

  predicate NoRollbacks(steps: seq<Step>) {
    forall i :: 0 <= i < |steps| ==> !(steps[i].Begin? && steps[i].tx.Back?)
  }

  lemma {:induction false} NoRollbacksIsStrict(re: Regex, s: State, steps: seq<Step>)
    requires NoRollbacks(steps) && Exec(re, false, s, steps).Some?
    requires forall t :: t in s.txs ==> !s.txs[t].Back?
    ensures Exec(re, true, s, steps) == Exec(re, false, s, steps)
    decreases |steps|
  {
    hide Startable, Storable, Breaks, Acceptable, NumberTaken, NextNumber;
    if steps != [] {
      assert !(steps[0].Begin? && steps[0].tx.Back?);
      var n := Next(re, false, s, steps[0]).value;
      assert forall i :: 0 <= i < |steps[1..]| ==> steps[1..][i] == steps[i + 1];
      NoRollbacksIsStrict(re, n, steps[1..]);
    }
  }

  /** In particular put-values and put-schema alone, however they interleave, keep it. */
  lemma ChangeSafeWithoutRollbacks(re: Regex, steps: seq<Step>, s: State)
    requires Reachable(re, false, steps, s) && NoRollbacks(steps)
    ensures ChangeSafe(re, s.db)
  {
    NoRollbacksIsStrict(re, Init(), steps);
    AlwaysChangeSafe(re, steps, s);
  }

  // ---------------------------------------------------------------- version history

  /** Whatever interleaves, numbers run 1..n and every row fits the definition it is pinned to. */
  lemma VersionHistory(re: Regex, strict: bool, steps: seq<Step>, s: State)
    requires Reachable(re, strict, steps, s)
    ensures forall env, i :: (env, i) in s.db.versions <==> 1 <= i <= Highest(s.db.versions.Keys, env)
    ensures forall k :: k in s.db.versions ==>
              var row := s.db.versions[k];
              && 1 <= row.schemaVersion <= |s.db.defs|
              && ValidValues(re, s.db.defs[row.schemaVersion - 1], row.values)
              && ValidTargeting(re, s.db.defs[row.schemaVersion - 1], row.targeting)
  {
    hide ValidValues, ValidTargeting, LocksOk, TxOk, ChangeSafe, Exec, Highest, Pointed;
    ReachableIsInv(re, strict, steps, s);
    forall env, i ensures (env, i) in s.db.versions <==> 1 <= i <= Highest(s.db.versions.Keys, env) {
      NumbersAreDense(s.db, env, i);
    }
  }

  /** What is written is never rewritten: rows and schema versions only accumulate. */
  ghost predicate Extends(db: Db, db': Db) {
    && (forall k :: k in db.versions ==> k in db'.versions && db'.versions[k] == db.versions[k])
    && db.defs <= db'.defs
  }

  lemma StepExtends(re: Regex, strict: bool, s: State, step: Step)
    requires Inv(re, strict, s) && Next(re, strict, s, step).Some?
    ensures Extends(s.db, Next(re, strict, s, step).value.db)
  {
    hide ValidValues, Acceptable, Storable, NumberTaken, Startable;
    if step.Commit? {
      assert TxOk(re, strict, s.db, s.txs[step.t]);
      if s.txs[step.t].Put? { NextIsFree(s.db, s.txs[step.t].env); }
    } else if step.Advance? {
      AdvanceKeepsTx(re, strict, s, step.t, step.check);
    }
  }

  lemma {:induction false} HistoryIsPermanent(re: Regex, strict: bool, s: State, steps: seq<Step>)
    requires Inv(re, strict, s) && Exec(re, strict, s, steps).Some?
    ensures Extends(s.db, Exec(re, strict, s, steps).value.db)
    decreases |steps|
  {
    hide Inv, Next;
    if steps != [] {
      StepKeeps(re, strict, s, steps[0]);
      StepExtends(re, strict, s, steps[0]);
      HistoryIsPermanent(re, strict, Next(re, strict, s, steps[0]).value, steps[1..]);
    }
  }

  /** How many commits moved the environment's current version. */
  function MovesOf(log: seq<Event>, env: EnvId): nat {
    if log == [] then 0 else MovesOf(log[..|log| - 1], env) + (if log[|log| - 1].env == env then 1 else 0)
  }

  ghost predicate LogOk(s: State) {
    && (forall i :: 0 <= i < |s.log| ==> s.log[i].revision == MovesOf(s.log[..i + 1], s.log[i].env))
    && (forall e :: e in s.db.envs ==> s.db.envs[e].revision == MovesOf(s.log, e))
    && (forall i :: 0 <= i < |s.log| ==> s.log[i].env in s.db.envs)
  }

  lemma {:induction false} NoMoves(log: seq<Event>, env: EnvId)
    requires forall i :: 0 <= i < |log| ==> log[i].env != env
    ensures MovesOf(log, env) == 0
  {
    if log != [] { NoMoves(log[..|log| - 1], env); }
  }

  lemma LogSnoc(s: State, s': State, env: EnvId, version: int)
    requires LogOk(s) && env in s.db.envs
    requires s'.log == s.log + [Moved(env, version, s.db.envs[env].revision + 1)]
    requires s'.db.envs == s.db.envs[env := EnvRow(Some(version), s.db.envs[env].revision + 1)]
    ensures LogOk(s')
  {
    assert s'.log[..|s.log|] == s.log;
    forall i | 0 <= i < |s'.log| ensures s'.log[i].revision == MovesOf(s'.log[..i + 1], s'.log[i].env) {
      if i < |s.log| { assert s'.log[..i + 1] == s.log[..i + 1]; } else { assert s'.log[..i + 1] == s'.log; }
    }
  }

  lemma StepKeepsLog(re: Regex, strict: bool, s: State, step: Step)
    requires Inv(re, strict, s) && LogOk(s) && Next(re, strict, s, step).Some?
    ensures LogOk(Next(re, strict, s, step).value)
  {
    hide ValidValues, Acceptable, Storable, NumberTaken, Startable, NextNumber, WellKept, ChangeSafe, LocksOk;
    match step
    case Commit(t) =>
      assert TxOk(re, strict, s.db, s.txs[t]);
      var tx, s' := s.txs[t], Next(re, strict, s, step).value;
      if tx.Put? { LogSnoc(s, s', tx.env, tx.put.n); }
      if tx.Back? { LogSnoc(s, s', tx.env, tx.target); }
      if tx.Schema? { assert s.log + [] == s.log; }
    case Advance(t, check) => AdvanceKeepsTx(re, strict, s, t, check);
    case NewEnv(env) => NoMoves(s.log, env);
    case _ =>
  }

  lemma {:induction false} ExecKeepsLog(re: Regex, strict: bool, s: State, steps: seq<Step>)
    requires Inv(re, strict, s) && LogOk(s) && Exec(re, strict, s, steps).Some?
    ensures LogOk(Exec(re, strict, s, steps).value)
    decreases |steps|
  {
    hide Inv, Next, LogOk;
    if steps != [] {
      StepKeeps(re, strict, s, steps[0]);
      StepKeepsLog(re, strict, s, steps[0]);
      ExecKeepsLog(re, strict, Next(re, strict, s, steps[0]).value, steps[1..]);
    }
  }

  /**
   * Revision order is commit order: the k-th commit that moved an environment carries revision k,
   * and the environment's delivery revision counts them.
   */
  lemma RevisionsInCommitOrder(re: Regex, strict: bool, steps: seq<Step>, s: State)
    requires Reachable(re, strict, steps, s)
    ensures forall i :: 0 <= i < |s.log| ==> s.log[i].revision == MovesOf(s.log[..i + 1], s.log[i].env)
    ensures forall e :: e in s.db.envs ==> s.db.envs[e].revision == MovesOf(s.log, e)
  {
    hide ValidValues, Acceptable;
    assert Inv(re, strict, Init()) && LogOk(Init());
    ExecKeepsLog(re, strict, Init(), steps);
  }

  // ---------------------------------------------------------------- locking

  /**
   * Two writers never race for a version number: the schema row's lock already orders them, so
   * the unique-violation answer is never given.
   */
  lemma NumberIsNeverTaken(re: Regex, strict: bool, steps: seq<Step>, s: State, t: Tid)
    requires Reachable(re, strict, steps, s)
    requires t in s.txs && s.txs[t].Put? && s.txs[t].put.PNumbered?
    ensures !NumberTaken(s, t, s.txs[t].env, s.txs[t].put.n)
  {
    hide ValidValues, Acceptable, Storable;
    ReachableIsInv(re, strict, steps, s);
    assert TxOk(re, strict, s.db, s.txs[t]);
    NextIsFree(s.db, s.txs[t].env);
    forall u | u in s.txs && HoldsSchema(s.txs[u]) ensures u == t {
      assert HoldsSchema(s.txs[t]);
    }
  }

  /** Its own data end it: values or a target that do not fit, not someone else's lock. */
  ghost predicate Doomed(re: Regex, s: State, tx: Tx) {
    match tx
    case Put(_, values, targeting, PLocked(def, _)) => !Acceptable(re, def, values, targeting)
    case Schema(def, SChecking(todo)) => exists e :: e in todo && Breaks(re, s.db, def, e)
    case Back(env, target, BBegun) => (env, target) !in s.db.versions
    case _ => false
  }

  ghost predicate CanMove(re: Regex, s: State, t: Tid) {
    && t in s.txs
    && (Doomed(re, s, s.txs[t])
        || Next(re, false, s, Commit(t)).Some?
        || exists check :: Next(re, false, s, Advance(t, check)).Some?)
  }

  lemma HolderMoves(re: Regex, s: State, t: Tid)
    requires Inv(re, false, s) && s.schemaLock == Some(t)
    requires s.txs[t].Put? && s.txs[t].put.PNumbered? ==> !NumberTaken(s, t, s.txs[t].env, s.txs[t].put.n)
    requires s.txs[t].Put? && s.txs[t].put.PInserted? ==> s.txs[t].env !in s.envLocks
    ensures CanMove(re, s, t)
  {
    hide Acceptable, Breaks, NumberTaken, NextNumber, Storable, WellKept;
    var tx := s.txs[t];
    assert TxOk(re, false, s.db, tx);
    if tx.Schema? && tx.schema.SChecking? && tx.schema.todo != {} {
      var check :| check in tx.schema.todo;
      assert Doomed(re, s, tx) || Next(re, false, s, Advance(t, check)).Some?;
    } else if !ReadyToCommit(tx) && !Doomed(re, s, tx) {
      assert Next(re, false, s, Advance(t, EnvId(0))).Some?;
    }
  }

  lemma EnvHolderMoves(re: Regex, s: State, env: EnvId)
    requires Inv(re, false, s) && env in s.envLocks
    ensures CanMove(re, s, s.envLocks[env])
  {
    hide Acceptable, NextNumber, Storable, WellKept;
    assert ReadyToCommit(s.txs[s.envLocks[env]]);
  }

  lemma FreeMoves(re: Regex, s: State, t: Tid)
    requires Inv(re, false, s) && s.schemaLock.None? && t in s.txs
    requires s.txs[t].Back? ==> s.txs[t].env !in s.envLocks
    ensures CanMove(re, s, t)
  {
    hide Acceptable, NextNumber, Storable, WellKept;
    assert TxOk(re, false, s.db, s.txs[t]);
    if !ReadyToCommit(s.txs[t]) && !Doomed(re, s, s.txs[t]) {
      assert Next(re, false, s, Advance(t, EnvId(0))).Some?;
    }
  }

  /** No deadlock: as long as any transaction is under way, some transaction can move. */
  lemma NoDeadlock(re: Regex, steps: seq<Step>, s: State) returns (t: Tid)
    requires Reachable(re, false, steps, s) && s.txs != map[]
    ensures CanMove(re, s, t)
  {
    hide CanMove, Inv;
    ReachableIsInv(re, false, steps, s);
    t := Pick(s);
    if s.schemaLock.Some? {
      t := Holder(re, s);
      if s.txs[t].Put? && s.txs[t].put.PInserted? && s.txs[t].env in s.envLocks {
        EnvHolderMoves(re, s, s.txs[t].env);
        t := s.envLocks[s.txs[t].env];
      } else {
        if s.txs[t].Put? && s.txs[t].put.PNumbered? { NumberIsNeverTaken(re, false, steps, s, t); }
        HolderMoves(re, s, t);
      }
    } else if s.txs[t].Back? && s.txs[t].env in s.envLocks {
      EnvHolderMoves(re, s, s.txs[t].env);
      t := s.envLocks[s.txs[t].env];
    } else {
      FreeMoves(re, s, t);
    }
  }

  lemma Pick(s: State) returns (t: Tid)
    requires s.txs != map[]
    ensures t in s.txs
  {
    t :| t in s.txs;
  }

  lemma Holder(re: Regex, s: State) returns (t: Tid)
    requires Inv(re, false, s) && s.schemaLock.Some?
    ensures s.schemaLock == Some(t) && t in s.txs
  {
    t := s.schemaLock.value;
  }
}

/** What every stored version is worth to whoever evaluates it. */
module StoredVersions {
  import opened Json
  import opened Targeting
  import opened Schema
  import opened Evaluator
  import opened Soundness
  import opened Store
  import opened StoreRuns
  import opened StoreTheorems

  predicate AllStorable(re: Regex, defs: seq<Definition>) {
    forall i :: 0 <= i < |defs| ==> Storable(re, defs[i])
  }

  lemma StepKeepsStorable(re: Regex, strict: bool, s: State, step: Step)
    requires Inv(re, strict, s) && AllStorable(re, s.db.defs) && Next(re, strict, s, step).Some?
    ensures AllStorable(re, Next(re, strict, s, step).value.db.defs)
  {
    hide WellKept, LocksOk, ChangeSafe, Acceptable, ValidValues, NumberTaken, Startable;
    assert Storable(re, []);
    if step.Commit? {
      assert TxOk(re, strict, s.db, s.txs[step.t]);
    } else if step.Advance? {
      AdvanceKeepsTx(re, strict, s, step.t, step.check);
    }
  }

  lemma {:induction false} ExecKeepsStorable(re: Regex, strict: bool, s: State, steps: seq<Step>)
    requires Inv(re, strict, s) && AllStorable(re, s.db.defs) && Exec(re, strict, s, steps).Some?
    ensures AllStorable(re, Exec(re, strict, s, steps).value.db.defs)
    decreases |steps|
  {
    hide Inv, Next, AllStorable;
    if steps != [] {
      StepKeeps(re, strict, s, steps[0]);
      StepKeepsStorable(re, strict, s, steps[0]);
      ExecKeepsStorable(re, strict, Next(re, strict, s, steps[0]).value, steps[1..]);
    }
  }

  /** Every definition any run stores has distinct names, and fields as put-schema wants them. */
  lemma EveryDefinitionIsStorable(re: Regex, strict: bool, steps: seq<Step>, s: State, n: int)
    requires Reachable(re, strict, steps, s) && 1 <= n <= |s.db.defs|
    ensures StorableFields(re, s.db.defs[n - 1])
  {
    hide ValidValues, Acceptable, StorableFields, Storable;
    assert Inv(re, strict, Init());
    ExecKeepsStorable(re, strict, Init(), steps);
    StorableMeans(re, s.db.defs[n - 1]);
  }

  /**
   * Whatever row any interleaving stores, and whoever asks: its values and its rules fit the
   * definition it is pinned to, and evaluating it gives a configuration that fits it too, but for
   * nulls left by rules of which none matches.
   */
  lemma EveryVersionEvaluates(
      re: Regex, strict: bool, steps: seq<Step>, s: State, k: (EnvId, int), hash: Hasher, ctx: EvalContext)
    requires Reachable(re, strict, steps, s) && k in s.db.versions
    ensures 1 <= s.db.versions[k].schemaVersion <= |s.db.defs|
    ensures var row, def := s.db.versions[k], s.db.defs[s.db.versions[k].schemaVersion - 1];
            && Fits(re, def, row.values) && FitsRules(re, def, row.targeting)
            && EvaluatesWell(hash, re, def, row.values, row.targeting, ctx)
  {
    hide ValidValues, ValidTargeting, EvaluatesWell, StorableFields, Storable, Fits, FitsRules, Reachable;
    VersionHistory(re, strict, steps, s);
    var row, def := s.db.versions[k], s.db.defs[s.db.versions[k].schemaVersion - 1];
    EveryDefinitionIsStorable(re, strict, steps, s, row.schemaVersion);
    StorableMeans(re, def);
    ValuesPassExactly(re, def, row.values);
    TargetingPassesExactly(re, def, row.targeting);
    WhatFitsEvaluates(hash, re, def, row.values, row.targeting, ctx);
  }
}
