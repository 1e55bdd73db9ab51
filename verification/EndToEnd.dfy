/**
 * The whole path of one environment: the transactions that write it, and the actors that carry
 * what they committed to a consumer, interleaved freely.
 */
module EndToEnd {
  import opened Json
  import opened Store
  import opened StoreFeedsDelivery
  import opened StoreRuns
  import opened StoreTheorems
  import D = Delivery
  import DT = DeliveryTheorems
  import Schema
  import Evaluator
  import Soundness
  import StoredVersions
  import Targeting

  datatype Whole = Whole(store: State, live: D.State)

  /** A step of the write paths, or a step of delivery other than a commit of its own. */
  datatype Act = Write(step: Step) | Carry(live: D.Step)

  datatype Setting = Setting(cfg: D.Config, re: Schema.Regex, strict: bool, env: EnvId)

  /** A commit is taken over by the delivery side; every other write leaves that side as it is. */
  ghost function Act1(x: Setting, w: Whole, act: Act): Option<Whole>
    requires w.live.history != []
  {
    match act
    case Write(step) =>
      var n := Next(x.re, x.strict, w.store, step);
      if n.None? then None
      else if !step.Commit? then Some(w.(store := n.value))
      else
        var l := Followed(x.cfg, w.live, w.store.txs[step.t], x.env);
        if l.None? then None else Some(Whole(n.value, l.value))
    case Carry(live) =>
      if live.Save? || live.Rollback? then None
      else
        var l := D.Next(x.cfg, w.live, live);
        if l.None? then None else Some(w.(live := l.value))
  }

  ghost function Run(x: Setting, w: Whole, acts: seq<Act>): Option<Whole>
    decreases |acts|
  {
    if acts == [] then Some(w)
    else if w.live.history == [] then None
    else
      var n := Act1(x, w, acts[0]);
      if n.None? then None else Run(x, n.value, acts[1..])
  }

  ghost predicate Reached(x: Setting, acts: seq<Act>, w: Whole) {
    Run(x, Whole(Init(), D.Init()), acts) == Some(w)
  }

  /** The environment's live version is the one its latest revision made current. */
  ghost predicate ShowsCurrent(s: State, env: EnvId, history: seq<D.Row>) {
    history != []
    && (env in s.db.envs && s.db.envs[env].current.Some? ==>
          IsVersion(s.db, env, s.db.envs[env].current.value, history[|history| - 1]))
  }

  ghost predicate InStep(x: Setting, w: Whole) {
    && Inv(x.re, x.strict, w.store) && LogOk(w.store) && LoggedRowsExist(w.store.db, w.store.log)
    && Seen(w.store, x.env, w.live) && ShowsCurrent(w.store, x.env, w.live.history)
  }

  // ---------------------------------------------------------------- every act keeps the two in step

  lemma OtherWrites(re: Schema.Regex, strict: bool, s: State, step: Step)
    requires Inv(re, strict, s) && Next(re, strict, s, step).Some? && !step.Commit?
    ensures var s' := Next(re, strict, s, step).value;
            && s'.db.versions == s.db.versions && s'.log == s.log
            && (forall e :: e in s'.db.envs && s'.db.envs[e].current.Some? ==>
                              e in s.db.envs && s'.db.envs[e] == s.db.envs[e])
  {
    hide Schema.ValidValues, Acceptable, ChangeSafe, LocksOk, Highest, Numbered, Pinned, Pointed,
         NumberTaken, Startable;
    if step.Advance? {
      assert TxOk(re, strict, s.db, s.txs[step.t]);
      AdvanceKeepsTx(re, strict, s, step.t, step.check);
    }
  }

  lemma Unmoved(s: State, s': State, env: EnvId, d: D.State)
    requires Seen(s, env, d) && ShowsCurrent(s, env, d.history) && LoggedRowsExist(s.db, s.log)
    requires s'.db.versions == s.db.versions && s'.log == s.log && Extends(s.db, s'.db)
    requires forall e :: e in s'.db.envs && s'.db.envs[e].current.Some? ==>
                           e in s.db.envs && s'.db.envs[e] == s.db.envs[e]
    ensures Seen(s', env, d) && ShowsCurrent(s', env, d.history) && LoggedRowsExist(s'.db, s'.log)
  {
    hide History, Highest;
    HistoryIsStable(s.db, s'.db, s.log, env);
    ListsTheSame(s.db, s'.db, env, d.versions);
  }

  lemma OtherWritesKeep(x: Setting, w: Whole, step: Step)
    requires InStep(x, w) && Next(x.re, x.strict, w.store, step).Some? && !step.Commit?
    ensures InStep(x, w.(store := Next(x.re, x.strict, w.store, step).value))
  {
    hide Inv, Next, LogOk, Seen, ShowsCurrent, LoggedRowsExist, Extends;
    OtherWrites(x.re, x.strict, w.store, step);
    StepExtends(x.re, x.strict, w.store, step);
    StepKeeps(x.re, x.strict, w.store, step);
    StepKeepsLog(x.re, x.strict, w.store, step);
    Unmoved(w.store, Next(x.re, x.strict, w.store, step).value, x.env, w.live);
  }

  /** The version a commit makes current. */
  ghost function MadeCurrent(tx: Tx): int
    requires ReadyToCommit(tx) && !tx.Schema?
  {
    if tx.Put? then tx.put.n else tx.target
  }

  lemma CommitMoves(re: Schema.Regex, strict: bool, s: State, t: Tid, s': State)
    requires Inv(re, strict, s) && Commits(re, strict, s, t, s')
    ensures var tx := s.txs[t];
            && ReadyToCommit(tx)
            && (if tx.Schema? then s'.db.envs == s.db.envs
                else tx.env in s.db.envs
                     && s'.db.envs
                        == s.db.envs[tx.env := EnvRow(Some(MadeCurrent(tx)), s.db.envs[tx.env].revision + 1)])
            && (tx.Put? ==> tx.put.n == NextNumber(s.db, tx.env))
  {
    hide Schema.ValidValues, Acceptable, ChangeSafe, LocksOk, Highest, Numbered, Pinned, Pointed,
         NextNumber, RollbackFits;
    assert TxOk(re, strict, s.db, s.txs[t]);
  }

  /** The row a commit appends to the environment's history is the version it made current. */
  lemma AppendsCurrent(s: State, s': State, env: EnvId, d: D.State, tx: Tx, added: seq<D.Row>)
    requires Seen(s, env, d) && ShowsCurrent(s, env, d.history) && Extends(s.db, s'.db)
    requires ReadyToCommit(tx)
    requires if tx.Schema? then s'.db.envs == s.db.envs
             else tx.env in s.db.envs
                  && s'.db.envs == s.db.envs[tx.env := EnvRow(Some(MadeCurrent(tx)), s.db.envs[tx.env].revision + 1)]
    requires if !tx.Schema? && tx.env == env then |added| == 1 && IsVersion(s'.db, env, MadeCurrent(tx), added[0])
             else added == []
    ensures ShowsCurrent(s', env, d.history + added)
  {
    hide History, Highest, ListsVersions;
    if added == [] { assert d.history + added == d.history; }
  }

  lemma LastListed(db: Db, db': Db, env: EnvId, versions: seq<D.Row>, row: D.Row)
    requires ListsVersions(db, env, versions) && ListsVersions(db', env, versions + [row])
    ensures IsVersion(db', env, NextNumber(db, env), row)
  {
    hide Highest;
    assert (versions + [row])[|versions|] == row;
  }

  /** What a commit adds to the history: the version it makes current, if it is of this environment. */
  ghost predicate Appends(env: EnvId, tx: Tx, s': State, d: D.State, added: seq<D.Row>)
    requires ReadyToCommit(tx)
  {
    && History(s'.db, s'.log, env) == d.history + added
    && (if !tx.Schema? && tx.env == env
        then |added| == 1 && IsVersion(s'.db, env, MadeCurrent(tx), added[0])
        else added == [])
  }

  lemma PutAppends(x: Setting, s: State, t: Tid, s': State, d: D.State) returns (added: seq<D.Row>)
    requires Inv(x.re, x.strict, s) && LoggedRowsExist(s.db, s.log) && Seen(s, x.env, d)
    requires Commits(x.re, x.strict, s, t, s') && s.txs[t].Put? && ReadyToCommit(s.txs[t])
    ensures Appends(x.env, s.txs[t], s', d, added)
  {
    hide Inv, Next, History, Highest, LoggedRowsExist, ListsVersions, NextNumber, IsVersion;
    var tx := s.txs[t];
    CommitMoves(x.re, x.strict, s, t, s');
    PutAdds(x.re, x.strict, s, t, s', x.env, d.versions);
    added := if tx.env == x.env then [D.Row(|d.versions| + 1, tx.values, tx.targeting)] else [];
    if tx.env == x.env { LastListed(s.db, s'.db, x.env, d.versions, added[0]); }
  }

  lemma OthersAppend(x: Setting, s: State, t: Tid, s': State, d: D.State) returns (added: seq<D.Row>)
    requires Inv(x.re, x.strict, s) && LoggedRowsExist(s.db, s.log) && Seen(s, x.env, d)
    requires Commits(x.re, x.strict, s, t, s') && !s.txs[t].Put? && ReadyToCommit(s.txs[t])
    ensures Appends(x.env, s.txs[t], s', d, added)
  {
    hide Inv, Next, History, Highest, LoggedRowsExist;
    var tx := s.txs[t];
    OthersAdd(x.re, x.strict, s, t, s', x.env, d.versions);
    added := if tx.Back? && tx.env == x.env then [d.versions[tx.target - 1]] else [];
    assert added != [] ==> IsVersion(s'.db, x.env, tx.target - 1 + 1, d.versions[tx.target - 1]);
  }

  lemma CommitShows(x: Setting, s: State, t: Tid, s': State, d: D.State)
    requires Inv(x.re, x.strict, s) && LoggedRowsExist(s.db, s.log)
    requires Seen(s, x.env, d) && ShowsCurrent(s, x.env, d.history)
    requires Commits(x.re, x.strict, s, t, s') && Extends(s.db, s'.db)
    ensures ShowsCurrent(s', x.env, History(s'.db, s'.log, x.env))
  {
    hide Inv, Next, LoggedRowsExist, Extends, Seen, ShowsCurrent, History, ReadyToCommit, MadeCurrent,
         IsVersion, NextNumber, StoreRuns.Written;
    var tx := s.txs[t];
    CommitMoves(x.re, x.strict, s, t, s');
    var added;
    if tx.Put? { added := PutAppends(x, s, t, s', d); } else { added := OthersAppend(x, s, t, s', d); }
    AppendsCurrent(s, s', x.env, d, tx, added);
  }

  lemma CommitKeepsInStep(x: Setting, w: Whole, t: Tid, s': State)
    requires InStep(x, w) && Commits(x.re, x.strict, w.store, t, s')
    ensures var d' := Followed(x.cfg, w.live, w.store.txs[t], x.env);
            d'.Some? && InStep(x, Whole(s', d'.value))
  {
    hide Inv, Next, LogOk, LoggedRowsExist, Extends, ListsVersions, History, Followed;
    StepKeeps(x.re, x.strict, w.store, Commit(t));
    StepKeepsLog(x.re, x.strict, w.store, Commit(t));
    StepExtends(x.re, x.strict, w.store, Commit(t));
    CommitShows(x, w.store, t, s', w.live);
    CommitsAreSavesAndRollbacks(x.cfg, x.re, x.strict, w.store, t, s', x.env, w.live);
  }

  lemma CarryKeepsInStep(x: Setting, w: Whole, step: D.Step)
    requires InStep(x, w) && !step.Save? && !step.Rollback? && D.Next(x.cfg, w.live, step).Some?
    ensures InStep(x, w.(live := D.Next(x.cfg, w.live, step).value))
  {
    hide Inv, LogOk, LoggedRowsExist, ListsVersions, History;
    assert D.Next(x.cfg, w.live, step).value.versions == w.live.versions;
    assert D.Next(x.cfg, w.live, step).value.history == w.live.history;
  }

  lemma ActKeepsInStep(x: Setting, w: Whole, act: Act)
    requires InStep(x, w) && Act1(x, w, act).Some?
    ensures InStep(x, Act1(x, w, act).value)
  {
    assert act.Write? && act.step.Commit? ==> act.step.t in w.store.txs;
    hide InStep, Next, D.Next, Followed;
    match act
    case Write(step) =>
      if step.Commit? {
        CommitKeepsInStep(x, w, step.t, Next(x.re, x.strict, w.store, step).value);
      } else {
        OtherWritesKeep(x, w, step);
      }
    case Carry(step) => CarryKeepsInStep(x, w, step);
  }

  /** The delivery side never refuses what the write paths do, so composing the two loses no run. */
  lemma NothingIsRefused(x: Setting, w: Whole, step: Step)
    requires InStep(x, w)
    ensures Act1(x, w, Write(step)).Some? <==> Next(x.re, x.strict, w.store, step).Some?
  {
    hide Inv, LogOk, LoggedRowsExist, Seen, Followed;
    var n := Next(x.re, x.strict, w.store, step);
    if n.Some? && step.Commit? { CommitKeepsInStep(x, w, step.t, n.value); }
  }

  /** A run of the whole, seen from the delivery side, is a run of the delivery machine. */
  lemma {:induction false} RunIsDelivered(x: Setting, w: Whole, acts: seq<Act>) returns (steps: seq<D.Step>)
    requires InStep(x, w) && Run(x, w, acts).Some?
    ensures InStep(x, Run(x, w, acts).value)
    ensures D.Exec(x.cfg, w.live, steps) == Some(Run(x, w, acts).value.live)
    decreases |acts|
  {
    hide InStep, Next, D.Next;
    if acts == [] {
      steps := [];
    } else {
      ActKeepsInStep(x, w, acts[0]);
      var n := Act1(x, w, acts[0]).value;
      var rest := RunIsDelivered(x, n, acts[1..]);
      steps := Taken(x, w, acts[0]) + rest;
      assert Taken(x, w, acts[0]) == [] ==> steps == rest;
      assert Taken(x, w, acts[0]) != [] ==> steps[0] == Taken(x, w, acts[0])[0] && steps[1..] == rest;
    }
  }

  /** The delivery machine's step for an act, if it takes one. */
  ghost function Taken(x: Setting, w: Whole, act: Act): seq<D.Step>
    requires w.live.history != [] && Act1(x, w, act).Some?
  {
    match act
    case Carry(step) => [step]
    case Write(step) =>
      if !step.Commit? || StepFor(w.store.txs[step.t], x.env).None? then []
      else [StepFor(w.store.txs[step.t], x.env).value]
  }

  // ---------------------------------------------------------------- what the consumer holds

  /** Revision r of an environment's history is the version its r-th logged commit made current. */
  lemma {:induction false} HistoryAt(db: Db, log: seq<Event>, env: EnvId, r: int) returns (i: int)
    requires LoggedRowsExist(db, log) && 1 <= r <= MovesOf(log, env)
    ensures 0 <= i < |log| && log[i].env == env && MovesOf(log[..i + 1], env) == r
    ensures |History(db, log, env)| == MovesOf(log, env) + 1
    ensures IsVersion(db, env, log[i].version, History(db, log, env)[r])
  {
    var last := |log| - 1;
    assert (log[last].env, log[last].version) in db.versions;
    HistoryCountsMoves(db, log, env);
    HistoryCountsMoves(db, log[..last], env);
    if log[last].env == env && r == MovesOf(log, env) {
      i := last;
      assert log[..i + 1] == log;
    } else {
      i := HistoryAt(db, log[..last], env, r);
      assert log[..last][..i + 1] == log[..i + 1];
    }
  }

  lemma {:induction false} HistoryStarts(db: Db, log: seq<Event>, env: EnvId)
    ensures History(db, log, env) != [] && History(db, log, env)[0] == D.EMPTY_ROW
  {
    if log != [] { HistoryStarts(db, log[..|log| - 1], env); }
  }

  lemma ReachedIsInStep(x: Setting, acts: seq<Act>, w: Whole) returns (steps: seq<D.Step>)
    requires Reached(x, acts, w)
    ensures InStep(x, w) && DT.Reachable(x.cfg, steps, w.live)
  {
    assert InStep(x, Whole(Init(), D.Init())) by { hide Schema.ValidValues, Acceptable; }
    hide InStep, Act1;
    steps := RunIsDelivered(x, Whole(Init(), D.Init()), acts);
  }

  lemma LoggedAt(s: State, env: EnvId, r: int) returns (i: int)
    requires LogOk(s) && LoggedRowsExist(s.db, s.log) && 0 <= r < |History(s.db, s.log, env)|
    ensures r == 0 ==> History(s.db, s.log, env)[r] == D.EMPTY_ROW
    ensures r != 0 ==> 0 <= i < |s.log| && s.log[i].env == env && s.log[i].revision == r
                       && IsVersion(s.db, env, s.log[i].version, History(s.db, s.log, env)[r])
  {
    hide History, LoggedRowsExist;
    HistoryStarts(s.db, s.log, env);
    HistoryCountsMoves(s.db, s.log, env);
    i := 0;
    if r != 0 { i := HistoryAt(s.db, s.log, env, r); }
  }

  /**
   * From transaction to consumer. With atomically loaded snapshots, in every interleaving of the
   * write paths and of delivery, a consumer at revision r holds the stored version that the
   * environment's r-th committed save or rollback made current, or nothing when r is 0.
   */
  lemma ServedAsCommitted(x: Setting, acts: seq<Act>, w: Whole) returns (i: int)
    requires x.cfg.atomicReads && Reached(x, acts, w) && w.live.consumer.Running?
    ensures var current, s := w.live.consumer.current, w.store;
            if current.revision == 0 then D.Body(current) == D.EMPTY_ROW
            else 0 <= i < |s.log| && s.log[i].env == x.env && s.log[i].revision == current.revision
                 && IsVersion(s.db, x.env, s.log[i].version, D.Body(current))
  {
    var steps := ReachedIsInStep(x, acts, w);
    DT.Agreement(x.cfg, steps, w.live);
    hide Inv, LogOk, LoggedRowsExist, ListsVersions, History, DT.Reachable, D.Body, IsVersion, Reached;
    i := LoggedAt(w.store, x.env, w.live.consumer.current.revision);
  }

  /**
   * And once delivery has gone quiet, the consumer holds the environment's live version at the
   * environment's delivery revision.
   */
  lemma QuietConsumerHoldsLiveVersion(x: Setting, acts: seq<Act>, w: Whole)
    requires x.cfg.atomicReads || !x.cfg.deltas
    requires Reached(x, acts, w) && DT.Quiet(w.live) && w.live.healthy
    requires x.env in w.store.db.envs && w.store.db.envs[x.env].current.Some?
    ensures var current, row := w.live.consumer.current, w.store.db.envs[x.env];
            current.revision == row.revision && IsVersion(w.store.db, x.env, row.current.value, D.Body(current))
  {
    var steps := ReachedIsInStep(x, acts, w);
    DT.QuietConsumerIsCurrent(x.cfg, steps, w.live);
    DT.NoLostUpdate(x.cfg, steps, w.live);
    hide Inv, ListsVersions, History, DT.Reachable;
    HeadIsRevision(w.store, x.env, w.live);
  }

  lemma {:induction false} RunStores(x: Setting, w: Whole, acts: seq<Act>) returns (steps: seq<Step>)
    requires Run(x, w, acts).Some?
    ensures Exec(x.re, x.strict, w.store, steps) == Some(Run(x, w, acts).value.store)
    decreases |acts|
  {
    hide Next, D.Next;
    if acts == [] {
      steps := [];
    } else {
      var n := Act1(x, w, acts[0]).value;
      var rest := RunStores(x, n, acts[1..]);
      if acts[0].Write? {
        steps := [acts[0].step] + rest;
        assert steps[1..] == rest;
      } else {
        steps := rest;
      }
    }
  }

  /** What a consumer holds past revision 0 is, with atomic loads or full frames, some stored version. */
  lemma HoldsAVersion(x: Setting, acts: seq<Act>, w: Whole) returns (v: int)
    requires x.cfg.atomicReads || !x.cfg.deltas
    requires Reached(x, acts, w) && w.live.consumer.Running? && w.live.consumer.current.revision > 0
    ensures IsVersion(w.store.db, x.env, v, D.Body(w.live.consumer.current))
  {
    var current := w.live.consumer.current;
    var steps := ReachedIsInStep(x, acts, w);
    var r := current.revision;
    if x.cfg.atomicReads {
      DT.Agreement(x.cfg, steps, w.live);
    } else {
      DT.FullFramesAreNeverStale(x.cfg, steps, w.live);
      r :| current.revision <= r <= D.Head(w.live) && D.Body(current) == w.live.history[r];
    }
    hide Inv, LogOk, LoggedRowsExist, ListsVersions, History, DT.Reachable, D.Body, IsVersion, Reached;
    var i := LoggedAt(w.store, x.env, r);
    v := w.store.log[i].version;
  }

  /**
   * From a posted configuration to an evaluated flag: whatever a consumer holds past revision 0
   * fits a definition the store has carried, and evaluates well against it for every caller.
   */
  lemma ServedEvaluates(x: Setting, acts: seq<Act>, w: Whole, hash: Evaluator.Hasher, ctx: Targeting.EvalContext)
    returns (n: int)
    requires x.cfg.atomicReads || !x.cfg.deltas
    requires Reached(x, acts, w) && w.live.consumer.Running? && w.live.consumer.current.revision > 0
    ensures 1 <= n <= |w.store.db.defs|
    ensures var row, def := D.Body(w.live.consumer.current), w.store.db.defs[n - 1];
            && Schema.Fits(x.re, def, row.values) && Schema.FitsRules(x.re, def, row.targeting)
            && Soundness.EvaluatesWell(hash, x.re, def, row.values, row.targeting, ctx)
  {
    hide Run, Schema.Fits, Schema.FitsRules, Soundness.EvaluatesWell;
    var v := HoldsAVersion(x, acts, w);
    var steps := RunStores(x, Whole(Init(), D.Init()), acts);
    var k := (x.env, v);
    StoredVersions.EveryVersionEvaluates(x.re, x.strict, steps, w.store, k, hash, ctx);
    n := w.store.db.versions[k].schemaVersion;
  }
}
