/**
 * The delivery machine's store is the transaction machine's, seen from one environment: every
 * committed transaction is, on that view, a Save, a Rollback, or nothing.
 */
module StoreFeedsDelivery {
  import opened Json
  import opened Store
  import opened StoreRuns
  import opened StoreTheorems
  import Delivery

  ghost function RowOf(db: Db, env: EnvId, n: int): Delivery.Row
    requires (env, n) in db.versions
  {
    Delivery.Row(n, db.versions[(env, n)].values, db.versions[(env, n)].targeting)
  }

  predicate IsVersion(db: Db, env: EnvId, n: int, row: Delivery.Row) {
    (env, n) in db.versions && row == Delivery.Row(n, db.versions[(env, n)].values, db.versions[(env, n)].targeting)
  }

  /** The environment's versions 1, 2, ... as the delivery machine lists them. */
  ghost predicate ListsVersions(db: Db, env: EnvId, versions: seq<Delivery.Row>) {
    && |versions| == Highest(db.versions.Keys, env)
    && forall i :: 0 <= i < |versions| ==> IsVersion(db, env, i + 1, versions[i])
  }

  /** The rows its revisions 0, 1, ... made current, out of the commit log. */
  ghost function History(db: Db, log: seq<Event>, env: EnvId): seq<Delivery.Row> {
    if log == [] then [Delivery.EMPTY_ROW]
    else
      var last := log[|log| - 1];
      History(db, log[..|log| - 1], env)
      + (if last.env == env && (env, last.version) in db.versions then [RowOf(db, env, last.version)] else [])
  }

  ghost predicate LoggedRowsExist(db: Db, log: seq<Event>) {
    forall i :: 0 <= i < |log| ==> (log[i].env, log[i].version) in db.versions
  }

  lemma {:induction false} HistoryIsStable(db: Db, db': Db, log: seq<Event>, env: EnvId)
    requires Extends(db, db') && LoggedRowsExist(db, log)
    ensures History(db', log, env) == History(db, log, env)
  {
    if log != [] {
      assert (log[|log| - 1].env, log[|log| - 1].version) in db.versions;
      HistoryIsStable(db, db', log[..|log| - 1], env);
    }
  }

  lemma HistorySnoc(db: Db, log: seq<Event>, e: Event, env: EnvId)
    requires (e.env, e.version) in db.versions
    ensures History(db, log + [e], env)
         == History(db, log, env) + (if e.env == env then [RowOf(db, env, e.version)] else [])
  {
    assert (log + [e])[..|log|] == log;
  }

  lemma HistoryAdds(db: Db, db': Db, log: seq<Event>, e: Event, env: EnvId)
    requires Extends(db, db') && LoggedRowsExist(db, log) && (e.env, e.version) in db'.versions
    ensures LoggedRowsExist(db', log + [e])
    ensures History(db', log + [e], env)
         == History(db, log, env) + (if e.env == env then [RowOf(db', env, e.version)] else [])
  {
    HistoryIsStable(db, db', log, env);
    HistorySnoc(db', log, e, env);
  }

  /** Revision r of the environment is index r of its history. */
  lemma {:induction false} HistoryCountsMoves(db: Db, log: seq<Event>, env: EnvId)
    requires LoggedRowsExist(db, log)
    ensures |History(db, log, env)| == MovesOf(log, env) + 1
  {
    if log != [] {
      assert (log[|log| - 1].env, log[|log| - 1].version) in db.versions;
      HistoryCountsMoves(db, log[..|log| - 1], env);
    }
  }

  lemma ListsTheSame(db: Db, db': Db, env: EnvId, versions: seq<Delivery.Row>)
    requires ListsVersions(db, env, versions) && Extends(db, db')
    requires Highest(db'.versions.Keys, env) == Highest(db.versions.Keys, env)
    ensures ListsVersions(db', env, versions)
  {
  }

  /** A new row of another environment leaves this one's highest number alone; one of its own raises it by one. */
  lemma HighestAfter(db: Db, env: EnvId, e: EnvId, n: int, row: VersionRow)
    requires Numbered(db) && n == NextNumber(db, e)
    ensures var db' := db.(versions := db.versions[(e, n) := row]);
            Highest(db'.versions.Keys, env) == Highest(db.versions.Keys, env) + (if e == env then 1 else 0)
  {
    var db' := db.(versions := db.versions[(e, n) := row]);
    var h, h' := Highest(db.versions.Keys, env), Highest(db'.versions.Keys, env);
    assert h == 0 || (env, h) in db'.versions.Keys;
    assert (e, n) in db'.versions.Keys;
  }

  ghost predicate Seen(s: State, env: EnvId, d: Delivery.State) {
    && ListsVersions(s.db, env, d.versions)
    && d.history == History(s.db, s.log, env)
  }

  /** What the delivery machine takes for a commit of tx, seen from env. */
  ghost function StepFor(tx: Tx, env: EnvId): Option<Delivery.Step> {
    match tx
    case Put(e, values, targeting, _) => if e == env then Some(Delivery.Save(values, targeting)) else None
    case Back(e, target, _) => if e == env then Some(Delivery.Rollback(target)) else None
    case Schema(_, _) => None
  }

  /** A delivery state showing what s shows of env, after the step that stands for tx. */
  ghost function Followed(cfg: Delivery.Config, d: Delivery.State, tx: Tx, env: EnvId): Option<Delivery.State>
    requires d.history != []
  {
    if StepFor(tx, env).None? then Some(d) else Delivery.Next(cfg, d, StepFor(tx, env).value)
  }

  lemma NextListed(db: Db, env: EnvId, versions: seq<Delivery.Row>)
    requires ListsVersions(db, env, versions)
    ensures NextNumber(db, env) == |versions| + 1
  {
    hide Highest;
  }

  /** A new version row lengthens its own environment's list by itself. */
  lemma ListsOneMore(db: Db, db': Db, e: EnvId, row: VersionRow, versions: seq<Delivery.Row>)
    requires Numbered(db) && ListsVersions(db, e, versions)
    requires db'.versions == db.versions[(e, NextNumber(db, e)) := row]
    ensures ListsVersions(db', e, versions + [Delivery.Row(|versions| + 1, row.values, row.targeting)])
  {
    hide Highest, Numbered;
    var n := |versions| + 1;
    HighestAfter(db, e, e, n, row);
    assert db'.versions == db.versions[(e, n) := row];
    assert db'.versions == db.(versions := db'.versions).versions;
    var longer := versions + [Delivery.Row(n, row.values, row.targeting)];
    forall i | 0 <= i < |longer| ensures IsVersion(db', e, i + 1, longer[i]) {
      if i < |versions| {
        assert IsVersion(db, e, i + 1, versions[i]);
        SameElsewhere(db, db', e, i + 1, n, row);
      }
    }
  }

  lemma SameElsewhere(db: Db, db': Db, e: EnvId, i: int, n: int, row: VersionRow)
    requires i != n && (e, i) in db.versions && db'.versions == db.versions[(e, n) := row]
    ensures (e, i) in db'.versions && db'.versions[(e, i)] == db.versions[(e, i)]
  {
  }

  /** t commits, and leaves s'. */
  ghost predicate Commits(re: Schema.Regex, strict: bool, s: State, t: Tid, s': State) {
    t in s.txs && Next(re, strict, s, Commit(t)) == Some(s')
  }

  lemma PutCommits(re: Schema.Regex, strict: bool, s: State, t: Tid, s': State)
    requires Inv(re, strict, s) && Commits(re, strict, s, t, s') && s.txs[t].Put?
    ensures var tx := s.txs[t];
            && tx.put.PPointed? && Numbered(s.db) && tx.put.n == NextNumber(s.db, tx.env)
            && s'.db.versions
               == s.db.versions[(tx.env, tx.put.n) := VersionRow(tx.values, tx.targeting, tx.put.sv)]
            && s'.log == s.log + [Moved(tx.env, tx.put.n, tx.put.rev)]
            && Extends(s.db, s'.db)
  {
    hide Schema.ValidValues, Acceptable, ChangeSafe, LocksOk, Highest, Numbered, Pinned, Pointed;
    assert TxOk(re, strict, s.db, s.txs[t]);
    StepExtends(re, strict, s, Commit(t));
  }

  /** What a committed put-values adds to its own environment's view, and to the others'. */
  lemma PutAdds(re: Schema.Regex, strict: bool, s: State, t: Tid, s': State, env: EnvId, versions: seq<Delivery.Row>)
    requires Inv(re, strict, s) && LoggedRowsExist(s.db, s.log) && ListsVersions(s.db, env, versions)
    requires Commits(re, strict, s, t, s') && s.txs[t].Put?
    ensures var tx := s.txs[t];
            var added := if tx.env == env then [Delivery.Row(|versions| + 1, tx.values, tx.targeting)] else [];
            && ListsVersions(s'.db, env, versions + added) && LoggedRowsExist(s'.db, s'.log)
            && History(s'.db, s'.log, env) == History(s.db, s.log, env) + added
  {
    hide Inv, Next, Numbered, Highest, History, NextNumber, ListsVersions, LoggedRowsExist, Extends;
    var tx := s.txs[t];
    PutCommits(re, strict, s, t, s');
    var row := VersionRow(tx.values, tx.targeting, tx.put.sv);
    if tx.env == env {
      NextListed(s.db, env, versions);
      ListsOneMore(s.db, s'.db, env, row, versions);
    } else {
      HighestAfter(s.db, env, tx.env, tx.put.n, row);
      assert s'.db.versions == s.db.(versions := s'.db.versions).versions;
      ListsTheSame(s.db, s'.db, env, versions);
      assert versions + [] == versions;
    }
    HistoryAdds(s.db, s'.db, s.log, Moved(tx.env, tx.put.n, tx.put.rev), env);
  }

  lemma PutIsSave(
      cfg: Delivery.Config, re: Schema.Regex, strict: bool, s: State, t: Tid, s': State, env: EnvId, d: Delivery.State)
    requires Inv(re, strict, s) && LoggedRowsExist(s.db, s.log) && Seen(s, env, d) && d.history != []
    requires Commits(re, strict, s, t, s') && s.txs[t].Put?
    ensures var d' := Followed(cfg, d, s.txs[t], env);
            d'.Some? && Seen(s', env, d'.value) && LoggedRowsExist(s'.db, s'.log)
  {
    hide Inv, Next, ListsVersions, History, Delivery.ListenerNext, Delivery.HandlerNext, Delivery.ConsumerNext;
    PutAdds(re, strict, s, t, s', env, d.versions);
    assert d.versions + [] == d.versions && d.history + [] == d.history;
  }

  /** A committed rollback or put-schema leaves the version rows alone. */
  lemma OtherCommits(re: Schema.Regex, strict: bool, s: State, t: Tid, s': State)
    requires Inv(re, strict, s) && Commits(re, strict, s, t, s') && !s.txs[t].Put?
    ensures var tx := s.txs[t];
            && s'.db.versions == s.db.versions && Extends(s.db, s'.db) && Numbered(s.db)
            && (tx.Schema? ==> s'.log == s.log)
            && (tx.Back? ==> (tx.env, tx.target) in s.db.versions && tx.back.BPointed?
                             && s'.log == s.log + [Moved(tx.env, tx.target, tx.back.rev)])
  {
    hide Schema.ValidValues, Acceptable, ChangeSafe, LocksOk, Highest, Numbered, Pinned, Pointed, RollbackFits;
    assert TxOk(re, strict, s.db, s.txs[t]);
    StepExtends(re, strict, s, Commit(t));
    assert s.log + [] == s.log;
  }

  lemma OthersAdd(re: Schema.Regex, strict: bool, s: State, t: Tid, s': State, env: EnvId, versions: seq<Delivery.Row>)
    requires Inv(re, strict, s) && LoggedRowsExist(s.db, s.log) && ListsVersions(s.db, env, versions)
    requires Commits(re, strict, s, t, s') && !s.txs[t].Put?
    ensures var tx := s.txs[t];
            var moved := tx.Back? && tx.env == env;
            && (moved ==> 1 <= tx.target <= |versions|)
            && ListsVersions(s'.db, env, versions) && LoggedRowsExist(s'.db, s'.log)
            && History(s'.db, s'.log, env)
               == History(s.db, s.log, env) + (if moved then [versions[tx.target - 1]] else [])
  {
    hide Inv, Next, Numbered, Highest, History;
    var tx := s.txs[t];
    OtherCommits(re, strict, s, t, s');
    ListsTheSame(s.db, s'.db, env, versions);
    if tx.Back? {
      HistoryAdds(s.db, s'.db, s.log, Moved(tx.env, tx.target, tx.back.rev), env);
      if tx.env == env {
        NumbersAreDense(s.db, env, tx.target);
        assert IsVersion(s.db, env, tx.target - 1 + 1, versions[tx.target - 1]);
      }
    } else {
      HistoryIsStable(s.db, s'.db, s.log, env);
      assert History(s.db, s.log, env) + [] == History(s.db, s.log, env);
    }
  }

  /** A commit that moves env appends the row it made current, and nothing else of the view changes. */
  lemma FollowedAppends(cfg: Delivery.Config, d: Delivery.State, tx: Tx, env: EnvId)
    requires d.history != [] && !tx.Put?
    requires tx.Back? && tx.env == env ==> 1 <= tx.target <= |d.versions|
    ensures var d' := Followed(cfg, d, tx, env);
            && d'.Some? && d'.value.versions == d.versions
            && d'.value.history
               == d.history + (if tx.Back? && tx.env == env then [d.versions[tx.target - 1]] else [])
  {
    hide Delivery.ListenerNext, Delivery.HandlerNext, Delivery.ConsumerNext;
    assert d.history + [] == d.history;
  }

  lemma OthersAreRollbacks(
      cfg: Delivery.Config, re: Schema.Regex, strict: bool, s: State, t: Tid, s': State, env: EnvId, d: Delivery.State)
    requires Inv(re, strict, s) && LoggedRowsExist(s.db, s.log) && Seen(s, env, d) && d.history != []
    requires Commits(re, strict, s, t, s') && !s.txs[t].Put?
    ensures var d' := Followed(cfg, d, s.txs[t], env);
            d'.Some? && Seen(s', env, d'.value) && LoggedRowsExist(s'.db, s'.log)
  {
    hide Inv, Next, ListsVersions, History, LoggedRowsExist, Followed;
    var tx := s.txs[t];
    OthersAdd(re, strict, s, t, s', env, d.versions);
    FollowedAppends(cfg, d, tx, env);
  }

  /** The revision the store gives the environment is the delivery machine's head. */
  lemma HeadIsRevision(s: State, env: EnvId, d: Delivery.State)
    requires LogOk(s) && LoggedRowsExist(s.db, s.log) && Seen(s, env, d) && env in s.db.envs
    ensures s.db.envs[env].revision == Delivery.Head(d)
  {
    hide ListsVersions;
    HistoryCountsMoves(s.db, s.log, env);
  }

  /** Every commit the transaction machine can make is a step the delivery machine's theorems cover. */
  lemma CommitsAreSavesAndRollbacks(
      cfg: Delivery.Config, re: Schema.Regex, strict: bool, s: State, t: Tid, s': State, env: EnvId, d: Delivery.State)
    requires Inv(re, strict, s) && LoggedRowsExist(s.db, s.log) && Seen(s, env, d) && d.history != []
    requires Commits(re, strict, s, t, s')
    ensures var d' := Followed(cfg, d, s.txs[t], env);
            d'.Some? && Seen(s', env, d'.value) && LoggedRowsExist(s'.db, s'.log)
  {
    hide Inv, Next, Seen, LoggedRowsExist, Followed;
    if s.txs[t].Put? {
      PutIsSave(cfg, re, strict, s, t, s', env, d);
    } else {
      OthersAreRollbacks(cfg, re, strict, s, t, s', env, d);
    }
  }
}
