/** The members of one organization and the guard that keeps it from losing its last owner. */
module Owners {
  import opened Json

  datatype User = User(id: int)

  datatype Role = Viewer | Editor | Admin | Owner

  type Members = map<User, Role>

  function OwnersOf(m: Members): set<User> {
    set u | u in m && m[u] == Owner
  }

  datatype Op = SetRole(role: Role) | Remove | Add(role: Role)

  /** The change could take an owner away. */
  predicate Demotes(op: Op) {
    match op case SetRole(r) => r != Owner case Remove => true case Add(_) => false
  }

  /** The change could make someone an owner. */
  predicate Promotes(op: Op) {
    match op case SetRole(r) => r == Owner case Remove => false case Add(r) => r == Owner
  }

  function Changed(m: Members, op: Op, target: User): Members {
    match op
    case SetRole(r) => m[target := r]
    case Remove => m - {target}
    case Add(r) => m[target := r]
  }

  datatype Refusal = NotFound | LastOwner

  /** The two handlers, run alone: refused for a stranger, and for the last owner. */
  function Handled(m: Members, op: Op, target: User): (Members, Option<Refusal>)
    requires !op.Add?
  {
    if target !in m then (m, Some(NotFound))
    else if Demotes(op) && OwnersOf(m) == {target} then (m, Some(LastOwner))
    else (Changed(m, op, target), None)
  }

  /** Run alone, the handlers refuse no more than they must: exactly the changes that would leave no owner. */
  lemma GuardIsExact(m: Members, op: Op, target: User)
    requires !op.Add? && target in m && OwnersOf(m) != {}
    ensures Handled(m, op, target).1 == Some(LastOwner) <==> OwnersOf(Changed(m, op, target)) == {}
    ensures OwnersOf(Handled(m, op, target).0) != {}
  {
    var u :| u in OwnersOf(m);
    var m' := Changed(m, op, target);
    if Demotes(op) {
      assert OwnersOf(m') == OwnersOf(m) - {target};
    } else {
      assert target in OwnersOf(m');
    }
    if OwnersOf(m') == {} { assert OwnersOf(m) == {target}; }
  }

  /**
   * The handlers in full: a stranger is not found; the last owner is neither removed nor given
   * another role; otherwise a removed member is gone, one whose role is set has it, and no one
   * else is touched.
   */
  lemma HandledExactly(m: Members, op: Op, target: User)
    requires !op.Add?
    ensures var (m', refused) := Handled(m, op, target);
            && (refused == Some(NotFound) <==> target !in m)
            && (refused == Some(LastOwner)
                <==> && target in m && op != SetRole(Owner)
                     && forall u :: u in m ==> (m[u] == Owner <==> u == target))
            && (refused.Some? ==> m' == m)
            && (refused.None? ==> m' == if op.Remove? then m - {target} else m[target := op.role])
  {
    if target in m {
      assert OwnersOf(m) == {target} <==> forall u :: u in m ==> (m[u] == Owner <==> u == target) by {
        if forall u :: u in m ==> (m[u] == Owner <==> u == target) {
          assert OwnersOf(m) == {target};
        } else {
          var u :| u in m && !(m[u] == Owner <==> u == target);
          assert u in OwnersOf(m) <==> u !in {target};
        }
      }
    }
  }

  class Organization {
    var members: Members

    constructor (members: Members)
      ensures this.members == members
    {
      this.members := members;
    }

    /** Counts the locked owner rows one by one. */
    method CountOwnersForUpdate() returns (n: nat)
      ensures n == |OwnersOf(members)|
    {
      var rows := OwnersOf(members);
      n := 0;
      while rows != {}
        invariant n + |rows| == |OwnersOf(members)|
        decreases |rows|
      {
        var u :| u in rows;
        rows := rows - {u};
        n := n + 1;
      }
    }

    /** handleUpdateMemberRole and handleRemoveMember, each one transaction. */
    method Handle(op: Op, target: User) returns (refused: Option<Refusal>)
      requires !op.Add?
      modifies this
      ensures (members, refused) == Handled(old(members), op, target)
      ensures refused == Some(NotFound) <==> target !in old(members)
      ensures refused == Some(LastOwner)
              <==> && target in old(members) && op != SetRole(Owner)
                   && forall u :: u in old(members) ==> (old(members)[u] == Owner <==> u == target)
      ensures refused.Some? ==> members == old(members)
      ensures refused.None? ==>
                members == if op.Remove? then old(members) - {target} else old(members)[target := op.role]
    {
      HandledExactly(members, op, target);
      if target !in members {
        return Some(NotFound);
      }
      if members[target] == Owner && Demotes(op) {
        var n := CountOwnersForUpdate();
        OneMeansTarget(members, target);
        if n <= 1 {
          return Some(LastOwner);
        }
      }
      members := Changed(members, op, target);
      return None;
    }
  }

  lemma OneMeansTarget(m: Members, target: User)
    requires target in OwnersOf(m)
    ensures |OwnersOf(m)| <= 1 <==> OwnersOf(m) == {target}
  {
    if |OwnersOf(m)| <= 1 {
      assert |OwnersOf(m) - {target}| == 0;
    }
  }
}

/** The same handlers as concurrent transactions under READ COMMITTED with row locks. */
module OwnerRuns {
  import opened Json
  import opened Owners

  datatype Tid = Tid(id: int)

  /**
   * Begun; role read, no guard needed; role read as owner; owner rows being locked, todo of them
   * still to come; guard passed with these rows locked; row written.
   */
  datatype Pc =
    | Begun | Unguarded | SawOwner
    | Counting(todo: set<User>, locked: set<User>) | Guarded(locked: set<User>)
    | WroteUnguarded | WroteGuarded(locked: set<User>)

  datatype Tx = Tx(op: Op, target: User, pc: Pc)

  /** members is what is committed. */
  datatype State = State(members: Members, locks: map<User, Tid>, txs: map<Tid, Tx>)

  datatype Step = Begin(t: Tid, op: Op, target: User) | Advance(t: Tid, row: User) | Abort(t: Tid) | Commit(t: Tid)

  predicate Free(s: State, t: Tid, u: User) {
    u !in s.locks || s.locks[u] == t
  }

  function Moved(s: State, t: Tid, pc: Pc): State
    requires t in s.txs
  {
    s.(txs := s.txs[t := s.txs[t].(pc := pc)])
  }

  /** UPDATE, DELETE or INSERT: waits for the row, then finds it there, or for an insert not there. */
  function Write(s: State, t: Tid, pc: Pc): Option<State>
    requires t in s.txs
  {
    var tx := s.txs[t];
    if !Free(s, t, tx.target) || (tx.op.Add? <==> tx.target in s.members) then None
    else Some(Moved(s, t, pc).(locks := s.locks[tx.target := t]))
  }

  /** The next statement, or the next row the locking SELECT comes to. */
  function Advanced(s: State, t: Tid, row: User): Option<State>
    requires t in s.txs
  {
    var tx := s.txs[t];
    match tx.pc
    case Begun =>
      if tx.op.Add? then Some(Moved(s, t, Unguarded))
      else if tx.target !in s.members then None
      else if s.members[tx.target] == Owner && Demotes(tx.op) then Some(Moved(s, t, SawOwner))
      else Some(Moved(s, t, Unguarded))
    case SawOwner => Some(Moved(s, t, Counting(OwnersOf(s.members), {})))
    case Counting(todo, locked) =>
      if todo == {} then (if |locked| <= 1 then None else Some(Moved(s, t, Guarded(locked))))
      else if row !in todo || !Free(s, t, row) then None
      else if row in OwnersOf(s.members) then
        // Re-evaluated on the row as it is now: still an owner, so locked and counted.
        Some(Moved(s, t, Counting(todo - {row}, locked + {row})).(locks := s.locks[row := t]))
      else Some(Moved(s, t, Counting(todo - {row}, locked)))
    case Unguarded => Write(s, t, WroteUnguarded)
    case Guarded(locked) => Write(s, t, WroteGuarded(locked))
    case _ => None
  }

  function Gone(s: State, t: Tid): State {
    s.(txs := s.txs - {t}, locks := map u | u in s.locks && s.locks[u] != t :: s.locks[u])
  }

  predicate Wrote(pc: Pc) {
    pc.WroteUnguarded? || pc.WroteGuarded?
  }

  /** A demotion on its way that read its target as no owner, and so never counted. */
  predicate BlindDemotion(tx: Tx, target: User) {
    tx.target == target && Demotes(tx.op) && (tx.pc.Unguarded? || tx.pc.WroteUnguarded?)
  }

  /** No such demotion is under way for the member t would make an owner. */
  predicate NoRace(s: State, t: Tid)
    requires t in s.txs
  {
    forall u :: u in s.txs && u != t ==> !BlindDemotion(s.txs[u], s.txs[t].target)
  }

  /** With strict set, a promotion only commits when no blind demotion of the same member is under way. */
  function Next(strict: bool, s: State, step: Step): Option<State> {
    match step
    case Begin(t, op, target) =>
      if t in s.txs then None else Some(s.(txs := s.txs[t := Tx(op, target, Begun)]))
    case Advance(t, row) => if t in s.txs then Advanced(s, t, row) else None
    case Abort(t) => if t in s.txs then Some(Gone(s, t)) else None
    case Commit(t) =>
      if t !in s.txs || !Wrote(s.txs[t].pc) then None
      else if strict && Promotes(s.txs[t].op) && !NoRace(s, t) then None
      else Some(Gone(s, t).(members := Changed(s.members, s.txs[t].op, s.txs[t].target)))
  }

  function Exec(strict: bool, s: State, steps: seq<Step>): Option<State>
    decreases |steps|
  {
    if steps == [] then Some(s)
    else
      var n := Next(strict, s, steps[0]);
      if n.None? then None else Exec(strict, n.value, steps[1..])
  }

  // ---------------------------------------------------------------- the invariant

  function LockedBy(pc: Pc): set<User> {
    match pc
    case Counting(_, locked) => locked
    case Guarded(locked) => locked
    case WroteGuarded(locked) => locked
    case _ => {}
  }

  ghost predicate TxOk(s: State, t: Tid)
    requires t in s.txs
  {
    var tx := s.txs[t];
    && (forall u :: u in LockedBy(tx.pc) ==> u in OwnersOf(s.members) && u in s.locks && s.locks[u] == t)
    && (tx.pc.Guarded? || tx.pc.WroteGuarded? ==> |LockedBy(tx.pc)| >= 2 && Demotes(tx.op))
    && (tx.pc.SawOwner? || tx.pc.Counting? ==> Demotes(tx.op))
    && (BlindDemotion(tx, tx.target) ==> tx.target !in OwnersOf(s.members))
    && (Wrote(tx.pc) ==>
          && tx.target in s.locks && s.locks[tx.target] == t
          && (tx.op.Add? <==> tx.target !in s.members))
  }

  /** The transaction has locked the row: counted it, or written it. */
  predicate Holds(tx: Tx, u: User) {
    u in LockedBy(tx.pc) || (Wrote(tx.pc) && tx.target == u)
  }

  /** No lock outlives its transaction, nor is taken before its row is. */
  ghost predicate LocksHeld(s: State) {
    forall u :: u in s.locks ==> s.locks[u] in s.txs && Holds(s.txs[s.locks[u]], u)
  }

  ghost predicate Inv(s: State) {
    && OwnersOf(s.members) != {}
    && LocksHeld(s)
    && forall t :: t in s.txs ==> TxOk(s, t)
  }

  /** One transaction moves, taking at most one row that is free for it. */
  ghost predicate Moves(s: State, s': State, t: Tid)
    requires t in s.txs
  {
    && s'.members == s.members && t in s'.txs && s'.txs == s.txs[t := s'.txs[t]]
    && (s'.locks == s.locks || exists r :: Free(s, t, r) && s'.locks == s.locks[r := t] && Holds(s'.txs[t], r))
    && (forall u :: Holds(s.txs[t], u) ==> Holds(s'.txs[t], u))
  }

  lemma MovesKeepsLocks(s: State, s': State, t: Tid)
    requires t in s.txs && Moves(s, s', t) && LocksHeld(s)
    ensures LocksHeld(s')
  {
    hide Holds;
  }

  lemma GoneKeepsLocks(s: State, t: Tid, members: Members)
    requires t in s.txs && LocksHeld(s)
    ensures LocksHeld(Gone(s, t).(members := members))
  {
    hide Holds;
  }

  lemma OthersUnmoved(s: State, s': State, t: Tid, u: Tid)
    requires t in s.txs && u in s.txs && u != t && TxOk(s, u) && Moves(s, s', t)
    ensures u in s'.txs && TxOk(s', u)
  {
  }

  /** FOR UPDATE gets to one more row of its snapshot, which still is an owner's: locked and counted. */
  lemma CountsOwner(s: State, t: Tid, row: User)
    requires t in s.txs && TxOk(s, t) && s.txs[t].pc.Counting? && row in s.txs[t].pc.todo
    requires row in OwnersOf(s.members) && Free(s, t, row)
    ensures var pc := s.txs[t].pc;
            var s' := Moved(s, t, Counting(pc.todo - {row}, pc.locked + {row})).(locks := s.locks[row := t]);
            Moves(s, s', t) && TxOk(s', t)
  {
    hide OwnersOf;
    var pc := s.txs[t].pc;
    var s' := Moved(s, t, Counting(pc.todo - {row}, pc.locked + {row})).(locks := s.locks[row := t]);
    assert Free(s, t, row) && s'.locks == s.locks[row := t] && Holds(s'.txs[t], row);
  }

  lemma CountingMoves(s: State, t: Tid, row: User)
    requires t in s.txs && TxOk(s, t) && s.txs[t].pc.Counting? && Advanced(s, t, row).Some?
    ensures Moves(s, Advanced(s, t, row).value, t)
    ensures TxOk(Advanced(s, t, row).value, t)
  {
    hide OwnersOf;
    if s.txs[t].pc.todo != {} && row in OwnersOf(s.members) {
      hide Moves, TxOk;
      CountsOwner(s, t, row);
    }
  }

  lemma AdvanceMoves(s: State, t: Tid, row: User)
    requires t in s.txs && TxOk(s, t) && Advanced(s, t, row).Some?
    ensures Moves(s, Advanced(s, t, row).value, t)
    ensures TxOk(Advanced(s, t, row).value, t)
  {
    var s' := Advanced(s, t, row).value;
    match s.txs[t].pc
    case Counting(_, _) => CountingMoves(s, t, row);
    case Unguarded => assert Free(s, t, s.txs[t].target) && s'.locks == s.locks[s.txs[t].target := t];
    case Guarded(_) => assert Free(s, t, s.txs[t].target) && s'.locks == s.locks[s.txs[t].target := t];
    case _ =>
  }

  lemma AdvanceKeeps(s: State, t: Tid, row: User)
    requires Inv(s) && t in s.txs && Advanced(s, t, row).Some?
    ensures Inv(Advanced(s, t, row).value)
  {
    hide TxOk, Advanced, Moves, LocksHeld;
    var s' := Advanced(s, t, row).value;
    AdvanceMoves(s, t, row);
    MovesKeepsLocks(s, s', t);
    assert s'.members == s.members && s'.txs.Keys == s.txs.Keys by { MovesKeepsKeys(s, s', t); }
    forall u | u in s'.txs ensures TxOk(s', u) {
      if u != t { OthersUnmoved(s, s', t, u); }
    }
  }

  lemma MovesKeepsKeys(s: State, s': State, t: Tid)
    requires t in s.txs && Moves(s, s', t)
    ensures s'.members == s.members && s'.txs.Keys == s.txs.Keys
  {
    assert s'.txs.Keys == s.txs.Keys + {t};
  }

  lemma GoneKeeps(s: State, t: Tid, u: Tid)
    requires t in s.txs && u in s.txs && u != t && TxOk(s, u)
    ensures TxOk(Gone(s, t), u)
  {
  }

  /** The rows another transaction has counted are locked, so they are not the one that changes. */
  lemma CommitKeepsOthers(s: State, t: Tid, u: Tid)
    requires t in s.txs && Wrote(s.txs[t].pc) && TxOk(s, t) && u in s.txs && u != t && TxOk(s, u)
    requires Promotes(s.txs[t].op) ==> NoRace(s, t)
    ensures TxOk(Gone(s, t).(members := Changed(s.members, s.txs[t].op, s.txs[t].target)), u)
  {
    GoneKeeps(s, t, u);
    var m' := Changed(s.members, s.txs[t].op, s.txs[t].target);
    forall v | v != s.txs[t].target ensures v in OwnersOf(m') <==> v in OwnersOf(s.members) {}
    if BlindDemotion(s.txs[u], s.txs[t].target) {
      assert !Promotes(s.txs[t].op);
    }
  }

  lemma SomeoneElse(locked: set<User>, target: User) returns (u: User)
    requires |locked| >= 2
    ensures u in locked && u != target
  {
    if locked <= {target} {
      Cardinality(locked, {target});
    }
    u :| u in locked && u != target;
  }

  lemma {:induction false} Cardinality(a: set<User>, b: set<User>)
    requires a <= b
    ensures |a| <= |b|
  {
    assert |b - a| == |b| - |a|;
  }

  lemma CommitKeepsOwner(s: State, t: Tid)
    requires Inv(s) && t in s.txs && Wrote(s.txs[t].pc)
    ensures OwnersOf(Changed(s.members, s.txs[t].op, s.txs[t].target)) != {}
  {
    assert TxOk(s, t);
    var tx := s.txs[t];
    var m' := Changed(s.members, tx.op, tx.target);
    if tx.pc.WroteGuarded? {
      var u := SomeoneElse(tx.pc.locked, tx.target);
      assert u in OwnersOf(m');
    } else {
      var u :| u in OwnersOf(s.members);
      assert u in OwnersOf(m') || tx.target in OwnersOf(m');
    }
  }

  lemma CommitKeeps(s: State, t: Tid)
    requires Inv(s) && Next(true, s, Commit(t)).Some?
    ensures Inv(Next(true, s, Commit(t)).value)
  {
    hide TxOk, NoRace, LocksHeld;
    var s' := Next(true, s, Commit(t)).value;
    CommitKeepsOwner(s, t);
    GoneKeepsLocks(s, t, s'.members);
    forall u | u in s'.txs ensures TxOk(s', u) {
      CommitKeepsOthers(s, t, u);
    }
  }

  lemma StepKeeps(s: State, step: Step)
    requires Inv(s) && Next(true, s, step).Some?
    ensures Inv(Next(true, s, step).value)
  {
    var s' := Next(true, s, step).value;
    match step
    case Begin(t, _, _) => forall u | u in s.txs ensures TxOk(s', u) { assert TxOk(s, u); }
    case Advance(t, row) => AdvanceKeeps(s, t, row);
    case Abort(t) =>
      GoneKeepsLocks(s, t, s.members);
      forall u | u in s'.txs ensures TxOk(s', u) { GoneKeeps(s, t, u); }
    case Commit(t) => CommitKeeps(s, t);
  }

  lemma {:induction false} ExecKeeps(s: State, steps: seq<Step>)
    requires Inv(s) && Exec(true, s, steps).Some?
    ensures Inv(Exec(true, s, steps).value)
    decreases |steps|
  {
    hide Inv, Next;
    if steps != [] {
      StepKeeps(s, steps[0]);
      ExecKeeps(Next(true, s, steps[0]).value, steps[1..]);
    }
  }

  // ---------------------------------------------------------------- the guarantee

  function Start(members: Members): State {
    State(members, map[], map[])
  }

  /**
   * The last-owner guard under concurrency: however many demotions, removals, additions and
   * promotions interleave, an organization that had an owner has one in every committed state -
   * as long as no promotion commits while a demotion of the same member, read as no owner, is
   * under way.
   */
  lemma AlwaysAnOwner(members: Members, steps: seq<Step>, s: State)
    requires OwnersOf(members) != {} && Exec(true, Start(members), steps) == Some(s)
    ensures OwnersOf(s.members) != {}
  {
    ExecKeeps(Start(members), steps);
  }

  predicate NoPromotions(steps: seq<Step>) {
    forall i :: 0 <= i < |steps| ==> !(steps[i].Begin? && Promotes(steps[i].op))
  }

  lemma {:induction false} NoPromotionsIsStrict(s: State, steps: seq<Step>)
    requires NoPromotions(steps) && Exec(false, s, steps).Some?
    requires forall t :: t in s.txs ==> !Promotes(s.txs[t].op)
    ensures Exec(true, s, steps) == Exec(false, s, steps)
    decreases |steps|
  {
    if steps != [] {
      assert !(steps[0].Begin? && Promotes(steps[0].op));
      var n := Next(false, s, steps[0]).value;
      assert forall i :: 0 <= i < |steps[1..]| ==> steps[1..][i] == steps[i + 1];
      NoPromotionsIsStrict(n, steps[1..]);
    }
  }

  /** In particular no number of concurrent demotions and removals takes the last owner. */
  lemma AlwaysAnOwnerWithoutPromotions(members: Members, steps: seq<Step>, s: State)
    requires OwnersOf(members) != {} && NoPromotions(steps) && Exec(false, Start(members), steps) == Some(s)
    ensures OwnersOf(s.members) != {}
  {
    NoPromotionsIsStrict(Start(members), steps);
    AlwaysAnOwner(members, steps, s);
  }

  /**
   * What a commit does to the members, whatever it raced: the one it is about is added, has the new
   * role, or is gone, and no one else is touched.
   */
  lemma CommitChanges(strict: bool, s: State, t: Tid, s': State)
    requires Inv(s) && Next(strict, s, Commit(t)) == Some(s')
    ensures var op, target := s.txs[t].op, s.txs[t].target;
            && (op.Add? <==> target !in s.members)
            && s'.members == (match op
                              case Remove => map u | u in s.members && u != target :: s.members[u]
                              case SetRole(r) => s.members[target := r]
                              case Add(r) => s.members[target := r])
  {
    assert TxOk(s, t);
  }

  // ---------------------------------------------------------------- building runs

  lemma {:induction false} ExecConcat(strict: bool, s: State, a: seq<Step>, m: State, b: seq<Step>)
    requires Exec(strict, s, a) == Some(m)
    ensures Exec(strict, s, a + b) == Exec(strict, m, b)
    decreases |a|
  {
    hide Next;
    if a == [] {
      assert a + b == b;
    } else {
      assert (a + b)[1..] == a[1..] + b;
      ExecConcat(strict, Next(strict, s, a[0]).value, a[1..], m, b);
    }
  }

  lemma Then(strict: bool, s: State, run: seq<Step>, m: State, step: Step, n: State) returns (run': seq<Step>)
    requires Exec(strict, s, run) == Some(m) && Next(strict, m, step) == Some(n)
    ensures Exec(strict, s, run') == Some(n)
    ensures NoPromotions(run) && !(step.Begin? && Promotes(step.op)) ==> NoPromotions(run')
  {
    hide Next;
    run' := run + [step];
    assert [step][0] == step && [step][1..] == [];
    assert Exec(strict, m, [step]) == Some(n);
    ExecConcat(strict, s, run, m, [step]);
  }

  lemma Joined(strict: bool, s: State, a: seq<Step>, m: State, b: seq<Step>, n: State) returns (run: seq<Step>)
    requires Exec(strict, s, a) == Some(m) && Exec(strict, m, b) == Some(n)
    ensures Exec(strict, s, run) == Some(n)
    ensures NoPromotions(a) && NoPromotions(b) ==> NoPromotions(run)
  {
    run := a + b;
    ExecConcat(strict, s, a, m, b);
  }
}

/** One handler alone: the machine lets it through exactly when the handler refuses nothing. */
module OwnersAlone {
  import opened Json
  import opened Owners
  import opened OwnerRuns

  const W := Tid(0)

  /** Nothing is under way but one change, which has come to pc. */
  function Solo(m: Members, op: Op, target: User, pc: Pc): State {
    State(m, map r | r in Locks(pc, target) :: W, map[W := Tx(op, target, pc)])
  }

  function Locks(pc: Pc, target: User): set<User> {
    if Wrote(pc) then LockedBy(pc) + {target} else LockedBy(pc)
  }

  predicate OnlyThis(steps: seq<Step>, op: Op, target: User) {
    forall i :: 0 <= i < |steps| ==>
      steps[i].t == W && (steps[i].Begin? ==> steps[i].op == op && steps[i].target == target)
  }

  /** A run of this change alone leads from members m to s. */
  predicate LeadsTo(m: Members, op: Op, target: User, run: seq<Step>, s: State) {
    Exec(true, Start(m), run) == Some(s) && OnlyThis(run, op, target)
  }

  lemma Go(m: Members, op: Op, target: User, run: seq<Step>, s: State, step: Step, s': State)
    returns (run': seq<Step>)
    requires LeadsTo(m, op, target, run, s) && Next(true, s, step) == Some(s') && OnlyThis([step], op, target)
    ensures LeadsTo(m, op, target, run', s')
  {
    hide Next;
    run' := run + [step];
    assert [step][0] == step && [step][1..] == [];
    assert Exec(true, s, [step]) == Some(s');
    ExecConcat(true, Start(m), run, s, [step]);
  }

  lemma Replaces(a: Tx, b: Tx)
    ensures map[W := a][W := b] == map[W := b]
  {
  }

  /** Add is not one of the two handlers: it waits for nothing but finds the member absent. */
  predicate GoesThrough(m: Members, op: Op, target: User) {
    if op.Add? then target !in m else Handled(m, op, target).1.None?
  }

  lemma LockOne(m: Members, op: Op, target: User, todo: set<User>, locked: set<User>, r: User)
    requires r in todo && r in OwnersOf(m)
    ensures Next(true, Solo(m, op, target, Counting(todo, locked)), Advance(W, r))
         == Some(Solo(m, op, target, Counting(todo - {r}, locked + {r})))
  {
    var s := Solo(m, op, target, Counting(todo, locked));
    Replaces(s.txs[W], s.txs[W].(pc := Counting(todo - {r}, locked + {r})));
    assert s.locks[r := W] == map q | q in locked + {r} :: W;
  }

  lemma {:induction false} LockAll(m: Members, op: Op, target: User, run: seq<Step>, todo: set<User>, locked: set<User>)
    returns (run': seq<Step>)
    requires todo <= OwnersOf(m)
    requires LeadsTo(m, op, target, run, Solo(m, op, target, Counting(todo, locked)))
    ensures LeadsTo(m, op, target, run', Solo(m, op, target, Counting({}, locked + todo)))
    decreases |todo|
  {
    hide LeadsTo, Solo;
    if r :| r in todo {
      LockOne(m, op, target, todo, locked, r);
      run' := Go(m, op, target, run, Solo(m, op, target, Counting(todo, locked)), Advance(W, r),
                 Solo(m, op, target, Counting(todo - {r}, locked + {r})));
      run' := LockAll(m, op, target, run', todo - {r}, locked + {r});
      assert locked + {r} + (todo - {r}) == locked + todo;
    } else {
      assert todo == {} && locked + todo == locked;
      run' := run;
    }
  }

  lemma Starts(m: Members, op: Op, target: User) returns (run: seq<Step>)
    ensures LeadsTo(m, op, target, run, Solo(m, op, target, Begun))
  {
    assert Solo(m, op, target, Begun).locks == map[];
    run := Go(m, op, target, [], Start(m), Begin(W, op, target), Solo(m, op, target, Begun));
  }

  /** From where it may write, it writes and commits. */
  lemma WritesAndCommits(m: Members, run: seq<Step>, op: Op, target: User, pc: Pc) returns (run': seq<Step>)
    requires LeadsTo(m, op, target, run, Solo(m, op, target, pc))
    requires pc.Unguarded? || (pc.Guarded? && target in pc.locked)
    requires op.Add? <==> target !in m
    ensures LeadsTo(m, op, target, run', Start(Changed(m, op, target)))
  {
    hide LeadsTo;
    var s := Solo(m, op, target, pc);
    var wrote := Solo(m, op, target, if pc.Unguarded? then WroteUnguarded else WroteGuarded(pc.locked));
    Replaces(s.txs[W], wrote.txs[W]);
    assert s.locks[target := W] == wrote.locks;
    run' := Go(m, op, target, run, s, Advance(W, target), wrote);
    assert Gone(wrote, W).locks == map[] && Gone(wrote, W).txs == map[];
    run' := Go(m, op, target, run', wrote, Commit(W), Start(Changed(m, op, target)));
  }

  lemma ThroughTheGuard(m: Members, op: Op, target: User) returns (run: seq<Step>)
    requires Demotes(op) && target in OwnersOf(m) && |OwnersOf(m)| >= 2
    ensures LeadsTo(m, op, target, run, Solo(m, op, target, Guarded(OwnersOf(m))))
  {
    hide LeadsTo;
    var owners := OwnersOf(m);
    run := Starts(m, op, target);
    var s0, s1 := Solo(m, op, target, Begun), Solo(m, op, target, SawOwner);
    var s2, s3 := Solo(m, op, target, Counting(owners, {})), Solo(m, op, target, Counting({}, owners));
    assert s0.locks == map[] && s1.locks == map[] && s2.locks == map[];
    Replaces(s0.txs[W], s1.txs[W]);
    run := Go(m, op, target, run, s0, Advance(W, target), s1);
    Replaces(s1.txs[W], s2.txs[W]);
    run := Go(m, op, target, run, s1, Advance(W, target), s2);
    run := LockAll(m, op, target, run, owners, {});
    assert {} + owners == owners;
    Replaces(s3.txs[W], s3.txs[W].(pc := Guarded(owners)));
    run := Go(m, op, target, run, s3, Advance(W, target), Solo(m, op, target, Guarded(owners)));
  }

  lemma PastTheGuard(m: Members, op: Op, target: User) returns (run: seq<Step>)
    requires op.Add? || (target in m && !(Demotes(op) && m[target] == Owner))
    ensures LeadsTo(m, op, target, run, Solo(m, op, target, Unguarded))
  {
    hide LeadsTo;
    run := Starts(m, op, target);
    var s0, s1 := Solo(m, op, target, Begun), Solo(m, op, target, Unguarded);
    assert s0.locks == map[] && s1.locks == map[];
    Replaces(s0.txs[W], s1.txs[W]);
    run := Go(m, op, target, run, s0, Advance(W, target), s1);
  }

  lemma ThroughAlone(m: Members, op: Op, target: User) returns (run: seq<Step>)
    requires GoesThrough(m, op, target)
    ensures LeadsTo(m, op, target, run, Start(Changed(m, op, target)))
  {
    hide LeadsTo;
    if Demotes(op) && target in OwnersOf(m) {
      OneMeansTarget(m, target);
      run := ThroughTheGuard(m, op, target);
      run := WritesAndCommits(m, run, op, target, Guarded(OwnersOf(m)));
    } else {
      run := PastTheGuard(m, op, target);
      run := WritesAndCommits(m, run, op, target, Unguarded);
    }
  }

  /** Refused, it is stuck before it has written anything. */
  ghost predicate Stuck(m: Members, op: Op, target: User, s: State) {
    && s.members == m && (forall t :: t in s.txs ==> t == W && s.txs[t].op == op && s.txs[t].target == target)
    && (forall u :: u in s.locks ==> W in s.txs && s.locks[u] == W)
    && (W in s.txs ==>
          match s.txs[W].pc
          case Begun => true
          case SawOwner => OwnersOf(m) == {target}
          case Counting(todo, locked) => OwnersOf(m) == {target} && todo + locked <= {target}
          case Unguarded => op.Add?
          case _ => false)
  }

  lemma StepStaysStuck(m: Members, op: Op, target: User, s: State, step: Step)
    requires !GoesThrough(m, op, target) && Stuck(m, op, target, s) && Next(true, s, step).Some?
    requires step.t == W && (step.Begin? ==> step.op == op && step.target == target)
    ensures Stuck(m, op, target, Next(true, s, step).value)
  {
    if step.Advance? && s.txs[W].pc.Counting? && s.txs[W].pc.todo == {} {
      Cardinality(s.txs[W].pc.locked, {target});
    }
  }

  lemma {:induction false} RunStaysStuck(m: Members, op: Op, target: User, s: State, steps: seq<Step>)
    requires !GoesThrough(m, op, target) && Stuck(m, op, target, s) && OnlyThis(steps, op, target)
    requires Exec(true, s, steps).Some?
    ensures Stuck(m, op, target, Exec(true, s, steps).value)
    decreases |steps|
  {
    hide Stuck, Next, GoesThrough;
    if steps != [] {
      StepStaysStuck(m, op, target, s, steps[0]);
      forall i | 0 <= i < |steps[1..]| ensures steps[1..][i] == steps[i + 1] {}
      RunStaysStuck(m, op, target, Next(true, s, steps[0]).value, steps[1..]);
    }
  }

  /**
   * Exactly which changes get through alone, in statements: those that the handlers do not refuse,
   * with the effect they have there. The others leave the members as they were, however often tried.
   */
  lemma AloneExactly(m: Members, op: Op, target: User)
    ensures GoesThrough(m, op, target)
            ==> exists run :: LeadsTo(m, op, target, run, Start(Changed(m, op, target)))
    ensures !GoesThrough(m, op, target) ==> forall run, s :: LeadsTo(m, op, target, run, s) ==> s.members == m
  {
    if GoesThrough(m, op, target) {
      var run := ThroughAlone(m, op, target);
    } else {
      forall run, s | LeadsTo(m, op, target, run, s) ensures s.members == m {
        RunStaysStuck(m, op, target, Start(m), run);
      }
    }
  }
}

/** Which promotions are harmless: exactly those that race no demotion which skipped the guard. */
module OwnerPromotions {
  import opened Json
  import opened Owners
  import opened OwnerRuns

  /** One blind demotion is all that is under way. */
  function Alone(m: Members, u: Tid, tx: Tx): State {
    State(m, map[], map[u := tx])
  }

  lemma {:induction false} OthersAbort(s: State, u: Tid) returns (run: seq<Step>)
    requires LocksHeld(s) && u in s.txs && s.txs[u].pc.Unguarded?
    ensures Exec(true, s, run) == Some(Alone(s.members, u, s.txs[u])) && NoPromotions(run)
    decreases |s.txs.Keys|
  {
    if v :| v in s.txs && v != u {
      var s' := Gone(s, v);
      GoneKeepsLocks(s, v, s.members);
      assert s' == Gone(s, v).(members := s.members);
      assert s'.txs.Keys == s.txs.Keys - {v};
      var rest := OthersAbort(s', u);
      assert Next(true, s, Abort(v)) == Some(s');
      run := Then(true, s, [], s, Abort(v), s');
      run := Joined(true, s, run, s', rest, Alone(s.members, u, s.txs[u]));
    } else {
      run := [];
      assert s.txs.Keys == {u} && s.txs == map[u := s.txs[u]];
      NothingHeld(s, u);
    }
  }

  lemma NothingHeld(s: State, u: Tid)
    requires LocksHeld(s) && s.txs.Keys == {u} && s.txs[u].pc.Unguarded?
    ensures s.locks == map[]
  {
    assert s.locks.Keys == {};
  }

  /** Besides it, w steps v down, and has come to pc. */
  function SteppingDown(m: Members, u: Tid, tx: Tx, w: Tid, v: User, pc: Pc): State {
    State(m, map r | r in LockedBy(pc) :: w, map[u := tx][w := Tx(SetRole(Viewer), v, pc)])
  }

  lemma Replaces(u: Tid, tx: Tx, w: Tid, a: Tx, b: Tx)
    requires u != w
    ensures map[u := tx][w := a][w := b] == map[u := tx][w := b]
    ensures map[u := tx][w := a] - {w} == map[u := tx]
  {
  }

  lemma LockOne(m: Members, u: Tid, tx: Tx, w: Tid, v: User, todo: set<User>, locked: set<User>, r: User)
    requires u != w && r in todo && r in OwnersOf(m)
    ensures Next(true, SteppingDown(m, u, tx, w, v, Counting(todo, locked)), Advance(w, r))
         == Some(SteppingDown(m, u, tx, w, v, Counting(todo - {r}, locked + {r})))
  {
    var s := SteppingDown(m, u, tx, w, v, Counting(todo, locked));
    Replaces(u, tx, w, s.txs[w], s.txs[w].(pc := Counting(todo - {r}, locked + {r})));
    assert s.locks[r := w] == map q | q in locked + {r} :: w;
  }

  lemma {:induction false} LockAll(m: Members, u: Tid, tx: Tx, w: Tid, v: User, todo: set<User>, locked: set<User>)
    returns (run: seq<Step>)
    requires u != w && todo <= OwnersOf(m)
    ensures Exec(true, SteppingDown(m, u, tx, w, v, Counting(todo, locked)), run)
         == Some(SteppingDown(m, u, tx, w, v, Counting({}, locked + todo))) && NoPromotions(run)
    decreases |todo|
  {
    var s := SteppingDown(m, u, tx, w, v, Counting(todo, locked));
    if r :| r in todo {
      var s' := SteppingDown(m, u, tx, w, v, Counting(todo - {r}, locked + {r}));
      LockOne(m, u, tx, w, v, todo, locked, r);
      var rest := LockAll(m, u, tx, w, v, todo - {r}, locked + {r});
      assert locked + {r} + (todo - {r}) == locked + todo;
      run := Then(true, s, [], s, Advance(w, r), s');
      run := Joined(true, s, run, s', rest, SteppingDown(m, u, tx, w, v, Counting({}, locked + todo)));
    } else {
      assert todo == {} && locked + todo == locked;
      run := [];
    }
  }

  /** With two owners or more, any of them can be demoted through the guard. */
  lemma StepsDown(m: Members, u: Tid, tx: Tx, v: User) returns (run: seq<Step>)
    requires v in OwnersOf(m) && |OwnersOf(m)| >= 2
    ensures Exec(true, Alone(m, u, tx), run) == Some(Alone(m[v := Viewer], u, tx)) && NoPromotions(run)
  {
    var s, w, owners := Alone(m, u, tx), Tid(u.id + 1), OwnersOf(m);
    run := Asks(m, u, tx, w, v);
    var locking := LockAll(m, u, tx, w, v, owners, {});
    assert {} + owners == owners;
    run := Joined(true, s, run, SteppingDown(m, u, tx, w, v, Counting(owners, {})), locking,
                  SteppingDown(m, u, tx, w, v, Counting({}, owners)));
    var writing := Writes(m, u, tx, w, v, owners);
    run := Joined(true, s, run, SteppingDown(m, u, tx, w, v, Counting({}, owners)), writing,
                  Alone(m[v := Viewer], u, tx));
  }

  lemma Asks(m: Members, u: Tid, tx: Tx, w: Tid, v: User) returns (run: seq<Step>)
    requires v in OwnersOf(m) && u != w
    ensures Exec(true, Alone(m, u, tx), run) == Some(SteppingDown(m, u, tx, w, v, Counting(OwnersOf(m), {})))
    ensures NoPromotions(run)
  {
    var s := Alone(m, u, tx);
    var s0, s1 := SteppingDown(m, u, tx, w, v, Begun), SteppingDown(m, u, tx, w, v, SawOwner);
    assert s0.locks == map[] && s1.locks == map[];
    assert Next(true, s, Begin(w, SetRole(Viewer), v)) == Some(s0);
    run := Then(true, s, [], s, Begin(w, SetRole(Viewer), v), s0);
    Replaces(u, tx, w, s0.txs[w], s1.txs[w]);
    assert Next(true, s0, Advance(w, v)) == Some(s1);
    run := Then(true, s, run, s0, Advance(w, v), s1);
    var s2 := SteppingDown(m, u, tx, w, v, Counting(OwnersOf(m), {}));
    assert s2.locks == map[];
    Replaces(u, tx, w, s1.txs[w], s2.txs[w]);
    assert Next(true, s1, Advance(w, v)) == Some(s2);
    run := Then(true, s, run, s1, Advance(w, v), s2);
  }

  lemma Writes(m: Members, u: Tid, tx: Tx, w: Tid, v: User, owners: set<User>) returns (run: seq<Step>)
    requires u != w && v in owners && owners <= OwnersOf(m) && |owners| >= 2
    ensures Exec(true, SteppingDown(m, u, tx, w, v, Counting({}, owners)), run) == Some(Alone(m[v := Viewer], u, tx))
    ensures NoPromotions(run)
  {
    var s := SteppingDown(m, u, tx, w, v, Counting({}, owners));
    var s0, s1 := SteppingDown(m, u, tx, w, v, Guarded(owners)), SteppingDown(m, u, tx, w, v, WroteGuarded(owners));
    Replaces(u, tx, w, s.txs[w], s0.txs[w]);
    assert Next(true, s, Advance(w, v)) == Some(s0);
    run := Then(true, s, [], s, Advance(w, v), s0);
    Replaces(u, tx, w, s0.txs[w], s1.txs[w]);
    assert s0.locks[v := w] == s1.locks;
    assert Next(true, s0, Advance(w, v)) == Some(s1);
    run := Then(true, s, run, s0, Advance(w, v), s1);
    Replaces(u, tx, w, s1.txs[w], s1.txs[w]);
    assert Gone(s1, w).locks == map[];
    assert Next(true, s1, Commit(w)) == Some(Alone(m[v := Viewer], u, tx));
    run := Then(true, s, run, s1, Commit(w), Alone(m[v := Viewer], u, tx));
  }

  lemma {:induction false} AllButOneStepDown(m: Members, u: Tid, tx: Tx, target: User)
    returns (run: seq<Step>, m': Members)
    requires target in OwnersOf(m)
    ensures Exec(true, Alone(m, u, tx), run) == Some(Alone(m', u, tx)) && NoPromotions(run)
    ensures OwnersOf(m') == {target}
    decreases |OwnersOf(m)|
  {
    if v :| v in OwnersOf(m) && v != target {
      Cardinality({v, target}, OwnersOf(m));
      assert |{v, target}| == 2;
      var first := StepsDown(m, u, tx, v);
      assert OwnersOf(m[v := Viewer]) == OwnersOf(m) - {v};
      var rest;
      rest, m' := AllButOneStepDown(m[v := Viewer], u, tx, target);
      run := Joined(true, Alone(m, u, tx), first, Alone(m[v := Viewer], u, tx), rest, Alone(m', u, tx));
    } else {
      assert OwnersOf(m) == {target};
      run, m' := [], m;
    }
  }

  lemma DemotedIsNoOwner(m: Members, op: Op, target: User)
    requires Demotes(op)
    ensures OwnersOf(Changed(m, op, target)) == OwnersOf(m) - {target}
  {
    match op
    case SetRole(r) => assert target !in OwnersOf(m[target := r]);
    case Remove =>
  }

  /** The blind demotion lands: it waits for no one and counts no one. */
  lemma BlindLands(m: Members, u: Tid, tx: Tx) returns (run: seq<Step>, z: State)
    requires BlindDemotion(tx, tx.target) && tx.pc.Unguarded? && OwnersOf(m) == {tx.target}
    ensures Exec(true, Alone(m, u, tx), run) == Some(z) && NoPromotions(run) && OwnersOf(z.members) == {}
  {
    var s := Alone(m, u, tx);
    assert tx.target in OwnersOf(m);
    var wrote := State(m, map[tx.target := u], map[u := tx.(pc := WroteUnguarded)]);
    assert s.txs[u := tx.(pc := WroteUnguarded)] == wrote.txs;
    assert Next(true, s, Advance(u, tx.target)) == Some(wrote);
    run := Then(true, s, [], s, Advance(u, tx.target), wrote);
    z := Gone(wrote, u).(members := Changed(m, tx.op, tx.target));
    assert Next(true, wrote, Commit(u)) == Some(z);
    run := Then(true, s, run, wrote, Commit(u), z);
    DemotedIsNoOwner(m, tx.op, tx.target);
  }

  /**
   * A promotion that commits while a demotion of the same member has skipped the guard: with no
   * further promotion, the other owners can step down, each past the guard, and the demotion lands.
   */
  lemma RacingPromotionCanLoseAll(s: State, t: Tid) returns (run: seq<Step>, z: State)
    requires Inv(s) && t in s.txs && Wrote(s.txs[t].pc) && Promotes(s.txs[t].op) && !NoRace(s, t)
    ensures Next(false, s, Commit(t)).Some?
    ensures Exec(true, Next(false, s, Commit(t)).value, run) == Some(z) && NoPromotions(run)
    ensures OwnersOf(z.members) == {}
  {
    var u :| u in s.txs && u != t && BlindDemotion(s.txs[u], s.txs[t].target);
    var tx, s1 := s.txs[u], Next(false, s, Commit(t)).value;
    assert TxOk(s, t) && TxOk(s, u);
    assert tx.pc.Unguarded? && u in s1.txs && s1.txs[u] == tx && tx.target in OwnersOf(s1.members);
    GoneKeepsLocks(s, t, s1.members);
    hide *;
    run, z := Loses(s1, u, tx);
  }

  lemma Loses(s: State, u: Tid, tx: Tx) returns (run: seq<Step>, z: State)
    requires LocksHeld(s) && u in s.txs && s.txs[u] == tx
    requires BlindDemotion(tx, tx.target) && tx.pc.Unguarded? && tx.target in OwnersOf(s.members)
    ensures Exec(true, s, run) == Some(z) && NoPromotions(run) && OwnersOf(z.members) == {}
  {
    hide Exec, LocksHeld, NoPromotions;
    run := OthersAbort(s, u);
    var stepping, m := AllButOneStepDown(s.members, u, tx, tx.target);
    run := Joined(true, s, run, Alone(s.members, u, tx), stepping, Alone(m, u, tx));
    var landing;
    landing, z := BlindLands(m, u, tx);
    run := Joined(true, s, run, Alone(m, u, tx), landing, z);
  }

  /**
   * Exactly which promotions are harmless: however the run goes on after the commit, as long as
   * no other promotion races a blind demotion, an owner remains - if and only if this one raced none.
   */
  lemma HarmlessPromotions(s: State, t: Tid)
    requires Inv(s) && t in s.txs && Wrote(s.txs[t].pc) && Promotes(s.txs[t].op)
    ensures Next(false, s, Commit(t)).Some?
    ensures NoRace(s, t)
            <==> forall run, z :: Exec(true, Next(false, s, Commit(t)).value, run) == Some(z)
                                  ==> OwnersOf(z.members) != {}
  {
    var s1 := Next(false, s, Commit(t)).value;
    if NoRace(s, t) {
      assert Next(true, s, Commit(t)) == Some(s1);
      CommitKeeps(s, t);
      forall run, z | Exec(true, s1, run) == Some(z) ensures OwnersOf(z.members) != {} {
        ExecKeeps(s1, run);
      }
    } else {
      var run, z := RacingPromotionCanLoseAll(s, t);
    }
  }
}

/** What the guard does not stop: a promotion that lands inside someone else's demotion. */
module OwnerRace {
  import opened Json
  import opened Owners
  import opened OwnerRuns

  const ANN := User(1)
  const BOB := User(2)
  const T1 := Tid(1)
  const T2 := Tid(2)
  const T3 := Tid(3)
  const BLIND := Tx(SetRole(Viewer), BOB, Unguarded)
  const AT_FIRST: Members := map[ANN := Owner, BOB := Editor]
  const BOTH_OWN: Members := map[ANN := Owner, BOB := Owner]
  const BOB_OWNS: Members := map[ANN := Viewer, BOB := Owner]
  const NONE_OWNS: Members := map[ANN := Viewer, BOB := Viewer]

  lemma Go(run: seq<Step>, s: State, step: Step, s': State) returns (run': seq<Step>)
    requires Exec(false, Start(AT_FIRST), run) == Some(s) && Next(false, s, step) == Some(s')
    ensures Exec(false, Start(AT_FIRST), run') == Some(s')
  {
    run' := Then(false, Start(AT_FIRST), run, s, step, s');
  }

  /** Bob's demotion has read him as no owner; t is under way besides. */
  function During(m: Members, locks: map<User, Tid>, t: Tid, tx: Tx): State {
    State(m, locks, map[T1 := BLIND][t := tx])
  }

  function Waiting(m: Members): State {
    State(m, map[], map[T1 := BLIND])
  }

  lemma Replaces(t: Tid, a: Tx, b: Tx)
    requires t != T1
    ensures map[T1 := BLIND][t := a][t := b] == map[T1 := BLIND][t := b]
    ensures map[T1 := BLIND][t := a] - {t} == map[T1 := BLIND]
  {
  }

  lemma Read() returns (run: seq<Step>)
    ensures Exec(false, Start(AT_FIRST), run) == Some(Waiting(AT_FIRST))
  {
    var begun := State(AT_FIRST, map[], map[T1 := BLIND.(pc := Begun)]);
    run := Go([], Start(AT_FIRST), Begin(T1, SetRole(Viewer), BOB), begun);
    assert begun.txs[T1 := BLIND] == map[T1 := BLIND];
    run := Go(run, begun, Advance(T1, BOB), Waiting(AT_FIRST));
  }

  function Promotion(pc: Pc): Tx { Tx(SetRole(Owner), BOB, pc) }

  lemma Promoted() returns (run: seq<Step>)
    ensures Exec(false, Start(AT_FIRST), run) == Some(Waiting(BOTH_OWN))
  {
    run := Read();
    run := Go(run, Waiting(AT_FIRST), Begin(T2, SetRole(Owner), BOB), During(AT_FIRST, map[], T2, Promotion(Begun)));
    Replaces(T2, Promotion(Begun), Promotion(Unguarded));
    run := Go(run, During(AT_FIRST, map[], T2, Promotion(Begun)), Advance(T2, BOB),
              During(AT_FIRST, map[], T2, Promotion(Unguarded)));
    Replaces(T2, Promotion(Unguarded), Promotion(WroteUnguarded));
    var wrote := During(AT_FIRST, map[BOB := T2], T2, Promotion(WroteUnguarded));
    run := Go(run, During(AT_FIRST, map[], T2, Promotion(Unguarded)), Advance(T2, BOB), wrote);
    Replaces(T2, Promotion(WroteUnguarded), Promotion(WroteUnguarded));
    assert AT_FIRST[BOB := Owner] == BOTH_OWN;
    assert Gone(wrote, T2).locks == map[];
    run := Go(run, wrote, Commit(T2), Waiting(BOTH_OWN));
  }

  function Demotion(pc: Pc): Tx { Tx(SetRole(Viewer), ANN, pc) }

  /** Ann's demotion counts two owners, both locked. */
  lemma Counted() returns (run: seq<Step>)
    ensures Exec(false, Start(AT_FIRST), run)
         == Some(During(BOTH_OWN, map[ANN := T3, BOB := T3], T3, Demotion(Counting({}, {ANN, BOB}))))
  {
    run := Promoted();
    var pc0, pc1, pc2 := Counting({ANN, BOB}, {}), Counting({BOB}, {ANN}), Counting({}, {ANN, BOB});
    run := Go(run, Waiting(BOTH_OWN), Begin(T3, SetRole(Viewer), ANN), During(BOTH_OWN, map[], T3, Demotion(Begun)));
    Replaces(T3, Demotion(Begun), Demotion(SawOwner));
    run := Go(run, During(BOTH_OWN, map[], T3, Demotion(Begun)), Advance(T3, ANN),
              During(BOTH_OWN, map[], T3, Demotion(SawOwner)));
    Replaces(T3, Demotion(SawOwner), Demotion(pc0));
    assert OwnersOf(BOTH_OWN) == {ANN, BOB};
    run := Go(run, During(BOTH_OWN, map[], T3, Demotion(SawOwner)), Advance(T3, ANN),
              During(BOTH_OWN, map[], T3, Demotion(pc0)));
    Replaces(T3, Demotion(pc0), Demotion(pc1));
    assert {ANN, BOB} - {ANN} == {BOB} && {} + {ANN} == {ANN};
    run := Go(run, During(BOTH_OWN, map[], T3, Demotion(pc0)), Advance(T3, ANN),
              During(BOTH_OWN, map[ANN := T3], T3, Demotion(pc1)));
    Replaces(T3, Demotion(pc1), Demotion(pc2));
    assert {BOB} - {BOB} == {} && {ANN} + {BOB} == {ANN, BOB};
    run := Go(run, During(BOTH_OWN, map[ANN := T3], T3, Demotion(pc1)), Advance(T3, BOB),
              During(BOTH_OWN, map[ANN := T3, BOB := T3], T3, Demotion(pc2)));
  }

  const BOTH := {ANN, BOB}
  const LOCKS := map[ANN := T3, BOB := T3]

  lemma Written() returns (run: seq<Step>)
    ensures Exec(false, Start(AT_FIRST), run) == Some(During(BOTH_OWN, LOCKS, T3, Demotion(WroteGuarded(BOTH))))
  {
    run := Counted();
    Replaces(T3, Demotion(Counting({}, BOTH)), Demotion(Guarded(BOTH)));
    run := Go(run, During(BOTH_OWN, LOCKS, T3, Demotion(Counting({}, BOTH))), Advance(T3, ANN),
              During(BOTH_OWN, LOCKS, T3, Demotion(Guarded(BOTH))));
    Replaces(T3, Demotion(Guarded(BOTH)), Demotion(WroteGuarded(BOTH)));
    assert LOCKS[ANN := T3] == LOCKS;
    run := Go(run, During(BOTH_OWN, LOCKS, T3, Demotion(Guarded(BOTH))), Advance(T3, ANN),
              During(BOTH_OWN, LOCKS, T3, Demotion(WroteGuarded(BOTH))));
  }

  lemma Demoted() returns (run: seq<Step>)
    ensures Exec(false, Start(AT_FIRST), run) == Some(Waiting(BOB_OWNS))
  {
    run := Written();
    var wrote := During(BOTH_OWN, LOCKS, T3, Demotion(WroteGuarded(BOTH)));
    Replaces(T3, Demotion(WroteGuarded(BOTH)), Demotion(WroteGuarded(BOTH)));
    assert BOTH_OWN[ANN := Viewer] == BOB_OWNS;
    assert Gone(wrote, T3).locks == map[];
    run := Go(run, wrote, Commit(T3), Waiting(BOB_OWNS));
  }

  /**
   * With promotions about, the guard fails: Bob's demotion reads him as an editor, Bob is made an
   * owner, Ann steps down counting two owners, and Bob's demotion then lands uncounted.
   */
  lemma GuardMissesAPromotion() returns (run: seq<Step>, s: State)
    ensures OwnersOf(AT_FIRST) != {}
    ensures Exec(false, Start(AT_FIRST), run) == Some(s) && s.txs == map[] && OwnersOf(s.members) == {}
  {
    assert ANN in OwnersOf(AT_FIRST);
    run := Demoted();
    var wrote := State(BOB_OWNS, map[BOB := T1], map[T1 := BLIND.(pc := WroteUnguarded)]);
    assert map[T1 := BLIND][T1 := BLIND.(pc := WroteUnguarded)] == wrote.txs;
    run := Go(run, Waiting(BOB_OWNS), Advance(T1, BOB), wrote);
    s := State(NONE_OWNS, map[], map[]);
    assert Gone(wrote, T1).txs == map[] && Gone(wrote, T1).locks == map[];
    assert BOB_OWNS[BOB := Viewer] == NONE_OWNS;
    run := Go(run, wrote, Commit(T1), s);
  }
}
