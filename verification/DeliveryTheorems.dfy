/** The guarantees of live delivery, over every run of the delivery machine. */
module DeliveryTheorems {
  import opened Json
  import opened Targeting
  import opened Delta
  import opened StreamHandler
  import opened Client
  import opened Delivery
  import opened DeliveryProof
  import opened DeliveryCover

  ghost predicate Reachable(cfg: Config, steps: seq<Step>, s: State) {
    Exec(cfg, Init(), steps) == Some(s)
  }

  lemma {:induction false} ExecKeeps(cfg: Config, s: State, steps: seq<Step>)
    requires Sane(cfg, s) && Covered(s) && Exec(cfg, s, steps).Some?
    ensures Sane(cfg, Exec(cfg, s, steps).value) && Covered(Exec(cfg, s, steps).value)
    decreases |steps|
  {
    if steps != [] {
      StepKeepsSane(cfg, s, steps[0]);
      StepKeepsCovered(cfg, s, steps[0]);
      ExecKeeps(cfg, Next(cfg, s, steps[0]).value, steps[1..]);
    }
  }

  lemma ReachableIsSane(cfg: Config, steps: seq<Step>, s: State)
    requires Reachable(cfg, steps, s)
    ensures Sane(cfg, s) && Covered(s)
  {
    ExecKeeps(cfg, Init(), steps);
  }

  // ---------------------------------------------------------------- safety

  /**
   * End-to-end agreement. With atomically loaded snapshots, whatever was saved, rolled back,
   * dropped, replayed, polled or resynced and however it interleaved, the consumer holds exactly
   * what the store made current at the consumer's revision.
   */
  lemma Agreement(cfg: Config, steps: seq<Step>, s: State)
    requires cfg.atomicReads && Reachable(cfg, steps, s) && s.consumer.Running?
    ensures 0 <= s.consumer.current.revision <= Head(s)
    ensures Body(s.consumer.current) == s.history[s.consumer.current.revision]
  {
    ReachableIsSane(cfg, steps, s);
  }

  /**
   * With full frames only, even torn loads are harmless: the values always are those of the
   * consumer's revision or of one committed later.
   */
  lemma FullFramesAreNeverStale(cfg: Config, steps: seq<Step>, s: State)
    requires !cfg.deltas && Reachable(cfg, steps, s) && s.consumer.Running?
    ensures 0 <= s.consumer.current.revision
    ensures exists k :: s.consumer.current.revision <= k <= Head(s) && Body(s.consumer.current) == s.history[k]
  {
    ReachableIsSane(cfg, steps, s);
  }

  function Revision(s: State): int {
    if s.consumer.Running? then s.consumer.current.revision else 0
  }

  /** Once Ready has run, no step takes the consumer's revision back. */
  lemma {:induction false} RevisionNeverGoesBack(cfg: Config, s: State, steps: seq<Step>)
    requires s.consumer.Running? && Exec(cfg, s, steps).Some?
    ensures var s' := Exec(cfg, s, steps).value;
            s'.consumer.Running? && Revision(s) <= Revision(s')
    decreases |steps|
  {
    if steps != [] {
      var n := Next(cfg, s, steps[0]).value;
      assert n.consumer.Running? && Revision(s) <= Revision(n);
      RevisionNeverGoesBack(cfg, n, steps[1..]);
    }
  }

  /** Nothing on its way to a live connection any more. Polls may still be out. */
  ghost predicate Quiet(s: State) {
    && s.conn.Conn? && s.conn.phase.Live? && s.conn.queue == [] && s.conn.wire == []
    && s.notifies == 0 && s.listener.None?
    && s.consumer.Running? && s.consumer.applying.None?
    && (forall f :: f in s.fetches ==> !f.resync)
  }

  /**
   * No lost update: when nothing is in flight and nothing failed since the connection subscribed,
   * the consumer is at the environment's delivery revision - with deltas or without, torn loads
   * or not.
   */
  lemma NoLostUpdate(cfg: Config, steps: seq<Step>, s: State)
    requires Reachable(cfg, steps, s) && Quiet(s) && s.healthy
    ensures s.consumer.current.revision == Head(s)
  {
    ReachableIsSane(cfg, steps, s);
  }

  /**
   * So a quiet consumer holds exactly the current values, unless it takes deltas made from torn
   * loads.
   */
  lemma QuietConsumerIsCurrent(cfg: Config, steps: seq<Step>, s: State)
    requires cfg.atomicReads || !cfg.deltas
    requires Reachable(cfg, steps, s) && Quiet(s) && s.healthy
    ensures s.history != [] && Body(s.consumer.current) == s.history[Head(s)]
  {
    NoLostUpdate(cfg, steps, s);
    if cfg.atomicReads {
      Agreement(cfg, steps, s);
    } else {
      FullFramesAreNeverStale(cfg, steps, s);
    }
  }

  /** How many of the steps commit. */
  function Commits(steps: seq<Step>): nat
    decreases |steps|
  {
    if steps == [] then 0
    else (if steps[0].Save? || steps[0].Rollback? then 1 else 0) + Commits(steps[1..])
  }

  lemma {:induction false} HistoryOnlyGrows(cfg: Config, s: State, steps: seq<Step>)
    requires Exec(cfg, s, steps).Some?
    ensures var s' := Exec(cfg, s, steps).value;
            && s.history <= s'.history && s.versions <= s'.versions
            && |s'.history| == |s.history| + Commits(steps)
    decreases |steps|
  {
    if steps != [] {
      var n := Next(cfg, s, steps[0]).value;
      assert s.history <= n.history && s.versions <= n.versions;
      HistoryOnlyGrows(cfg, n, steps[1..]);
    }
  }

  /**
   * Every committed save or rollback raises the delivery revision by one and nothing else does;
   * what a revision made current never changes, and is always a saved version.
   */
  lemma RevisionCountsCommits(cfg: Config, before: seq<Step>, s: State, after: seq<Step>, s': State)
    requires Reachable(cfg, before, s) && Exec(cfg, s, after) == Some(s')
    ensures Head(s') == Head(s) + Commits(after) && Head(s) == Commits(before)
    ensures forall r :: 0 <= r <= Head(s) ==> s'.history[r] == s.history[r]
    ensures forall r :: 1 <= r <= Head(s') ==> IsVersion(s'.versions, s'.history[r])
  {
    HistoryOnlyGrows(cfg, Init(), before);
    HistoryOnlyGrows(cfg, s, after);
    ReachableIsSane(cfg, before, s);
    ExecKeeps(cfg, s, after);
  }

  // ---------------------------------------------------------------- eventual delivery

  /** The steps the system takes by itself when no one commits, polls, disconnects or fails. */
  predicate Internal(step: Step) {
    match step
    case TakeNotify => true
    case ListenerStep(_) => true
    case Publish(_) => true
    case Connect => true
    case Subscribe => true
    case InitRev => true
    case InitRow(_) => true
    case Pump => true
    case Receive => true
    case FinishApply => true
    case FetchStep(_, _) => true
    case _ => false
  }

  function LoadWork(l: Load): nat {
    match l case Wanted => 3 case HasRev(_) => 2 case _ => 1
  }

  function FetchWork(fetches: seq<Fetch>): nat {
    if fetches == [] then 0 else FetchWork(fetches[..|fetches| - 1]) + LoadWork(fetches[|fetches| - 1].load)
  }

  function ConnWork(c: Conn): nat {
    if c.NoConn? then 9
    else
      (match c.phase case Opening => 8 case Subscribed => 7 case Gating(_) => 6 case Live => 0)
      + 6 * |c.queue| + 5 * |c.wire|
  }

  /** A bound on the internal steps still to be taken. */
  function Work(s: State): nat {
    10 * s.notifies + (if s.listener.None? then 0 else 6 + LoadWork(s.listener.value))
    + ConnWork(s.conn) + FetchWork(s.fetches)
    + (if s.consumer.Running? && s.consumer.applying.Some? then 1 else 0)
  }

  lemma {:induction false} FetchWorkWithout(fetches: seq<Fetch>, i: nat)
    requires i < |fetches|
    ensures FetchWork(fetches) == FetchWork(Without(fetches, i)) + LoadWork(fetches[i].load)
    decreases |fetches|
  {
    var last := |fetches| - 1;
    if i < last {
      FetchWorkWithout(fetches[..last], i);
      assert Without(fetches, i)[..last - 1] == Without(fetches[..last], i);
    } else {
      assert Without(fetches, i) == fetches[..last];
    }
  }

  lemma {:induction false} FetchWorkUpdated(fetches: seq<Fetch>, i: nat, f: Fetch)
    requires i < |fetches|
    ensures FetchWork(fetches[i := f]) == FetchWork(fetches) - LoadWork(fetches[i].load) + LoadWork(f.load)
  {
    FetchWorkWithout(fetches, i);
    FetchWorkWithout(fetches[i := f], i);
    assert Without(fetches[i := f], i) == Without(fetches, i);
  }

  /** s' is one internal step nearer to rest than s, at the same head and no more harmed. */
  ghost predicate Closer(s: State, s': State) {
    && Work(s') < Work(s)
    && s'.history == s.history && s'.consumer.Running?
    && (Unharmed(s) ==> Unharmed(s'))
  }

  predicate Unharmed(s: State) {
    s.healthy || !Watching(s)
  }

  lemma FetchStepIsCloser(cfg: Config, s: State, i: nat, hash: string)
    requires s.history != [] && s.consumer.Running? && i < |s.fetches| && FetchNext(cfg, s, i, hash).Some?
    ensures Closer(s, FetchNext(cfg, s, i, hash).value)
  {
    FetchWorkWithout(s.fetches, i);
    var f := s.fetches[i];
    if !f.load.Loaded? && !f.load.Missing? {
      FetchWorkUpdated(s.fetches, i, f.(load := LoadNext(cfg, s.history, f.load, hash).value));
    }
  }

  lemma ReceiveIsCloser(s: State)
    requires s.conn.Conn? && s.conn.wire != [] && s.consumer.Running? && s.consumer.applying.None?
    ensures Closer(s, ReceiveFrame(s))
  {
    assert (s.fetches + [Fetch(true, Wanted)])[..|s.fetches|] == s.fetches;
  }

  lemma ListenerStepIsCloser(cfg: Config, s: State, step: Step)
    requires s.history != [] && s.consumer.Running? && ListenerNext(cfg, s, step).Some?
    requires step.TakeNotify? || step.ListenerStep? || step.Publish?
    ensures Closer(s, ListenerNext(cfg, s, step).value)
  {
  }

  lemma HandlerStepIsCloser(cfg: Config, s: State, step: Step)
    requires s.history != [] && s.consumer.Running? && HandlerNext(cfg, s, step).Some?
    requires !step.Disconnected? && !step.InitFail?
    ensures Closer(s, HandlerNext(cfg, s, step).value)
  {
  }

  /** The system cannot keep busy by itself. */
  lemma InternalStepIsCloser(cfg: Config, s: State, step: Step)
    requires s.history != [] && s.consumer.Running? && Internal(step) && Next(cfg, s, step).Some?
    ensures Closer(s, Next(cfg, s, step).value)
  {
    match step
    case TakeNotify => ListenerStepIsCloser(cfg, s, step);
    case ListenerStep(_) => ListenerStepIsCloser(cfg, s, step);
    case Publish(_) => ListenerStepIsCloser(cfg, s, step);
    case FetchStep(i, hash) => FetchStepIsCloser(cfg, s, i, hash);
    case Receive => ReceiveIsCloser(s);
    case FinishApply =>
    case _ => HandlerStepIsCloser(cfg, s, step);
  }

  /** Under the atomic-reads hypothesis: no load is one that the hypothesis says is never completed. */
  predicate Completes(history: seq<Row>, l: Load) {
    l.HasRev? ==> 0 <= l.rev < |history| && history[l.rev] == history[|history| - 1]
  }

  ghost predicate NoStaleLoad(s: State) {
    && (s.listener.Some? ==> Completes(s.history, s.listener.value))
    && (s.conn.Conn? && s.conn.phase.Gating? ==> Completes(s.history, HasRev(s.conn.phase.rev)))
    && (forall f :: f in s.fetches ==> Completes(s.history, f.load))
  }

  /**
   * And it is never stuck: unless it is quiet and has no fetch out, some internal step is enabled.
   * Under the atomic-reads hypothesis that is so of every state without a load the hypothesis excludes.
   */
  lemma QuietOrInternalStep(cfg: Config, s: State) returns (step: Step)
    requires s.history != [] && s.consumer.Running?
    requires cfg.atomicReads ==> NoStaleLoad(s)
    requires !Quiet(s) || s.fetches != []
    ensures Internal(step) && Next(cfg, s, step).Some?
  {
    assert s.fetches != [] ==> s.fetches[0] in s.fetches;
    if s.consumer.applying.Some? {
      step := FinishApply;
    } else if s.fetches != [] {
      step := FetchStep(0, "");
    } else if s.conn.NoConn? {
      step := Connect;
    } else if s.conn.phase.Opening? {
      step := Subscribe;
    } else if s.conn.phase.Subscribed? {
      step := InitRev;
    } else if s.conn.phase.Gating? {
      step := InitRow("");
    } else if s.conn.wire != [] {
      step := Receive;
    } else if s.conn.queue != [] {
      step := Pump;
    } else if s.listener.Some? {
      step := if s.listener.value.Loaded? then Publish(0) else ListenerStep("");
    } else {
      step := TakeNotify;
    }
  }

  ghost predicate AllInternal(steps: seq<Step>) {
    forall i :: 0 <= i < |steps| ==> Internal(steps[i])
  }

  lemma {:induction false} InternalRuns(cfg: Config, s: State, steps: seq<Step>)
    requires Sane(cfg, s) && s.consumer.Running? && AllInternal(steps) && Exec(cfg, s, steps).Some?
    ensures var s' := Exec(cfg, s, steps).value;
            && |steps| + Work(s') <= Work(s)
            && s'.history == s.history && s'.consumer.Running?
            && (Unharmed(s) ==> Unharmed(s'))
    decreases |steps|
  {
    if steps != [] {
      assert Internal(steps[0]);
      InternalStepIsCloser(cfg, s, steps[0]);
      StepKeepsSane(cfg, s, steps[0]);
      forall i | 0 <= i < |steps[1..]| ensures Internal(steps[1..][i]) { assert Internal(steps[i + 1]); }
      InternalRuns(cfg, Next(cfg, s, steps[0]).value, steps[1..]);
    }
  }

  ghost predicate AtRest(cfg: Config, s: State) {
    s.history != [] && forall step :: Internal(step) ==> Next(cfg, s, step).None?
  }

  lemma FetchKeepsCompletes(cfg: Config, s: State, i: nat, hash: string)
    requires s.history != [] && s.consumer.Running? && i < |s.fetches| && FetchNext(cfg, s, i, hash).Some?
    requires NoStaleLoad(s)
    ensures NoStaleLoad(FetchNext(cfg, s, i, hash).value)
  {
    var s' := FetchNext(cfg, s, i, hash).value;
    forall f | f in s'.fetches ensures Completes(s'.history, f.load) {
      assert f in s.fetches || (f == s'.fetches[i] && !s.fetches[i].load.Loaded? && !s.fetches[i].load.Missing?);
    }
  }

  lemma ReceiveKeepsCompletes(s: State)
    requires s.conn.Conn? && s.conn.wire != [] && s.consumer.Running? && NoStaleLoad(s)
    ensures NoStaleLoad(ReceiveFrame(s))
  {
    var s' := ReceiveFrame(s);
    forall f | f in s'.fetches ensures Completes(s'.history, f.load) {
      assert f in s.fetches || f.load == Wanted;
    }
  }

  /** Internal steps leave no stale load behind: only a commit makes one. */
  lemma InternalKeepsCompletes(cfg: Config, s: State, step: Step)
    requires s.history != [] && s.consumer.Running? && Internal(step) && Next(cfg, s, step).Some? && NoStaleLoad(s)
    ensures NoStaleLoad(Next(cfg, s, step).value)
  {
    match step
    case FetchStep(i, hash) => FetchKeepsCompletes(cfg, s, i, hash);
    case Receive => ReceiveKeepsCompletes(s);
    case _ =>
  }

  lemma {:induction false} InternalRunsComplete(cfg: Config, s: State, steps: seq<Step>)
    requires Sane(cfg, s) && s.consumer.Running? && AllInternal(steps) && Exec(cfg, s, steps).Some? && NoStaleLoad(s)
    ensures NoStaleLoad(Exec(cfg, s, steps).value)
    decreases |steps|
  {
    hide NoStaleLoad, Internal, Next, Sane;
    if steps != [] {
      assert Internal(steps[0]);
      SaneHasHistory(cfg, s);
      InternalKeepsCompletes(cfg, s, steps[0]);
      InternalStepIsCloser(cfg, s, steps[0]);
      StepKeepsSane(cfg, s, steps[0]);
      forall i | 0 <= i < |steps[1..]| ensures Internal(steps[1..][i]) { assert Internal(steps[i + 1]); }
      InternalRunsComplete(cfg, Next(cfg, s, steps[0]).value, steps[1..]);
    }
  }

  lemma SaneHasHistory(cfg: Config, s: State)
    requires Sane(cfg, s)
    ensures s.history != []
  {
  }

  /**
   * Eventual delivery. Left alone, the system takes at most Work(s) internal steps, and wherever
   * it can take no more the consumer has arrived at the delivery revision; with atomic loads, or
   * with deltas off, it then holds exactly the current configuration.
   */
  lemma LeftAloneItArrives(cfg: Config, before: seq<Step>, s: State, steps: seq<Step>, s': State)
    requires Reachable(cfg, before, s) && s.consumer.Running? && Unharmed(s)
    requires cfg.atomicReads ==> NoStaleLoad(s)
    requires AllInternal(steps) && Exec(cfg, s, steps) == Some(s')
    ensures |steps| <= Work(s)
    ensures AtRest(cfg, s') ==>
              && Quiet(s') && s'.consumer.current.revision == Head(s') == Head(s)
              && (cfg.atomicReads || !cfg.deltas ==> Body(s'.consumer.current) == s'.history[Head(s')])
  {
    hide Sane, Covered, Work, NoStaleLoad, Unharmed, AtRest, Quiet, Reachable, Next;
    ReachableIsSane(cfg, before, s);
    InternalRuns(cfg, s, steps);
    ExecKeeps(cfg, s, steps);
    if cfg.atomicReads { InternalRunsComplete(cfg, s, steps); }
    if AtRest(cfg, s') {
      RestIsQuiet(cfg, s');
      RestIsCurrent(cfg, s');
    }
  }

  lemma RestIsQuiet(cfg: Config, s: State)
    requires AtRest(cfg, s) && s.consumer.Running? && (cfg.atomicReads ==> NoStaleLoad(s))
    ensures Quiet(s)
  {
    hide NoStaleLoad, Next;
    if !Quiet(s) {
      var step := QuietOrInternalStep(cfg, s);
    }
  }

  lemma RestIsCurrent(cfg: Config, s: State)
    requires Sane(cfg, s) && Covered(s) && Quiet(s) && Unharmed(s)
    ensures s.history != [] && s.consumer.current.revision == Head(s)
    ensures cfg.atomicReads || !cfg.deltas ==> Body(s.consumer.current) == s.history[Head(s)]
  {
  }
}
