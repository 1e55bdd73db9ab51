/** What brings a consumer to the current revision after something was lost: a poll, or a reconnect. */
module DeliveryRecovery {
  import opened Json
  import opened Targeting
  import opened Delta
  import opened StreamHandler
  import opened Client
  import opened Delivery
  import opened DeliveryProof
  import opened DeliveryCover
  import opened DeliveryRunning
  import opened DeliveryTheorems

  /** The consumer is at the head, and unless its frames are deltas of torn loads it holds the head's row. */
  ghost predicate CaughtUp(cfg: Config, s: State) {
    && s.history != [] && s.consumer.Running? && s.consumer.current.revision == Head(s)
    && (cfg.atomicReads || !cfg.deltas ==> Body(s.consumer.current) == s.history[Head(s)])
  }

  // ---------------------------------------------------------------- polling

  ghost predicate PollsOnly(run: seq<Step>) {
    forall i :: 0 <= i < |run| ==> run[i].StartPoll? || run[i].FetchStep?
  }

  lemma ThenPolls(cfg: Config, s0: State, run: seq<Step>, m: State, step: Step, n: State) returns (run': seq<Step>)
    requires Exec(cfg, s0, run) == Some(m) && m.history != [] && Next(cfg, m, step) == Some(n)
    requires PollsOnly(run) && (step.StartPoll? || step.FetchStep?)
    ensures Exec(cfg, s0, run') == Some(n) && PollsOnly(run')
  {
    hide Next, Exec;
    ExecSnoc(cfg, s0, run, m, step);
    run' := run + [step];
  }

  /** s with a poll's fetch out, last of the list. */
  function Polling(s: State, load: Load): State {
    s.(fetches := s.fetches + [Fetch(false, load)])
  }

  lemma PollLoads(cfg: Config, s: State, load: Load)
    requires s.history != [] && s.consumer.Running? && !load.Loaded? && !load.Missing?
    requires LoadNext(cfg, s.history, load, "").Some?
    ensures Next(cfg, Polling(s, load), FetchStep(|s.fetches|, ""))
         == Some(Polling(s, LoadNext(cfg, s.history, load, "").value))
  {
    var next := LoadNext(cfg, s.history, load, "").value;
    assert Polling(s, load).fetches[|s.fetches| := Fetch(false, next)] == Polling(s, next).fetches;
  }

  lemma PollEnds(cfg: Config, s: State, load: Load)
    requires s.history != [] && s.consumer.Running? && (load.Loaded? || load.Missing?)
    ensures Next(cfg, Polling(s, load), FetchStep(|s.fetches|, ""))
         == Some(if load.Missing? then s
                 else s.(consumer := s.consumer.(current := Gate(s.consumer.current, Normal(load.s)))))
  {
    assert Without(Polling(s, load).fetches, |s.fetches|) == s.fetches;
  }

  /** What the poll of a consumer brings when nothing is committed meanwhile. */
  lemma FreshPoll(cfg: Config, s: State, load: Load, z: State)
    requires Sane(cfg, s) && s.consumer.Running?
    requires load == LoadNext(cfg, s.history, HasRev(Head(s)), "").value
    requires z == if load.Missing? then s
                  else s.(consumer := s.consumer.(current := Gate(s.consumer.current, Normal(load.s))))
    ensures CaughtUp(cfg, z)
  {
    if load.Loaded? {
      assert Body(Filled(Normal(load.s))) == Body(load.s) == s.history[Head(s)];
    }
  }

  /**
   * Whatever was lost before, and whether or not there is a connection: one tick of the slow poll,
   * carried through, brings the consumer to the delivery revision.
   */
  lemma PollCatchesUp(cfg: Config, s: State) returns (run: seq<Step>, z: State)
    requires Sane(cfg, s) && s.consumer.Running?
    ensures Exec(cfg, s, run) == Some(z) && PollsOnly(run)
    ensures CaughtUp(cfg, z) && z == s.(consumer := s.consumer.(current := z.consumer.current))
  {
    hide Exec, Next, Sane, CaughtUp, PollsOnly;
    SaneHasHistory(cfg, s);
    RunNothing(cfg, s);
    var load := LoadNext(cfg, s.history, HasRev(Head(s)), "").value;
    z := if load.Missing? then s
         else s.(consumer := s.consumer.(current := Gate(s.consumer.current, Normal(load.s))));
    PollStarts(cfg, s);
    run := ThenPolls(cfg, s, [], s, StartPoll, Polling(s, Wanted));
    PollLoads(cfg, s, Wanted);
    run := ThenPolls(cfg, s, run, Polling(s, Wanted), FetchStep(|s.fetches|, ""), Polling(s, HasRev(Head(s))));
    PollLoads(cfg, s, HasRev(Head(s)));
    run := ThenPolls(cfg, s, run, Polling(s, HasRev(Head(s))), FetchStep(|s.fetches|, ""), Polling(s, load));
    PollEnds(cfg, s, load);
    run := ThenPolls(cfg, s, run, Polling(s, load), FetchStep(|s.fetches|, ""), z);
    FreshPoll(cfg, s, load, z);
  }

  lemma PollStarts(cfg: Config, s: State)
    requires s.history != [] && s.consumer.Running?
    ensures Next(cfg, s, StartPoll) == Some(Polling(s, Wanted)) && PollsOnly([])
  {
  }

  // ---------------------------------------------------------------- reconnecting

  lemma {:induction false} ExecConcat(cfg: Config, s: State, a: seq<Step>, m: State, b: seq<Step>)
    requires Exec(cfg, s, a) == Some(m)
    ensures Exec(cfg, s, a + b) == Exec(cfg, m, b)
    decreases |a|
  {
    hide Next;
    if a == [] {
      assert a + b == b;
    } else {
      assert (a + b)[1..] == a[1..] + b;
      ExecConcat(cfg, Next(cfg, s, a[0]).value, a[1..], m, b);
    }
  }

  lemma OneStep(cfg: Config, s: State, step: Step, s1: State, rest: seq<Step>, z: State)
    requires s.history != [] && Next(cfg, s, step) == Some(s1) && Exec(cfg, s1, rest) == Some(z)
    ensures Exec(cfg, s, [step] + rest) == Some(z)
  {
    hide Next;
    assert ([step] + rest)[1..] == rest;
  }

  /** The internal steps do come to an end, with nothing in flight any more. */
  lemma {:induction false} ComesToRest(cfg: Config, s: State) returns (run: seq<Step>, z: State)
    requires Sane(cfg, s) && Covered(s) && s.consumer.Running? && (cfg.atomicReads ==> NoStaleLoad(s))
    ensures AllInternal(run) && Exec(cfg, s, run) == Some(z)
    ensures Sane(cfg, z) && Covered(z) && Quiet(z) && z.fetches == [] && z.history == s.history
    ensures Unharmed(s) ==> Unharmed(z)
    decreases Work(s)
  {
    hide Sane, Covered, Quiet, NoStaleLoad, Unharmed, Next, Exec, Internal, Work;
    SaneHasHistory(cfg, s);
    RunNothing(cfg, s);
    if Quiet(s) && s.fetches == [] {
      run, z := [], s;
    } else {
      var step := QuietOrInternalStep(cfg, s);
      var s1 := Next(cfg, s, step).value;
      InternalStepIsCloser(cfg, s, step);
      StepKeepsSane(cfg, s, step);
      StepKeepsCovered(cfg, s, step);
      if cfg.atomicReads { InternalKeepsCompletes(cfg, s, step); }
      run, z := ComesToRest(cfg, s1);
      OneStep(cfg, s, step, s1, run, z);
      run := [step] + run;
    }
  }

  /**
   * Whatever was lost on the way to a connection, losing the connection makes up for it: the
   * system then reconnects by itself and comes to rest with the consumer at the delivery revision.
   */
  lemma ReconnectCatchesUp(cfg: Config, s: State) returns (run: seq<Step>, z: State)
    requires Sane(cfg, s) && Covered(s) && s.consumer.Running? && s.conn.Conn? && (cfg.atomicReads ==> NoStaleLoad(s))
    ensures AllInternal(run) && Exec(cfg, s, [Disconnected] + run) == Some(z)
    ensures z.history == s.history && Quiet(z) && CaughtUp(cfg, z)
  {
    var s1 := s.(conn := NoConn);
    assert Next(cfg, s, Disconnected) == Some(s1);
    StepKeepsSane(cfg, s, Disconnected);
    StepKeepsCovered(cfg, s, Disconnected);
    assert Unharmed(s1);
    hide Sane, Covered, Quiet, Unharmed, Next, Exec, Internal;
    run, z := ComesToRest(cfg, s1);
    OneStep(cfg, s, Disconnected, s1, run, z);
    RestIsCurrent(cfg, z);
  }

  /** Reconnecting costs nothing that is not needed: a consumer at the head is sent no initial snapshot. */
  lemma ReconnectSendsWhatIsNew(cfg: Config, s: State, hash: string) returns (z: State)
    requires Sane(cfg, s) && s.consumer.Running? && s.conn.NoConn?
    ensures Exec(cfg, s, [Connect, Subscribe, InitRev, InitRow(hash)]) == Some(z)
    ensures z.conn.Conn? && z.conn.phase.Live? && z.conn.queue == [] && z == s.(conn := z.conn, healthy := true)
    ensures if s.consumer.current.revision == Head(s) then z.conn.wire == []
            else |z.conn.wire| == 1 && !z.conn.wire[0].Incremental?
                 && z.conn.wire[0].s.revision == Head(s) && Body(z.conn.wire[0].s) == s.history[Head(s)]
                 && z.conn.wire[0].s.schemaHash == hash
  {
    var steps := [Connect, Subscribe, InitRev, InitRow(hash)];
    var s1 := s.(conn := Conn(s.consumer.current.revision, Opening, [], None, []));
    var s2 := s1.(conn := s1.conn.(phase := Subscribed), healthy := true);
    var s3 := s2.(conn := s2.conn.(phase := Gating(Head(s))));
    assert Next(cfg, s, Connect) == Some(s1) && Next(cfg, s1, Subscribe) == Some(s2);
    assert Next(cfg, s2, InitRev) == Some(s3) && Next(cfg, s3, InitRow(hash)).Some?;
    z := Next(cfg, s3, InitRow(hash)).value;
    hide Next, Sane;
    RunNothing(cfg, z);
    OneStep(cfg, s3, InitRow(hash), z, [], z);
    OneStep(cfg, s2, InitRev, s3, [InitRow(hash)], z);
    OneStep(cfg, s1, Subscribe, s2, [InitRev] + [InitRow(hash)], z);
    OneStep(cfg, s, Connect, s1, [Subscribe] + ([InitRev] + [InitRow(hash)]), z);
    assert steps == [Connect] + ([Subscribe] + ([InitRev] + [InitRow(hash)]));
  }

  // ---------------------------------------------------------------- the first load

  /** A Ready that fails and is tried again ends with the consumer running at the delivery revision. */
  lemma ReadyCatchesUp(cfg: Config, s: State, hash: string) returns (z: State)
    requires SaneStore(s) && s.consumer.Starting?
    ensures Exec(cfg, s, [StartFail, StartStep(hash), StartStep(hash), StartStep(hash)]) == Some(z)
    ensures z == s.(consumer := z.consumer) && CaughtUp(cfg, z) && z.consumer.applying.None?
    ensures Head(s) > 0 ==> z.consumer.current.schemaHash == hash
  {
    var step := StartStep(hash);
    var s1 := s.(consumer := Starting(Wanted));
    var s2 := s.(consumer := Starting(HasRev(Head(s))));
    assert Next(cfg, s, StartFail) == Some(s1) && Next(cfg, s1, step) == Some(s2);
    var s3 := Next(cfg, s2, step).value;
    z := Next(cfg, s3, step).value;
    assert CaughtUp(cfg, z) by {
      if Head(s) > 0 {
        var snap := BuildSnapshot(s.history[Head(s)], Head(s), hash);
        assert Body(Filled(Normal(snap))) == Body(snap) == s.history[Head(s)];
      }
    }
    hide Next, SaneStore;
    RunNothing(cfg, z);
    OneStep(cfg, s3, step, z, [], z);
    OneStep(cfg, s2, step, s3, [step], z);
    OneStep(cfg, s1, step, s2, [step] + [step], z);
    OneStep(cfg, s, StartFail, s1, [step] + ([step] + [step]), z);
    assert [StartFail, step, step, step] == [StartFail] + ([step] + ([step] + [step]));
  }
}

/**
 * What each kind of failure can lose: for every one a run from the empty store after which nothing
 * is in flight on a live connection and the consumer is behind, for as long as it does not poll.
 */
module DeliveryLosses {
  import opened Json
  import opened Ordering
  import opened Targeting
  import opened Delta
  import opened StreamHandler
  import opened Client
  import opened Delivery
  import opened DeliveryProof
  import opened DeliveryCover
  import opened DeliveryTheorems
  import opened DeliveryTorn
  import opened DeliveryRecovery

  /** At rest on a live connection, short of the delivery revision. */
  ghost predicate Behind(run: seq<Step>, s: State) {
    Reachable(Cfg(), run, s) && Quiet(s) && s.fetches == [] && !s.healthy && Revision(s) < Head(s)
  }

  lemma Saved() returns (run: seq<Step>, s: State)
    ensures Reachable(Cfg(), run, s)
    ensures s == State([ROW1, ROW2], H2, 1, None, Conn(1, Live, [], Some(HELD), []), Running(HELD, None), [], true)
  {
    run, s := TrueBaseline();
    run, s := Go(Cfg(), run, s, Save(ON, map[]));
    assert s.history == H2 && s.versions == [ROW1, ROW2];
  }

  /** The Listener's session drops a notification. */
  lemma NotificationLost() returns (run: seq<Step>, s: State)
    ensures Behind(run, s)
  {
    run, s := Saved();
    run, s := Go(Cfg(), run, s, LoseNotify);
  }

  /** The loader's read fails. */
  lemma LoadFailed() returns (run: seq<Step>, s: State)
    ensures Behind(run, s)
  {
    run, s := Saved();
    run, s := Go(Cfg(), run, s, TakeNotify);
    run, s := Go(Cfg(), run, s, ListenerFail);
  }

  /** The save's snapshot is published while the handler has not subscribed yet. */
  lemma PublishedToNoOne() returns (run: seq<Step>, s: State)
    ensures Reachable(Cfg(), run, s)
    ensures s == State([ROW1, ROW2], H2, 0, None, Conn(1, Opening, [], None, []), Running(HELD, None), [], true)
  {
    run, s := Saved();
    run, s := Go(Cfg(), run, s, Disconnected);
    run, s := Go(Cfg(), run, s, Connect);
    run, s := Go(Cfg(), run, s, TakeNotify);
    run, s := Go(Cfg(), run, s, ListenerStep(""));
    run, s := Go(Cfg(), run, s, ListenerStep(""));
    run, s := Go(Cfg(), run, s, Publish(0));
  }

  /** And the handler's own read then fails. */
  lemma InitialLoadFailed() returns (run: seq<Step>, s: State)
    ensures Behind(run, s)
  {
    run, s := PublishedToNoOne();
    run, s := Go(Cfg(), run, s, Subscribe);
    run, s := Go(Cfg(), run, s, InitRev);
    run, s := Go(Cfg(), run, s, InitFail);
  }

  const THIRD := Snapshot(3, 3, "", ON, SomeRules(map[]))

  /** A poll gets revision 2 to the consumer while it is still queued for the stream. */
  lemma PolledAhead() returns (run: seq<Step>, s: State)
    ensures Reachable(Cfg(), run, s) && s.consumer.Running? && Revision(s) == 2
    ensures s == State([ROW1, ROW2], H2, 0, None, Conn(1, Live, [LATER], Some(HELD), []),
                       Running(s.consumer.current, None), [], true)
  {
    run, s := Saved();
    run, s := Go(Cfg(), run, s, TakeNotify);
    run, s := Go(Cfg(), run, s, ListenerStep(""));
    run, s := Go(Cfg(), run, s, ListenerStep(""));
    run, s := Go(Cfg(), run, s, Publish(0));
    assert s.conn.queue == [LATER];
    run, s := Polled(run, s);
  }

  lemma Polled(run: seq<Step>, s: State) returns (run': seq<Step>, z: State)
    requires Reachable(Cfg(), run, s) && s.consumer.Running?
    ensures Reachable(Cfg(), run', z) && CaughtUp(Cfg(), z)
    ensures z == s.(consumer := s.consumer.(current := z.consumer.current))
  {
    ReachableIsSane(Cfg(), run, s);
    hide Sane, Covered, Exec;
    var polls;
    polls, z := PollCatchesUp(Cfg(), s);
    ExecConcat(Cfg(), Init(), run, s, polls);
    run' := run + polls;
  }

  /** The third revision pushes the second one out of the queue. */
  lemma ThirdQueued() returns (run: seq<Step>, s: State)
    ensures Reachable(Cfg(), run, s) && s.consumer.Running? && Revision(s) == 2
    ensures s == State([ROW1, ROW2, ROW3], H3, 0, None, Conn(1, Live, [THIRD], Some(HELD), []),
                       Running(s.consumer.current, None), [], true)
  {
    run, s := PolledAhead();
    run, s := Go(Cfg(), run, s, Save(ON, map[]));
    assert s.history == H3 && s.versions == [ROW1, ROW2, ROW3];
    run, s := Go(Cfg(), run, s, TakeNotify);
    run, s := Go(Cfg(), run, s, ListenerStep(""));
    run, s := Go(Cfg(), run, s, ListenerStep(""));
    run, s := Go(Cfg(), run, s, Publish(1));
    assert s.conn.queue == [THIRD];
  }

  /** It goes out as a delta from the first. */
  lemma DeltaDoesNotChain() returns (run: seq<Step>, s: State)
    ensures Reachable(Cfg(), run, s) && s.consumer.Running? && Revision(s) == 2
    ensures s == State([ROW1, ROW2, ROW3], H3, 0, None,
                       Conn(1, Live, [], Some(THIRD), [Incremental(ComputeDelta(HELD, THIRD))]),
                       Running(s.consumer.current, None), [], true)
  {
    run, s := ThirdQueued();
    run, s := Go(Cfg(), run, s, Pump);
    assert s.conn.wire == [Incremental(ComputeDelta(HELD, THIRD))] && s.conn.queue == [];
  }

  /** The resync that a delta out of order starts fails. */
  lemma ResyncFailed() returns (run: seq<Step>, s: State)
    ensures Behind(run, s)
  {
    run, s := DeltaDoesNotChain();
    run, s := Go(Cfg(), run, s, Receive);
    assert s.conn.wire == [] && s.fetches == [Fetch(true, Wanted)];
    run, s := Go(Cfg(), run, s, FetchFail(0));
    assert s.fetches == [];
  }
}
