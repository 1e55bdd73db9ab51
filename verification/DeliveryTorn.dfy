/** Runs of the delivery machine, a step at a time. */
module DeliveryRunning {
  import opened Json
  import opened Delivery

  lemma RunNothing(cfg: Config, s: State)
    ensures Exec(cfg, s, []) == Some(s)
  {
  }

  lemma {:induction false} ExecSnoc(cfg: Config, s: State, steps: seq<Step>, m: State, step: Step)
    requires Exec(cfg, s, steps) == Some(m) && m.history != []
    ensures Exec(cfg, s, steps + [step]) == Next(cfg, m, step)
    decreases |steps|
  {
    if steps == [] {
      assert [step][1..] == [];
    } else {
      assert (steps + [step])[1..] == steps[1..] + [step];
      ExecSnoc(cfg, Next(cfg, s, steps[0]).value, steps[1..], m, step);
    }
  }

  lemma Then(cfg: Config, s: State, run: seq<Step>, m: State, step: Step) returns (run': seq<Step>, n: State)
    requires Exec(cfg, s, run) == Some(m) && m.history != [] && Next(cfg, m, step).Some?
    ensures Exec(cfg, s, run') == Some(n) == Next(cfg, m, step)
  {
    ExecSnoc(cfg, s, run, m, step);
    run', n := run + [step], Next(cfg, m, step).value;
  }
}

/** Why agreement needs atomic loads when deltas are on: a run the code allows and the consumer never recovers from. */
module DeliveryTorn {
  import opened Json
  import opened Ordering
  import opened Targeting
  import opened Delta
  import opened StreamHandler
  import opened Client
  import opened Delivery
  import opened DeliveryCover
  import opened DeliveryRunning
  import opened DeliveryTheorems

  lemma Go(cfg: Config, run: seq<Step>, s: State, step: Step) returns (run': seq<Step>, s': State)
    requires Reachable(cfg, run, s) && s.history != [] && Next(cfg, s, step).Some?
    ensures Some(s') == Next(cfg, s, step) && Reachable(cfg, run', s')
  {
    run', s' := Then(cfg, Init(), run, s, step);
  }

  const OFF: Values := map["k" := Bool(false)]
  const ON: Values := map["k" := Bool(true)]
  const ROW1 := Row(1, OFF, map[])
  const ROW2 := Row(2, ON, map[])
  /** Revision 1 read before the second save committed, its row after: revision 1 with the values of 2. */
  const TORN := Snapshot(2, 1, "", ON, SomeRules(map[]))
  const LATER := Snapshot(2, 2, "", ON, SomeRules(map[]))
  const HELD := Snapshot(1, 1, "", OFF, SomeRules(map[]))

  function Cfg(): Config { Config(true, false) }

  const H1 := [EMPTY_ROW, ROW1]
  const H2 := [EMPTY_ROW, ROW1, ROW2]

  lemma Started() returns (run: seq<Step>, s: State)
    ensures Reachable(Cfg(), run, s)
    ensures s == State([ROW1], H1, 1, None, NoConn, Running(HELD, None), [], true)
  {
    run, s := [], Init();
    run, s := Go(Cfg(), run, s, Save(OFF, map[]));
    assert s.history == H1 && s.versions == [ROW1];
    run, s := Go(Cfg(), run, s, StartStep(""));
    run, s := Go(Cfg(), run, s, StartStep(""));
    run, s := Go(Cfg(), run, s, StartStep(""));
  }

  /** A consumer at revision 1, connected and live. */
  lemma Connected() returns (run: seq<Step>, s: State)
    ensures Reachable(Cfg(), run, s)
    ensures s == State([ROW1], H1, 1, None, Conn(1, Live, [], None, []), Running(HELD, None), [], true)
  {
    run, s := Started();
    run, s := Go(Cfg(), run, s, Connect);
    run, s := Go(Cfg(), run, s, Subscribe);
    run, s := Go(Cfg(), run, s, InitRev);
    run, s := Go(Cfg(), run, s, InitRow(""));
  }

  /** A save lands between the loader's two reads. */
  lemma TornLoad() returns (run: seq<Step>, s: State)
    ensures Reachable(Cfg(), run, s)
    ensures s == State([ROW1, ROW2], H2, 1, Some(Loaded(TORN)),
                       Conn(1, Live, [], None, []), Running(HELD, None), [], true)
  {
    run, s := Connected();
    run, s := Go(Cfg(), run, s, TakeNotify);
    run, s := Go(Cfg(), run, s, ListenerStep(""));
    run, s := Go(Cfg(), run, s, Save(ON, map[]));
    assert s.history == H2 && s.versions == [ROW1, ROW2];
    run, s := Go(Cfg(), run, s, ListenerStep(""));
  }

  /** The consumer ignores the torn snapshot, but the handler keeps it as its delta baseline. */
  lemma TornBaseline() returns (run: seq<Step>, s: State)
    ensures Reachable(Cfg(), run, s)
    ensures s == State([ROW1, ROW2], H2, 1, None,
                       Conn(1, Live, [], Some(TORN), []), Running(HELD, None), [], true)
  {
    run, s := TornLoad();
    run, s := Go(Cfg(), run, s, Publish(0));
    assert s.conn.queue == [TORN];
    run, s := Go(Cfg(), run, s, Pump);
    assert s.conn.wire == [Full(TORN)] && s.conn.queue == [];
    run, s := Go(Cfg(), run, s, Receive);
    assert s.conn.wire == [];
  }

  lemma SecondLoad() returns (run: seq<Step>, s: State)
    ensures Reachable(Cfg(), run, s)
    ensures s == State([ROW1, ROW2], H2, 0, None,
                       Conn(1, Live, [LATER], Some(TORN), []), Running(HELD, None), [], true)
  {
    run, s := TornBaseline();
    run, s := Go(Cfg(), run, s, TakeNotify);
    run, s := Go(Cfg(), run, s, ListenerStep(""));
    run, s := Go(Cfg(), run, s, ListenerStep(""));
    run, s := Go(Cfg(), run, s, Publish(0));
    assert s.conn.queue == [LATER];
  }

  lemma NothingChanged()
    ensures ComputeDelta(TORN, LATER) == Delta(2, 2, 1, "", FieldDelta(map[], []), FieldDelta(map[], []))
  {
    assert Changed(ON, ON) == map[];
    assert ON.Keys - ON.Keys == {};
    assert Sorted({}) == [];
  }

  lemma NothingReceived() returns (run: seq<Step>, s: State)
    ensures Reachable(Cfg(), run, s)
    ensures s == State([ROW1, ROW2], H2, 0, None,
                       Conn(1, Live, [], Some(LATER), []),
                       Running(HELD, Some(SdkApply(HELD, ComputeDelta(TORN, LATER)))), [], true)
  {
    run, s := SecondLoad();
    NothingChanged();
    run, s := Go(Cfg(), run, s, Pump);
    assert s.conn.wire == [Incremental(ComputeDelta(TORN, LATER))] && s.conn.queue == [];
    run, s := Go(Cfg(), run, s, Receive);
    assert s.conn.wire == [];
  }

  /**
   * With deltas on, agreement and the current-values guarantee are false of torn loads: here the
   * consumer is at rest at the head revision, with the values of the revision before.
   */
  lemma TornDeltaSticks() returns (run: seq<Step>, s: State)
    ensures Reachable(Cfg(), run, s) && Quiet(s) && s.healthy
    ensures Revision(s) == Head(s) == 2 && s.consumer.current.values == OFF
    ensures s.history == H2 && ROW2.values != OFF
  {
    run, s := NothingReceived();
    NothingChanged();
    assert Patch(OFF, FieldDelta(map[], [])) == OFF;
    run, s := Go(Cfg(), run, s, FinishApply);
    assert ON["k"] != OFF["k"];
  }

  // ---------------------------------------------------------------- a torn successor

  const ROW3 := Row(3, ON, map[])
  const H3 := [EMPTY_ROW, ROW1, ROW2, ROW3]
  const TORN_NEXT := Snapshot(3, 2, "", ON, SomeRules(map[]))

  lemma TrueLoad() returns (run: seq<Step>, s: State)
    ensures Reachable(Cfg(), run, s)
    ensures s == State([ROW1], H1, 0, None, Conn(1, Live, [HELD], None, []), Running(HELD, None), [], true)
  {
    run, s := Connected();
    run, s := Go(Cfg(), run, s, TakeNotify);
    run, s := Go(Cfg(), run, s, ListenerStep(""));
    run, s := Go(Cfg(), run, s, ListenerStep(""));
    run, s := Go(Cfg(), run, s, Publish(0));
    assert s.conn.queue == [HELD];
  }

  /** The handler's baseline is just what the consumer holds. */
  lemma TrueBaseline() returns (run: seq<Step>, s: State)
    ensures Reachable(Cfg(), run, s)
    ensures s == State([ROW1], H1, 0, None, Conn(1, Live, [], Some(HELD), []), Running(HELD, None), [], true)
  {
    run, s := TrueLoad();
    run, s := Go(Cfg(), run, s, Pump);
    assert s.conn.wire == [Full(HELD)] && s.conn.queue == [];
    run, s := Go(Cfg(), run, s, Receive);
    assert s.conn.wire == [];
  }

  lemma TornSuccessorPublished() returns (run: seq<Step>, s: State)
    ensures Reachable(Cfg(), run, s)
    ensures s == State([ROW1, ROW2, ROW3], H3, 1, None,
                       Conn(1, Live, [TORN_NEXT], Some(HELD), []), Running(HELD, None), [], true)
  {
    run, s := TrueBaseline();
    run, s := Go(Cfg(), run, s, Save(ON, map[]));
    assert s.history == H2 && s.versions == [ROW1, ROW2];
    run, s := Go(Cfg(), run, s, TakeNotify);
    run, s := Go(Cfg(), run, s, ListenerStep(""));
    run, s := Go(Cfg(), run, s, Save(ON, map[]));
    assert s.history == H3 && s.versions == [ROW1, ROW2, ROW3];
    run, s := Go(Cfg(), run, s, ListenerStep(""));
    run, s := Go(Cfg(), run, s, Publish(0));
    assert s.conn.queue == [TORN_NEXT];
  }

  /** A delta from a true baseline to a torn successor: revision 2 with the row of revision 3. */
  lemma TornSuccessorMisleads() returns (run: seq<Step>, s: State, after: State)
    ensures Reachable(Cfg(), run, s) && s.conn.Conn? && s.consumer == Running(HELD, None)
    ensures s.conn.wire == [Incremental(ComputeDelta(HELD, TORN_NEXT))]
    ensures s.history == after.history == H3 && Body(HELD) == H3[1]
    ensures Exec(Cfg(), s, [Receive, FinishApply]) == Some(after) && after.consumer.Running?
    ensures after.consumer.current.revision == 2 && Body(after.consumer.current) != H3[2]
  {
    run, s := TornSuccessorPublished();
    run, s := Go(Cfg(), run, s, Pump);
    assert s.conn.wire == [Incremental(ComputeDelta(HELD, TORN_NEXT))];
    HarmlessDeltas(Cfg(), s, HELD, TORN_NEXT);
    after := Exec(Cfg(), s, [Receive, FinishApply]).value;
    assert H3[2].version == 2;
  }

  // ---------------------------------------------------------------- exactly which deltas do no harm

  /** Where a diff from b to n would take c, it finds or puts the entries of t. */
  ghost predicate Lands<V>(c: map<string, V>, b: map<string, V>, n: map<string, V>, t: map<string, V>) {
    forall k :: if Agree(b, n, k) then Agree(c, t, k) else Agree(n, t, k)
  }

  /**
   * Exactly which deltas are harmless. Whatever the baseline the server diffed against and the
   * snapshot it diffed to really were, a delta that chains leaves the consumer in agreement with the
   * store if and only if it names the version of its revision, what it mentions it has from that
   * version, and what it does not mention the consumer had right already.
   */
  lemma HarmlessDeltas(cfg: Config, s: State, baseline: Snapshot, next: Snapshot)
    requires s.history != [] && s.conn.Conn? && s.consumer.Running? && s.consumer.applying.None?
    requires s.conn.wire != [] && s.conn.wire[0] == Incremental(ComputeDelta(baseline, next))
    requires 0 <= baseline.revision == s.consumer.current.revision < next.revision <= Head(s)
    ensures Exec(cfg, s, [Receive, FinishApply]).Some?
    ensures var current, row := s.consumer.current, s.history[next.revision];
            var s' := Exec(cfg, s, [Receive, FinishApply]).value;
            && s'.consumer.Running? && s'.history == s.history && s'.consumer.current.revision == next.revision
            && (Body(s'.consumer.current) == row
                <==> && next.version == row.version
                     && Lands(current.values, baseline.values, next.values, row.values)
                     && Lands(Rules(current.targeting), Rules(baseline.targeting), Rules(next.targeting),
                              row.targeting))
  {
    var current, row := s.consumer.current, s.history[next.revision];
    var applied := SdkApply(current, ComputeDelta(baseline, next));
    var s1 := ReceiveFrame(s);
    assert Next(cfg, s, Receive) == Some(s1) && s1.consumer == Running(current, Some(applied));
    var s2 := Next(cfg, s1, FinishApply).value;
    assert s2.consumer.current == Gate(current, applied);
    assert [Receive, FinishApply][1..] == [FinishApply] && [FinishApply][1..] == [];
    assert Exec(cfg, s1, [FinishApply]) == Some(s2);
    PatchDiffGives(current.values, baseline.values, next.values, row.values);
    PatchDiffGives(Rules(current.targeting), Rules(baseline.targeting), Rules(next.targeting), row.targeting);
    assert Body(Filled(applied)) == Body(applied);
  }

  /** To a true successor: exactly those that leave out nothing the consumer has wrong. */
  lemma HarmlessBaselines(cfg: Config, s: State, baseline: Snapshot, next: Snapshot)
    requires s.history != [] && s.conn.Conn? && s.consumer.Running? && s.consumer.applying.None?
    requires s.conn.wire != [] && s.conn.wire[0] == Incremental(ComputeDelta(baseline, next))
    requires 0 <= baseline.revision == s.consumer.current.revision < next.revision <= Head(s)
    requires Body(next) == s.history[next.revision]
    ensures Exec(cfg, s, [Receive, FinishApply]).Some?
    ensures var held, s' := s.consumer.current, Exec(cfg, s, [Receive, FinishApply]).value;
            s'.consumer.Running?
            && (Body(s'.consumer.current) == s.history[next.revision]
                <==> && (forall k :: Agree(baseline.values, next.values, k) ==> Agree(held.values, next.values, k))
                     && (forall k :: Agree(Rules(baseline.targeting), Rules(next.targeting), k)
                                     ==> Agree(Rules(held.targeting), Rules(next.targeting), k)))
  {
    HarmlessDeltas(cfg, s, baseline, next);
    assert forall k :: Agree(next.values, next.values, k);
    assert forall k :: Agree(Rules(next.targeting), Rules(next.targeting), k);
  }
}
