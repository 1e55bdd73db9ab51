/** What every reachable state of the delivery machine keeps, and what follows for the consumer. */
module DeliveryProof {
  import opened Json
  import opened Targeting
  import opened Delta
  import opened StreamHandler
  import opened Client
  import opened Delivery

  // ---------------------------------------------------------------- the invariant

  /**
   * What a snapshot owes the history: with atomic reads its body is exactly the row of its
   * revision; without deltas (and with torn reads) it is the row of that or a later revision.
   */
  ghost predicate Fits(cfg: Config, h: seq<Row>, s: Snapshot) {
    && 0 <= s.revision < |h|
    && (cfg.atomicReads ==> Body(s) == h[s.revision])
    && (!cfg.deltas ==> exists k :: s.revision <= k < |h| && Body(s) == h[k])
  }

  ghost predicate FitsDelta(cfg: Config, h: seq<Row>, d: Delta) {
    && 0 <= d.from < d.revision < |h|
    && (cfg.atomicReads ==>
          && d.version == h[d.revision].version
          && d.values == Diff(h[d.from].values, h[d.revision].values)
          && d.targeting == Diff(h[d.from].targeting, h[d.revision].targeting))
  }

  ghost predicate FitsFrame(cfg: Config, h: seq<Row>, f: Frame) {
    match f
    case Bare(s) => Fits(cfg, h, s)
    case Full(s) => cfg.deltas && Fits(cfg, h, s)
    case Incremental(d) => cfg.deltas && FitsDelta(cfg, h, d)
  }

  ghost predicate FitsLoad(cfg: Config, h: seq<Row>, l: Load) {
    match l
    case HasRev(r) => 0 <= r < |h|
    case Loaded(s) => Fits(cfg, h, s)
    case _ => true
  }

  /** The revision a load is bound to deliver, once it has read one. */
  function RevOf(l: Load): Option<int> {
    match l
    case HasRev(r) => Some(r)
    case Loaded(s) => Some(s.revision)
    case _ => None
  }

  predicate IsVersion(versions: seq<Row>, row: Row) {
    1 <= row.version <= |versions| && row == versions[row.version - 1]
  }

  ghost predicate SaneStore(s: State) {
    && s.history != [] && s.history[0] == EMPTY_ROW
    && (forall i :: 0 <= i < |s.versions| ==> s.versions[i].version == i + 1)
    && (forall r :: 1 <= r < |s.history| ==> IsVersion(s.versions, s.history[r]))
  }

  /** The Listener only acts on committed notifications, and publishes revisions in order. */
  ghost predicate SaneListener(cfg: Config, s: State) {
    && (s.notifies > 0 || s.listener.Some? ==> |s.history| > 1)
    && (s.listener.Some? ==>
          && FitsLoad(cfg, s.history, s.listener.value)
          && s.listener != Some(Missing)
          && (RevOf(s.listener.value).Some? && s.conn.Conn? ==>
                forall q :: q in s.conn.queue ==> q.revision <= RevOf(s.listener.value).value))
  }

  ghost predicate SaneConn(cfg: Config, s: State) {
    s.conn.Conn? ==>
      && (s.conn.phase.Gating? ==> 0 <= s.conn.phase.rev < |s.history|)
      && (forall q :: q in s.conn.queue ==> Fits(cfg, s.history, q))
      && (forall f :: f in s.conn.wire ==> FitsFrame(cfg, s.history, f))
      && (s.conn.baseline.Some? ==> Fits(cfg, s.history, s.conn.baseline.value))
      && s.consumer.Running? && s.conn.since <= s.consumer.current.revision
  }

  ghost predicate SaneConsumer(cfg: Config, s: State) {
    match s.consumer
    case Starting(l) => FitsLoad(cfg, s.history, l)
    case Running(current, applying) =>
      && Fits(cfg, s.history, current)
      && (applying.Some? ==> Fits(cfg, s.history, applying.value))
  }

  ghost predicate SaneFetch(cfg: Config, h: seq<Row>, f: Fetch) {
    FitsLoad(cfg, h, f.load) && (f.resync ==> |h| > 1 && f.load != Missing)
  }

  ghost predicate SaneFetches(cfg: Config, h: seq<Row>, fetches: seq<Fetch>) {
    forall f :: f in fetches ==> SaneFetch(cfg, h, f)
  }

  ghost predicate Sane(cfg: Config, s: State) {
    && SaneStore(s)
    && SaneListener(cfg, s)
    && SaneConn(cfg, s)
    && SaneConsumer(cfg, s)
    && SaneFetches(cfg, s.history, s.fetches)
  }

  lemma FitsLater(cfg: Config, h: seq<Row>, row: Row, s: Snapshot)
    requires Fits(cfg, h, s)
    ensures Fits(cfg, h + [row], s)
  {
    if !cfg.deltas {
      var k :| s.revision <= k < |h| && Body(s) == h[k];
      assert (h + [row])[k] == h[k];
    }
  }

  lemma FitsFrameLater(cfg: Config, h: seq<Row>, row: Row, f: Frame)
    requires FitsFrame(cfg, h, f)
    ensures FitsFrame(cfg, h + [row], f)
  {
    match f
    case Bare(s) => FitsLater(cfg, h, row, s);
    case Full(s) => FitsLater(cfg, h, row, s);
    case Incremental(d) =>
  }

  lemma FitsLoadLater(cfg: Config, h: seq<Row>, row: Row, l: Load)
    requires FitsLoad(cfg, h, l)
    ensures FitsLoad(cfg, h + [row], l)
  {
    if l.Loaded? { FitsLater(cfg, h, row, l.s); }
  }

  /** A commit invalidates nothing that is under way. */
  lemma CommitKeepsSane(cfg: Config, s: State, row: Row, s': State)
    requires Sane(cfg, s)
    requires s' == Commit(s, row).(versions := s'.versions)
    requires SaneStore(s')
    ensures Sane(cfg, s')
  {
    if s.listener.Some? { FitsLoadLater(cfg, s.history, row, s.listener.value); }
    if s.conn.Conn? {
      forall q | q in s.conn.queue ensures Fits(cfg, s'.history, q) { FitsLater(cfg, s.history, row, q); }
      forall f | f in s.conn.wire ensures FitsFrame(cfg, s'.history, f) { FitsFrameLater(cfg, s.history, row, f); }
      if s.conn.baseline.Some? { FitsLater(cfg, s.history, row, s.conn.baseline.value); }
    }
    match s.consumer {
      case Starting(l) => FitsLoadLater(cfg, s.history, row, l);
      case Running(current, applying) =>
        FitsLater(cfg, s.history, row, current);
        if applying.Some? { FitsLater(cfg, s.history, row, applying.value); }
    }
    forall f | f in s.fetches ensures FitsLoad(cfg, s'.history, f.load) {
      FitsLoadLater(cfg, s.history, row, f.load);
    }
  }

  lemma LoadStaysFit(cfg: Config, h: seq<Row>, l: Load, hash: string)
    requires h != [] && FitsLoad(cfg, h, l) && LoadNext(cfg, h, l, hash).Some?
    ensures FitsLoad(cfg, h, LoadNext(cfg, h, l, hash).value)
  {
    if l.HasRev? && |h| > 1 {
      var snap := BuildSnapshot(h[|h| - 1], l.rev, hash);
      assert Body(snap) == h[|h| - 1];
    }
  }

  lemma FitsIgnoresNil(cfg: Config, h: seq<Row>, s: Snapshot)
    requires Fits(cfg, h, s)
    ensures Fits(cfg, h, Normal(s)) && Fits(cfg, h, Filled(s)) && Fits(cfg, h, Filled(Normal(s)))
  {
    assert Body(Normal(s)) == Body(s) && Body(Filled(s)) == Body(s) && Body(Filled(Normal(s))) == Body(s);
  }

  lemma GateStaysFit(cfg: Config, h: seq<Row>, current: Snapshot, s: Snapshot)
    requires Fits(cfg, h, current) && Fits(cfg, h, s)
    ensures Fits(cfg, h, Gate(current, s)) && Fits(cfg, h, Gate(current, Normal(s)))
  {
    FitsIgnoresNil(cfg, h, s);
  }

  lemma WriteStaysFit(cfg: Config, h: seq<Row>, c: Conn, snap: Snapshot)
    requires c.Conn? && Fits(cfg, h, snap)
    requires c.baseline.Some? ==> Fits(cfg, h, c.baseline.value)
    requires forall f :: f in c.wire ==> FitsFrame(cfg, h, f)
    ensures var c' := WriteFrame(cfg, c, snap);
            && (forall f :: f in c'.wire ==> FitsFrame(cfg, h, f))
            && (c'.baseline.Some? ==> Fits(cfg, h, c'.baseline.value))
  {
    var f := FrameFor(cfg.deltas, c.baseline, snap);
    assert FitsFrame(cfg, h, f);
  }

  lemma ApplyStaysFit(cfg: Config, h: seq<Row>, current: Snapshot, d: Delta)
    requires cfg.deltas && FitsDelta(cfg, h, d) && Fits(cfg, h, current) && d.from == current.revision
    ensures Fits(cfg, h, SdkApply(current, d))
  {
    if cfg.atomicReads {
      PatchInvertsDiff(h[d.from].values, h[d.revision].values);
      PatchInvertsDiff(h[d.from].targeting, h[d.revision].targeting);
    }
  }

  lemma ListenerKeepsSane(cfg: Config, s: State, step: Step)
    requires Sane(cfg, s) && ListenerNext(cfg, s, step).Some?
    requires !step.Publish?
    ensures Sane(cfg, ListenerNext(cfg, s, step).value)
  {
    if step.ListenerStep? {
      LoadStaysFit(cfg, s.history, s.listener.value, step.hash);
    }
  }

  lemma PublishKeepsSane(cfg: Config, s: State, drop: nat)
    requires Sane(cfg, s) && ListenerNext(cfg, s, Publish(drop)).Some?
    ensures Sane(cfg, ListenerNext(cfg, s, Publish(drop)).value)
  {
    if s.conn.Conn? && !s.conn.phase.Opening? {
      forall q | q in s.conn.queue[drop..] + [s.listener.value.s] ensures Fits(cfg, s.history, q) {
        assert q in s.conn.queue || q == s.listener.value.s;
      }
    }
  }

  lemma InitRowKeepsSane(cfg: Config, s: State, hash: string)
    requires Sane(cfg, s) && HandlerNext(cfg, s, InitRow(hash)).Some?
    ensures Sane(cfg, HandlerNext(cfg, s, InitRow(hash)).value)
  {
    if s.conn.phase.rev > s.conn.since {
      LoadStaysFit(cfg, s.history, HasRev(s.conn.phase.rev), hash);
      var l := LoadNext(cfg, s.history, HasRev(s.conn.phase.rev), hash).value;
      if l.Loaded? { WriteStaysFit(cfg, s.history, s.conn.(phase := Live), l.s); }
    }
  }

  lemma PumpKeepsSane(cfg: Config, s: State)
    requires Sane(cfg, s) && HandlerNext(cfg, s, Pump).Some?
    ensures Sane(cfg, HandlerNext(cfg, s, Pump).value)
  {
    assert s.conn.queue[0] in s.conn.queue;
    WriteStaysFit(cfg, s.history, s.conn, s.conn.queue[0]);
  }

  lemma HandlerKeepsSane(cfg: Config, s: State, step: Step)
    requires Sane(cfg, s) && HandlerNext(cfg, s, step).Some?
    requires !step.InitRow? && !step.Pump?
    ensures Sane(cfg, HandlerNext(cfg, s, step).value)
  {
  }

  lemma ReceiveKeepsSane(cfg: Config, s: State)
    requires Sane(cfg, s)
    requires s.conn.Conn? && s.conn.wire != [] && s.consumer.Running?
    ensures Sane(cfg, ReceiveFrame(s))
  {
    assert FitsFrame(cfg, s.history, s.conn.wire[0]);
    match s.conn.wire[0]
    case Bare(snap) => GateStaysFit(cfg, s.history, s.consumer.current, snap);
    case Full(snap) => GateStaysFit(cfg, s.history, s.consumer.current, snap);
    case Incremental(d) =>
      if d.from == s.consumer.current.revision {
        ApplyStaysFit(cfg, s.history, s.consumer.current, d);
      }
  }

  lemma SaneFetchesWithout(cfg: Config, h: seq<Row>, fetches: seq<Fetch>, i: nat)
    requires SaneFetches(cfg, h, fetches) && i < |fetches|
    ensures SaneFetches(cfg, h, Without(fetches, i)) && SaneFetch(cfg, h, fetches[i])
  {
    assert fetches[i] in fetches;
    forall f | f in Without(fetches, i) ensures f in fetches {}
  }

  lemma SaneFetchesUpdate(cfg: Config, h: seq<Row>, fetches: seq<Fetch>, i: nat, f: Fetch)
    requires SaneFetches(cfg, h, fetches) && i < |fetches| && SaneFetch(cfg, h, f)
    ensures SaneFetches(cfg, h, fetches[i := f])
  {
    forall g | g in fetches[i := f] ensures g == f || g in fetches {}
  }

  lemma FetchKeepsSane(cfg: Config, s: State, i: nat, hash: string)
    requires Sane(cfg, s) && i < |s.fetches| && s.consumer.Running? && FetchNext(cfg, s, i, hash).Some?
    ensures Sane(cfg, FetchNext(cfg, s, i, hash).value)
  {
    SaneFetchesWithout(cfg, s.history, s.fetches, i);
    var f := s.fetches[i];
    if f.load.Loaded? {
      GateStaysFit(cfg, s.history, s.consumer.current, f.load.s);
    } else if !f.load.Missing? {
      LoadStaysFit(cfg, s.history, f.load, hash);
      var l := LoadNext(cfg, s.history, f.load, hash).value;
      SaneFetchesUpdate(cfg, s.history, s.fetches, i, f.(load := l));
    }
  }

  lemma StartKeepsSane(cfg: Config, s: State, hash: string)
    requires Sane(cfg, s) && ConsumerNext(cfg, s, StartStep(hash)).Some?
    ensures Sane(cfg, ConsumerNext(cfg, s, StartStep(hash)).value)
  {
    if s.consumer.load.Missing? {
      assert Body(EMPTY_SNAPSHOT) == s.history[0];
    } else if s.consumer.load.Loaded? {
      FitsIgnoresNil(cfg, s.history, s.consumer.load.s);
    } else {
      LoadStaysFit(cfg, s.history, s.consumer.load, hash);
    }
  }

  lemma ConsumerKeepsSane(cfg: Config, s: State, step: Step)
    requires Sane(cfg, s) && ConsumerNext(cfg, s, step).Some?
    requires step.StartFail? || step.FinishApply? || step.StartPoll? || step.FetchFail?
    ensures Sane(cfg, ConsumerNext(cfg, s, step).value)
  {
    match step
    case FinishApply => GateStaysFit(cfg, s.history, s.consumer.current, s.consumer.applying.value);
    case FetchFail(i) => SaneFetchesWithout(cfg, s.history, s.fetches, i);
    case _ =>
  }

  lemma StepKeepsSane(cfg: Config, s: State, step: Step)
    requires Sane(cfg, s) && Next(cfg, s, step).Some?
    ensures Sane(cfg, Next(cfg, s, step).value)
  {
    hide SaneListener, SaneConn, SaneConsumer, SaneFetches, FetchNext, ReceiveFrame, LoadNext, WriteFrame;
    match step
    case Save(values, targeting) =>
      var row := Row(|s.versions| + 1, values, targeting);
      CommitKeepsSane(cfg, s, row, Next(cfg, s, step).value);
    case Rollback(v) =>
      CommitKeepsSane(cfg, s, s.versions[v - 1], Next(cfg, s, step).value);
    case TakeNotify => ListenerKeepsSane(cfg, s, step);
    case LoseNotify => ListenerKeepsSane(cfg, s, step);
    case ListenerStep(_) => ListenerKeepsSane(cfg, s, step);
    case ListenerFail => ListenerKeepsSane(cfg, s, step);
    case Publish(drop) => PublishKeepsSane(cfg, s, drop);
    case InitRow(hash) => InitRowKeepsSane(cfg, s, hash);
    case Pump => PumpKeepsSane(cfg, s);
    case Connect => HandlerKeepsSane(cfg, s, step);
    case Disconnected => HandlerKeepsSane(cfg, s, step);
    case Subscribe => HandlerKeepsSane(cfg, s, step);
    case InitRev => HandlerKeepsSane(cfg, s, step);
    case InitFail => HandlerKeepsSane(cfg, s, step);
    case StartStep(hash) => StartKeepsSane(cfg, s, hash);
    case Receive => ReceiveKeepsSane(cfg, s);
    case FetchStep(i, hash) => FetchKeepsSane(cfg, s, i, hash);
    case _ => ConsumerKeepsSane(cfg, s, step);
  }
}
