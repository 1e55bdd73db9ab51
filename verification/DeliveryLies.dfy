/**
 * One torn load, and everything else atomic: what a snapshot that lies about its revision can and
 * cannot do. A lie is a revision with a row other than its own.
 */
module DeliveryLies {
  import opened Json
  import opened Targeting
  import opened Delta
  import opened StreamHandler
  import opened Client
  import opened Delivery
  import opened DeliveryProof

  datatype Lie = Lie(rev: int, row: Row)

  // ---------------------------------------------------------------- what is said of the history

  /** The row a revision made current, or the one the lie gives it. */
  predicate SaidRow(h: seq<Row>, lie: Option<Lie>, rev: int, row: Row)
    requires 0 <= rev < |h|
  {
    row == h[rev] || (lie.Some? && lie.value.rev == rev && lie.value.row == row)
  }

  predicate Said(h: seq<Row>, lie: Option<Lie>, x: Snapshot) {
    0 <= x.revision < |h| && SaidRow(h, lie, x.revision, Body(x))
  }

  ghost predicate SaidDelta(h: seq<Row>, lie: Option<Lie>, d: Delta) {
    && 0 <= d.from < d.revision < |h|
    && exists b, n :: SaidRow(h, lie, d.from, b) && SaidRow(h, lie, d.revision, n) && Tells(d, b, n)
  }

  ghost predicate Tells(d: Delta, b: Row, n: Row) {
    d.version == n.version && d.values == Diff(b.values, n.values) && d.targeting == Diff(b.targeting, n.targeting)
  }

  ghost predicate SaidFrame(cfg: Config, h: seq<Row>, lie: Option<Lie>, f: Frame) {
    match f
    case Bare(x) => Said(h, lie, x)
    case Full(x) => Said(h, lie, x)
    case Incremental(d) => cfg.deltas && SaidDelta(h, lie, d)
  }

  predicate SaidLoad(h: seq<Row>, lie: Option<Lie>, l: Load) {
    match l
    case HasRev(q) => 0 <= q < |h|
    case Loaded(x) => Said(h, lie, x)
    case _ => true
  }

  // ---------------------------------------------------------------- consumers out of its reach

  predicate SameContent(a: Row, b: Row) {
    a.values == b.values && a.targeting == b.targeting
  }

  /** At a revision from which the lie, coming by the stream, can do no harm. */
  predicate Beyond(cfg: Config, h: seq<Row>, lie: Lie, rev: int)
    requires 0 <= lie.rev < |h|
  {
    rev > lie.rev || (rev == lie.rev && (!cfg.deltas || SameContent(h[lie.rev], lie.row)))
  }

  /** The lowest revision a consumer may have when it next takes a frame. */
  function Lowest(s: State): int {
    match s.consumer
    case Running(current, applying) =>
      if applying.Some? && applying.value.revision > current.revision then applying.value.revision else current.revision
    case Starting(l) =>
      match l
      case Loaded(x) => x.revision
      case HasRev(q) => if q >= 1 then q else Head(s)
      case Wanted => Head(s)
      case Missing => 0
  }

  /** What keeps the consumer from a lie in the stream, and from one in a fetch. */
  predicate OutOfReach(cfg: Config, stream: Option<Lie>, fetch: Option<Lie>, s: State) {
    && (stream.Some? ==> 0 <= stream.value.rev < Head(s) && Beyond(cfg, s.history, stream.value, Lowest(s)))
    && (fetch.Some? ==> s.consumer.Running? && s.consumer.current.revision >= fetch.value.rev)
  }

  ghost predicate TrueConsumer(s: State) {
    match s.consumer
    case Starting(l) => SaidLoad(s.history, None, l)
    case Running(current, applying) =>
      Said(s.history, None, current) && (applying.Some? ==> Said(s.history, None, applying.value))
  }

  ghost predicate SaidConn(cfg: Config, h: seq<Row>, lie: Option<Lie>, c: Conn) {
    c.Conn? ==>
      && (forall q :: q in c.queue ==> Said(h, lie, q))
      && (forall f :: f in c.wire ==> SaidFrame(cfg, h, lie, f))
      && (c.baseline.Some? ==> Said(h, lie, c.baseline.value))
  }

  ghost predicate SaidFetches(h: seq<Row>, lie: Option<Lie>, fetches: seq<Fetch>) {
    forall f :: f in fetches ==> SaidLoad(h, lie, f.load)
  }

  /** Nothing but the lies is false, and the consumer holds the truth, out of their reach. */
  ghost predicate Contained(cfg: Config, stream: Option<Lie>, fetch: Option<Lie>, s: State) {
    && SaneStore(s)
    && (s.listener.Some? ==> SaidLoad(s.history, stream, s.listener.value))
    && SaidConn(cfg, s.history, stream, s.conn)
    && SaidFetches(s.history, fetch, s.fetches)
    && TrueConsumer(s)
    && OutOfReach(cfg, stream, fetch, s)
  }

  // ---------------------------------------------------------------- every step keeps them contained

  lemma SaidDeltaLater(h: seq<Row>, row: Row, lie: Option<Lie>, d: Delta)
    requires SaidDelta(h, lie, d)
    ensures SaidDelta(h + [row], lie, d)
  {
    var b, n :| SaidRow(h, lie, d.from, b) && SaidRow(h, lie, d.revision, n) && Tells(d, b, n);
    assert SaidRow(h + [row], lie, d.from, b) && SaidRow(h + [row], lie, d.revision, n);
  }

  lemma SaidConnLater(cfg: Config, h: seq<Row>, row: Row, lie: Option<Lie>, c: Conn)
    requires SaidConn(cfg, h, lie, c)
    ensures SaidConn(cfg, h + [row], lie, c)
  {
    if c.Conn? {
      forall f | f in c.wire ensures SaidFrame(cfg, h + [row], lie, f) {
        assert SaidFrame(cfg, h, lie, f);
        if f.Incremental? { SaidDeltaLater(h, row, lie, f.d); }
      }
    }
  }

  lemma CommitContains(cfg: Config, stream: Option<Lie>, fetch: Option<Lie>, s: State, row: Row, s': State)
    requires Contained(cfg, stream, fetch, s) && s' == Commit(s, row).(versions := s'.versions) && SaneStore(s')
    ensures Contained(cfg, stream, fetch, s')
  {
    hide SaidDelta;
    SaidConnLater(cfg, s.history, row, stream, s.conn);
  }

  lemma LoadIsTrue(cfg: Config, h: seq<Row>, lie: Option<Lie>, l: Load, hash: string)
    requires cfg.atomicReads && h != [] && SaidLoad(h, lie, l) && LoadNext(cfg, h, l, hash).Some?
    ensures SaidLoad(h, None, LoadNext(cfg, h, l, hash).value)
  {
  }

  lemma ConsumerUnmoved(cfg: Config, stream: Option<Lie>, fetch: Option<Lie>, s: State, s': State)
    requires Contained(cfg, stream, fetch, s)
    requires s'.history == s.history && s'.versions == s.versions
    requires s'.consumer == s.consumer && s'.fetches == s.fetches
    requires SaidConn(cfg, s'.history, stream, s'.conn)
    requires s'.listener.Some? ==> SaidLoad(s'.history, stream, s'.listener.value)
    ensures Contained(cfg, stream, fetch, s')
  {
    hide SaidConn, SaidFetches, Beyond;
  }

  lemma ListenerContains(cfg: Config, stream: Option<Lie>, fetch: Option<Lie>, s: State, step: Step)
    requires cfg.atomicReads && Contained(cfg, stream, fetch, s) && ListenerNext(cfg, s, step).Some?
    ensures Contained(cfg, stream, fetch, ListenerNext(cfg, s, step).value)
  {
    hide SaidFrame, SaneStore, TrueConsumer, OutOfReach, SaidFetches;
    HasHistory(cfg, stream, fetch, s);
    match step {
      case ListenerStep(hash) =>
        if !s.listener.value.Missing? { LoadIsTrue(cfg, s.history, stream, s.listener.value, hash); }
      case Publish(drop) =>
        if s.conn.Conn? && !s.conn.phase.Opening? {
          forall q | q in s.conn.queue[drop..] + [s.listener.value.s] ensures Said(s.history, stream, q) {
            assert q in s.conn.queue || q == s.listener.value.s;
          }
        }
      case _ =>
    }
    ConsumerUnmoved(cfg, stream, fetch, s, ListenerNext(cfg, s, step).value);
  }

  lemma WriteIsSaid(cfg: Config, h: seq<Row>, lie: Option<Lie>, c: Conn, x: Snapshot)
    requires c.Conn? && SaidConn(cfg, h, lie, c) && Said(h, lie, x)
    ensures SaidConn(cfg, h, lie, WriteFrame(cfg, c, x))
  {
    var f := FrameFor(cfg.deltas, c.baseline, x);
    assert SaidFrame(cfg, h, lie, f) by {
      if f.Incremental? { assert Tells(f.d, Body(c.baseline.value), Body(x)); }
    }
  }

  lemma HandlerContains(cfg: Config, stream: Option<Lie>, fetch: Option<Lie>, s: State, step: Step)
    requires cfg.atomicReads && Contained(cfg, stream, fetch, s) && HandlerNext(cfg, s, step).Some?
    ensures Contained(cfg, stream, fetch, HandlerNext(cfg, s, step).value)
  {
    hide SaidConn, WriteFrame, SaneStore, TrueConsumer, OutOfReach, SaidFetches;
    HasHistory(cfg, stream, fetch, s);
    match step {
      case InitRow(hash) => InitRowContains(cfg, stream, s, hash);
      case Pump => PumpContains(cfg, stream, s);
      case _ => OpeningContains(cfg, stream, s, step);
    }
    ConsumerUnmoved(cfg, stream, fetch, s, HandlerNext(cfg, s, step).value);
  }

  lemma HasHistory(cfg: Config, stream: Option<Lie>, fetch: Option<Lie>, s: State)
    requires Contained(cfg, stream, fetch, s)
    ensures s.history != []
  {
  }

  lemma PumpContains(cfg: Config, stream: Option<Lie>, s: State)
    requires s.history != [] && SaidConn(cfg, s.history, stream, s.conn) && HandlerNext(cfg, s, Pump).Some?
    ensures SaidConn(cfg, s.history, stream, HandlerNext(cfg, s, Pump).value.conn)
  {
    assert s.conn.queue[0] in s.conn.queue;
    WriteIsSaid(cfg, s.history, stream, s.conn, s.conn.queue[0]);
  }

  lemma OpeningContains(cfg: Config, stream: Option<Lie>, s: State, step: Step)
    requires s.history != [] && SaidConn(cfg, s.history, stream, s.conn)
    requires !step.InitRow? && !step.Pump? && HandlerNext(cfg, s, step).Some?
    ensures SaidConn(cfg, s.history, stream, HandlerNext(cfg, s, step).value.conn)
  {
    hide Said, SaidFrame;
  }

  lemma InitRowContains(cfg: Config, stream: Option<Lie>, s: State, hash: string)
    requires cfg.atomicReads && SaneStore(s) && SaidConn(cfg, s.history, stream, s.conn)
    requires HandlerNext(cfg, s, InitRow(hash)).Some?
    ensures SaidConn(cfg, s.history, stream, HandlerNext(cfg, s, InitRow(hash)).value.conn)
  {
    if s.conn.phase.rev > s.conn.since {
      var l := LoadNext(cfg, s.history, HasRev(s.conn.phase.rev), hash).value;
      if l.Loaded? { WriteIsSaid(cfg, s.history, stream, s.conn.(phase := Live), l.s); }
    }
  }

  /** Through the gate, from where the lie is out of reach. */
  lemma GateContains(cfg: Config, h: seq<Row>, lie: Option<Lie>, current: Snapshot, x: Snapshot)
    requires Said(h, None, current) && Said(h, lie, x)
    requires lie.Some? ==> current.revision >= lie.value.rev
    ensures Said(h, None, Gate(current, Normal(x))) && Gate(current, Normal(x)).revision >= current.revision
    ensures Said(h, None, Gate(current, x)) || x.revision <= current.revision
  {
    assert Body(Filled(Normal(x))) == Body(x);
  }

  /** A delta that chains onto the truth, from where the lie is out of reach, leads to the truth. */
  lemma ApplyContains(cfg: Config, h: seq<Row>, lie: Option<Lie>, current: Snapshot, d: Delta)
    requires cfg.deltas && SaidDelta(h, lie, d) && Said(h, None, current) && d.from == current.revision
    requires lie.Some? ==> 0 <= lie.value.rev < |h| && Beyond(cfg, h, lie.value, current.revision)
    ensures Said(h, None, SdkApply(current, d)) && SdkApply(current, d).revision > current.revision
  {
    var b, n :| SaidRow(h, lie, d.from, b) && SaidRow(h, lie, d.revision, n) && Tells(d, b, n);
    assert n == h[d.revision] && SameContent(b, Body(current));
    PatchInvertsDiff(b.values, n.values);
    PatchInvertsDiff(b.targeting, n.targeting);
  }

  /** A running consumer that holds the truth at no lower revisions stays out of reach. */
  lemma MovesUp(cfg: Config, stream: Option<Lie>, fetch: Option<Lie>, s: State, s': State)
    requires Contained(cfg, stream, fetch, s) && s.consumer.Running? && s'.consumer.Running?
    requires s'.history == s.history && s'.versions == s.versions && s'.listener == s.listener
    requires SaidConn(cfg, s'.history, stream, s'.conn) && SaidFetches(s'.history, fetch, s'.fetches)
    requires TrueConsumer(s')
    requires s'.consumer.current.revision >= s.consumer.current.revision && Lowest(s') >= Lowest(s)
    ensures Contained(cfg, stream, fetch, s')
  {
    hide SaidConn, SaidFetches, TrueConsumer, Lowest;
  }

  lemma RestIsSaid(cfg: Config, h: seq<Row>, lie: Option<Lie>, c: Conn)
    requires c.Conn? && c.wire != [] && SaidConn(cfg, h, lie, c)
    ensures SaidFrame(cfg, h, lie, c.wire[0]) && SaidConn(cfg, h, lie, c.(wire := c.wire[1..]))
  {
    hide SaidFrame;
    assert forall g :: g in c.wire[1..] ==> g in c.wire;
  }

  lemma ReceiveContains(cfg: Config, stream: Option<Lie>, fetch: Option<Lie>, s: State)
    requires Contained(cfg, stream, fetch, s)
    requires s.conn.Conn? && s.conn.wire != [] && s.consumer.Running? && s.consumer.applying.None?
    ensures Contained(cfg, stream, fetch, ReceiveFrame(s))
  {
    hide SaidDelta, SaneStore, SaidConn, Gate, SdkApply;
    var f, current := s.conn.wire[0], s.consumer.current;
    RestIsSaid(cfg, s.history, stream, s.conn);
    match f {
      case Bare(x) => GateContains(cfg, s.history, stream, current, x);
      case Full(x) => GateContains(cfg, s.history, stream, current, x);
      case Incremental(d) =>
        if d.from == current.revision { ApplyContains(cfg, s.history, stream, current, d); }
    }
    MovesUp(cfg, stream, fetch, s, ReceiveFrame(s));
  }

  lemma FetchContains(cfg: Config, stream: Option<Lie>, fetch: Option<Lie>, s: State, i: nat, hash: string)
    requires cfg.atomicReads && Contained(cfg, stream, fetch, s)
    requires i < |s.fetches| && s.consumer.Running? && FetchNext(cfg, s, i, hash).Some?
    ensures Contained(cfg, stream, fetch, FetchNext(cfg, s, i, hash).value)
  {
    hide SaidConn, SaneStore, Gate;
    var f, s' := s.fetches[i], FetchNext(cfg, s, i, hash).value;
    assert f in s.fetches && SaidLoad(s.history, fetch, f.load);
    forall g | g in Without(s.fetches, i) ensures g in s.fetches {}
    if f.load.Loaded? {
      GateContains(cfg, s.history, fetch, s.consumer.current, f.load.s);
    } else if !f.load.Missing? {
      LoadIsTrue(cfg, s.history, fetch, f.load, hash);
      forall g | g in s'.fetches ensures g == s'.fetches[i] || g in s.fetches {}
    }
    MovesUp(cfg, stream, fetch, s, s');
  }

  lemma StartContains(cfg: Config, stream: Option<Lie>, fetch: Option<Lie>, s: State, hash: string)
    requires cfg.atomicReads && Contained(cfg, stream, fetch, s) && ConsumerNext(cfg, s, StartStep(hash)).Some?
    ensures Contained(cfg, stream, fetch, ConsumerNext(cfg, s, StartStep(hash)).value)
  {
    hide SaidConn;
    var l := s.consumer.load;
    if l.Loaded? {
      assert Body(Filled(Normal(l.s))) == Body(l.s);
    } else if !l.Missing? {
      LoadIsTrue(cfg, s.history, None, l, hash);
      assert IsVersion(s.versions, s.history[Head(s)]) || Head(s) == 0;
    }
  }

  lemma ConsumerContains(cfg: Config, stream: Option<Lie>, fetch: Option<Lie>, s: State, step: Step)
    requires cfg.atomicReads && Contained(cfg, stream, fetch, s) && ConsumerNext(cfg, s, step).Some?
    ensures Contained(cfg, stream, fetch, ConsumerNext(cfg, s, step).value)
  {
    hide SaidConn;
    match step
    case StartStep(hash) => StartContains(cfg, stream, fetch, s, hash);
    case Receive => ReceiveContains(cfg, stream, fetch, s);
    case FinishApply =>
      assert Body(Filled(s.consumer.applying.value)) == Body(s.consumer.applying.value);
      MovesUp(cfg, stream, fetch, s, ConsumerNext(cfg, s, step).value);
    case FetchStep(i, hash) => FetchContains(cfg, stream, fetch, s, i, hash);
    case FetchFail(i) => forall g | g in Without(s.fetches, i) ensures g in s.fetches {}
    case _ =>
  }

  lemma StepContains(cfg: Config, stream: Option<Lie>, fetch: Option<Lie>, s: State, step: Step)
    requires cfg.atomicReads && Contained(cfg, stream, fetch, s) && Next(cfg, s, step).Some?
    ensures Contained(cfg, stream, fetch, Next(cfg, s, step).value)
  {
    hide SaidConn, SaidFetches, TrueConsumer, OutOfReach, ListenerNext, HandlerNext, ConsumerNext;
    match step
    case Save(values, targeting) =>
      CommitContains(cfg, stream, fetch, s, Row(|s.versions| + 1, values, targeting), Next(cfg, s, step).value);
    case Rollback(v) => CommitContains(cfg, stream, fetch, s, s.versions[v - 1], Next(cfg, s, step).value);
    case TakeNotify => ListenerContains(cfg, stream, fetch, s, step);
    case LoseNotify => ListenerContains(cfg, stream, fetch, s, step);
    case ListenerStep(_) => ListenerContains(cfg, stream, fetch, s, step);
    case ListenerFail => ListenerContains(cfg, stream, fetch, s, step);
    case Publish(_) => ListenerContains(cfg, stream, fetch, s, step);
    case Connect => HandlerContains(cfg, stream, fetch, s, step);
    case Disconnected => HandlerContains(cfg, stream, fetch, s, step);
    case Subscribe => HandlerContains(cfg, stream, fetch, s, step);
    case InitRev => HandlerContains(cfg, stream, fetch, s, step);
    case InitRow(_) => HandlerContains(cfg, stream, fetch, s, step);
    case InitFail => HandlerContains(cfg, stream, fetch, s, step);
    case Pump => HandlerContains(cfg, stream, fetch, s, step);
    case _ => ConsumerContains(cfg, stream, fetch, s, step);
  }

  lemma {:induction false} ExecContains(
      cfg: Config, stream: Option<Lie>, fetch: Option<Lie>, s: State, steps: seq<Step>)
    requires cfg.atomicReads && Contained(cfg, stream, fetch, s) && Exec(cfg, s, steps).Some?
    ensures Contained(cfg, stream, fetch, Exec(cfg, s, steps).value)
    decreases |steps|
  {
    hide Contained, Next;
    if steps != [] {
      StepContains(cfg, stream, fetch, s, steps[0]);
      ExecContains(cfg, stream, fetch, Next(cfg, s, steps[0]).value, steps[1..]);
    }
  }
}

/** Exactly which torn loads are harmless. */
module DeliveryTornLoads {
  import opened Json
  import opened Targeting
  import opened Delta
  import opened StreamHandler
  import opened Client
  import opened Delivery
  import opened DeliveryProof
  import opened DeliveryLies
  import opened DeliveryRunning
  import opened DeliveryTheorems

  /** Buffers are bounded, and nothing is written before the handler has gated. */
  predicate Orderly(s: State) {
    s.conn.Conn? ==>
      |s.conn.queue| <= SUBSCRIBER_BUFFER && (!s.conn.phase.Live? ==> s.conn.wire == [] && s.conn.baseline.None?)
  }

  lemma StepKeepsOrderly(cfg: Config, s: State, step: Step)
    requires s.history != [] && Orderly(s) && Next(cfg, s, step).Some?
    ensures Orderly(Next(cfg, s, step).value)
  {
    hide Gate, LoadNext;
  }

  /** The consumer, once it runs, holds what the store made current at its revision. */
  predicate Agrees(s: State) {
    s.consumer.Running? ==>
      var current := s.consumer.current;
      0 <= current.revision < |s.history| && Body(current) == s.history[current.revision]
  }

  // ---------------------------------------------------------------- a torn load

  /** The revision the load behind a step has read, if it is at its second statement. */
  function ReadRev(s: State, step: Step): Option<int> {
    match step
    case ListenerStep(_) =>
      if s.listener.Some? && s.listener.value.HasRev? then Some(s.listener.value.rev) else None
    case InitRow(_) => if s.conn.Conn? && s.conn.phase.Gating? then Some(s.conn.phase.rev) else None
    case StartStep(_) =>
      if s.consumer.Starting? && s.consumer.load.HasRev? then Some(s.consumer.load.rev) else None
    case FetchStep(i, _) =>
      if i < |s.fetches| && s.fetches[i].load.HasRev? then Some(s.fetches[i].load.rev) else None
    case _ => None
  }

  /** A step the code takes and the atomic-loads hypothesis excludes: a load with another revision's row. */
  ghost predicate Torn(cfg: Config, s: State, step: Step, s1: State)
    requires s.history != []
  {
    Next(cfg.(atomicReads := false), s, step) == Some(s1) && Next(cfg, s, step).None?
  }

  lemma TornMeans(cfg: Config, s: State, step: Step, s1: State)
    requires cfg.atomicReads && Sane(cfg, s) && Torn(cfg, s, step, s1)
    ensures ReadRev(s, step).Some?
    ensures var r := ReadRev(s, step).value;
            0 <= r < Head(s) && s.history[r] != s.history[Head(s)] && (step.InitRow? ==> r > s.conn.since)
  {
    hide ReceiveFrame, WriteFrame, Gate, Fits, FitsFrame, BuildSnapshot, Commit, Without;
    if step.FetchStep? && step.i < |s.fetches| { assert s.fetches[step.i] in s.fetches; }
  }

  function LieOf(s: State, step: Step): Lie
    requires s.history != [] && ReadRev(s, step).Some?
  {
    Lie(ReadRev(s, step).value, s.history[Head(s)])
  }

  /** Which torn loads do no harm, judged before the load. */
  predicate HarmlessLoad(cfg: Config, s: State, step: Step)
    requires s.history != [] && ReadRev(s, step).Some? && 0 <= ReadRev(s, step).value < |s.history|
  {
    match step
    case StartStep(_) => false
    case FetchStep(_, _) => s.consumer.Running? && s.consumer.current.revision >= ReadRev(s, step).value
    case _ => Beyond(cfg, s.history, LieOf(s, step), Lowest(s))
  }

  // ---------------------------------------------------------------- harmless ones

  lemma SaneIsContained(cfg: Config, s: State)
    requires cfg.atomicReads && Sane(cfg, s)
    ensures Contained(cfg, None, None, s)
  {
    if s.conn.Conn? {
      forall f | f in s.conn.wire ensures SaidFrame(cfg, s.history, None, f) {
        assert FitsFrame(cfg, s.history, f);
        if f.Incremental? {
          var b, n := s.history[f.d.from], s.history[f.d.revision];
          assert SaidRow(s.history, None, f.d.from, b) && SaidRow(s.history, None, f.d.revision, n) && Tells(f.d, b, n);
        }
      }
    }
    forall f | f in s.fetches ensures SaidLoad(s.history, None, f.load) { assert SaneFetch(cfg, s.history, f); }
  }

  lemma SaidMore(cfg: Config, h: seq<Row>, lie: Option<Lie>, c: Conn)
    requires SaidConn(cfg, h, None, c)
    ensures SaidConn(cfg, h, lie, c)
  {
    if c.Conn? {
      forall f | f in c.wire ensures SaidFrame(cfg, h, lie, f) {
        assert SaidFrame(cfg, h, None, f);
        if f.Incremental? {
          var b, n :| SaidRow(h, None, f.d.from, b) && SaidRow(h, None, f.d.revision, n) && Tells(f.d, b, n);
          assert SaidRow(h, lie, f.d.from, b) && SaidRow(h, lie, f.d.revision, n);
        }
      }
    }
  }

  lemma TornInStream(cfg: Config, s: State, step: Step, s1: State)
    requires cfg.atomicReads && Sane(cfg, s) && Torn(cfg, s, step, s1) && ReadRev(s, step).Some?
    requires step.ListenerStep? || step.InitRow?
    requires 0 <= ReadRev(s, step).value < Head(s) && (step.InitRow? ==> ReadRev(s, step).value > s.conn.since)
    requires Beyond(cfg, s.history, LieOf(s, step), Lowest(s))
    ensures Contained(cfg, Some(LieOf(s, step)), None, s1)
  {
    SaneIsContained(cfg, s);
    var lie := Some(LieOf(s, step));
    SaidMore(cfg, s.history, lie, s.conn);
    if step.InitRow? {
      var snap := BuildSnapshot(s.history[Head(s)], s.conn.phase.rev, step.hash);
      assert Body(snap) == s.history[Head(s)];
      WriteIsSaid(cfg, s.history, lie, s.conn.(phase := Live), snap);
    }
    hide SaidConn, SaneStore;
  }

  lemma TornInFetch(cfg: Config, s: State, step: Step, s1: State)
    requires cfg.atomicReads && Sane(cfg, s) && Torn(cfg, s, step, s1) && ReadRev(s, step).Some? && step.FetchStep?
    requires 0 <= ReadRev(s, step).value < Head(s)
    requires s.consumer.Running? && s.consumer.current.revision >= ReadRev(s, step).value
    ensures Contained(cfg, None, Some(LieOf(s, step)), s1)
  {
    SaneIsContained(cfg, s);
    hide SaidConn, Sane;
    forall f | f in s1.fetches ensures SaidLoad(s1.history, Some(LieOf(s, step)), f.load) {
      assert f in s.fetches || f == s1.fetches[step.i];
    }
  }

  lemma HarmlessStaysTrue(cfg: Config, s: State, step: Step, s1: State, run: seq<Step>, z: State)
    requires cfg.atomicReads && Sane(cfg, s) && Torn(cfg, s, step, s1) && ReadRev(s, step).Some?
    requires 0 <= ReadRev(s, step).value < Head(s) && (step.InitRow? ==> ReadRev(s, step).value > s.conn.since)
    requires HarmlessLoad(cfg, s, step) && Exec(cfg, s1, run) == Some(z)
    ensures Agrees(z)
  {
    hide Sane, Torn, Beyond, Exec;
    if step.FetchStep? {
      TornInFetch(cfg, s, step, s1);
      ExecContains(cfg, None, Some(LieOf(s, step)), s1, run);
    } else {
      TornInStream(cfg, s, step, s1);
      ExecContains(cfg, Some(LieOf(s, step)), None, s1, run);
    }
  }

  // ---------------------------------------------------------------- the others mislead

  lemma PatchNothing<V>(m: map<string, V>, v: map<string, V>)
    ensures Patch(m, Diff(v, v)) == m
  {
    PatchDiffGives(m, v, v, m);
  }

  /** A snapshot of a later save of the same content as the lie. */
  predicate Echo(s: State, row: Row, rev: int, x: Snapshot) {
    0 <= rev < x.revision < |s.history| && Body(x) == s.history[x.revision] && SameContent(Body(x), row)
  }

  /** Live on a connection, with at least the last j publications echoes. */
  ghost predicate Echoing(s: State, row: Row, rev: int, j: nat) {
    && s.conn.Conn? && s.conn.phase.Live? && j <= |s.conn.queue| <= SUBSCRIBER_BUFFER
    && 0 <= rev < |s.history|
    && s.listener.None?
    && forall i :: |s.conn.queue| - j <= i < |s.conn.queue| ==> Echo(s, row, rev, s.conn.queue[i])
  }

  /** Another save of that content, loaded by the Listener. */
  lemma Resaves(cfg: Config, s0: State, run: seq<Step>, s: State, row: Row) returns (run': seq<Step>, s': State)
    requires cfg.atomicReads && Exec(cfg, s0, run) == Some(s) && s.history != [] && s.listener.None?
    ensures Exec(cfg, s0, run') == Some(s')
    ensures var echo := Row(|s.versions| + 1, row.values, row.targeting);
            && s'.history == s.history + [echo] && s'.listener == Some(Loaded(BuildSnapshot(echo, |s.history|, "")))
            && s'.conn == s.conn && s'.consumer == s.consumer
  {
    hide Exec, HandlerNext, ConsumerNext;
    var s1, s2, s3;
    run', s1 := Then(cfg, s0, run, s, Save(row.values, row.targeting));
    run', s2 := Then(cfg, s0, run', s1, TakeNotify);
    run', s3 := Then(cfg, s0, run', s2, ListenerStep(""));
    run', s' := Then(cfg, s0, run', s3, ListenerStep(""));
  }

  lemma Requeued(s: State, s': State, row: Row, rev: int, j: nat, drop: nat, x: Snapshot)
    requires Echoing(s, row, rev, j) && j < SUBSCRIBER_BUFFER && s.history <= s'.history
    requires drop == (if |s.conn.queue| == SUBSCRIBER_BUFFER then 1 else 0) && Echo(s', row, rev, x)
    requires s'.listener.None? && s'.conn == s.conn.(queue := s.conn.queue[drop..] + [x])
    ensures Echoing(s', row, rev, j + 1)
  {
    forall i | |s'.conn.queue| - (j + 1) <= i < |s'.conn.queue| ensures Echo(s', row, rev, s'.conn.queue[i]) {
      if i < |s'.conn.queue| - 1 {
        assert s'.conn.queue[i] == s.conn.queue[i + drop] && Echo(s, row, rev, s.conn.queue[i + drop]);
      }
    }
  }

  /** And published. */
  lemma Echoes(cfg: Config, s0: State, run: seq<Step>, s: State, row: Row, rev: int, j: nat)
    returns (run': seq<Step>, s': State)
    requires cfg.atomicReads && Exec(cfg, s0, run) == Some(s) && Echoing(s, row, rev, j) && j < SUBSCRIBER_BUFFER
    ensures Exec(cfg, s0, run') == Some(s') && Echoing(s', row, rev, j + 1)
    ensures s'.consumer == s.consumer && s'.conn.wire == s.conn.wire && s'.conn.baseline == s.conn.baseline
    ensures s.history <= s'.history
  {
    hide Exec, HandlerNext, ConsumerNext;
    var s1;
    run', s1 := Resaves(cfg, s0, run, s, row);
    var x := s1.listener.value.s;
    var drop := if |s.conn.queue| == SUBSCRIBER_BUFFER then 1 else 0;
    run', s' := Then(cfg, s0, run', s1, Publish(drop));
    Requeued(s, s', row, rev, j, drop, x);
  }

  /**
   * The handler's baseline is the lie, the consumer is at its revision with the truth: a delta to a
   * later save of the lie's content says nothing, and the consumer takes its values for that save's.
   */
  lemma EmptyDeltaMisleads(cfg: Config, s0: State, run: seq<Step>, s: State, lie: Lie, torn: Snapshot)
    returns (run': seq<Step>, z: State)
    requires cfg.atomicReads && cfg.deltas && Exec(cfg, s0, run) == Some(s) && Orderly(s)
    requires s.conn.Conn? && s.conn.phase.Live? && s.conn.wire == [] && s.conn.baseline == Some(torn)
    requires torn.revision == lie.rev && Body(torn) == lie.row && 0 <= lie.rev < |s.history|
    requires s.consumer.Running? && s.consumer.applying.None? && s.consumer.current.revision == lie.rev
    requires !SameContent(Body(s.consumer.current), lie.row)
    ensures Exec(cfg, s0, run') == Some(z) && !Agrees(z)
  {
    var s1 := s;
    run' := run;
    if s.listener.Some? { run', s1 := Then(cfg, s0, run', s, ListenerFail); }
    var s2, s3, s4, s5;
    run', s2 := Echoes(cfg, s0, run', s1, lie.row, lie.rev, 0);
    run', s3 := Echoes(cfg, s0, run', s2, lie.row, lie.rev, 1);
    run', s4 := Echoes(cfg, s0, run', s3, lie.row, lie.rev, 2);
    run', s5 := Echoes(cfg, s0, run', s4, lie.row, lie.rev, 3);
    run', z := EchoMisleads(cfg, s0, run', s5, lie, torn);
  }

  lemma EchoMisleads(cfg: Config, s0: State, run: seq<Step>, s: State, lie: Lie, torn: Snapshot)
    returns (run': seq<Step>, z: State)
    requires cfg.deltas && Exec(cfg, s0, run) == Some(s) && Echoing(s, lie.row, lie.rev, SUBSCRIBER_BUFFER)
    requires s.conn.wire == [] && s.conn.baseline == Some(torn) && torn.revision == lie.rev && Body(torn) == lie.row
    requires s.consumer.Running? && s.consumer.applying.None? && s.consumer.current.revision == lie.rev
    requires !SameContent(Body(s.consumer.current), lie.row)
    ensures Exec(cfg, s0, run') == Some(z) && !Agrees(z)
  {
    var x, current := s.conn.queue[0], s.consumer.current;
    assert Echo(s, lie.row, lie.rev, x);
    run', z := DeltaArrives(cfg, s0, run, s, torn, x);
    DeltaOfSame(current, torn, x);
  }

  /** A delta between snapshots of one content takes over the content it finds. */
  lemma DeltaOfSame(current: Snapshot, torn: Snapshot, x: Snapshot)
    requires SameContent(Body(torn), Body(x))
    ensures SameContent(Body(SdkApply(current, ComputeDelta(torn, x))), Body(current))
  {
    PatchNothing(current.values, x.values);
    PatchNothing(Rules(current.targeting), Rules(x.targeting));
  }

  lemma DeltaArrives(cfg: Config, s0: State, run: seq<Step>, s: State, torn: Snapshot, x: Snapshot)
    returns (run': seq<Step>, z: State)
    requires cfg.deltas && Exec(cfg, s0, run) == Some(s) && s.history != []
    requires s.conn.Conn? && s.conn.phase.Live? && s.conn.wire == [] && s.conn.queue != [] && s.conn.queue[0] == x
    requires s.conn.baseline == Some(torn) && torn.revision < x.revision
    requires s.consumer.Running? && s.consumer.applying.None? && s.consumer.current.revision == torn.revision
    ensures Exec(cfg, s0, run') == Some(z) && z.consumer.Running? && z.history == s.history
    ensures z.consumer.current == Filled(SdkApply(s.consumer.current, ComputeDelta(torn, x)))
    ensures z.consumer.current.revision == x.revision
  {
    hide Patch, Diff, Exec, ListenerNext, ConsumerNext;
    var s1;
    run', s1 := Then(cfg, s0, run, s, Pump);
    assert s1.conn.wire == [Incremental(ComputeDelta(torn, x))];
    run', z := DeltaTaken(cfg, s0, run', s1, ComputeDelta(torn, x));
  }

  lemma DeltaTaken(cfg: Config, s0: State, run: seq<Step>, s: State, d: Delta) returns (run': seq<Step>, z: State)
    requires Exec(cfg, s0, run) == Some(s) && s.history != []
    requires s.conn.Conn? && s.conn.wire == [Incremental(d)] && d.from < d.revision
    requires s.consumer.Running? && s.consumer.applying.None? && s.consumer.current.revision == d.from
    ensures Exec(cfg, s0, run') == Some(z) && z.consumer.Running? && z.history == s.history
    ensures z.consumer.current == Filled(SdkApply(s.consumer.current, d)) && z.consumer.current.revision == d.revision
  {
    hide Patch, Exec, ListenerNext, HandlerNext, FetchNext;
    var s1;
    run', s1 := Then(cfg, s0, run, s, Receive);
    assert s1.consumer == Running(s.consumer.current, Some(SdkApply(s.consumer.current, d)));
    run', z := Then(cfg, s0, run', s1, FinishApply);
  }

  /** The lie on the wire as a full frame, for a consumer that is not beyond it. */
  lemma FullFrameMisleads(cfg: Config, s0: State, run: seq<Step>, s: State, lie: Lie, torn: Snapshot)
    returns (run': seq<Step>, z: State)
    requires cfg.atomicReads && Exec(cfg, s0, run) == Some(s) && Orderly(s)
    requires s.conn.Conn? && s.conn.phase.Live? && s.conn.wire == [FrameFor(cfg.deltas, None, torn)]
    requires s.conn.baseline == BaselineAfter(cfg.deltas, None, torn)
    requires torn.revision == lie.rev && Body(torn) == lie.row && 0 <= lie.rev < |s.history|
    requires s.history[lie.rev] != lie.row
    requires s.consumer.Running? && s.consumer.applying.None? && Agrees(s)
    requires !Beyond(cfg, s.history, lie, s.consumer.current.revision)
    ensures Exec(cfg, s0, run') == Some(z) && !Agrees(z)
  {
    var s1;
    run', s1 := Then(cfg, s0, run, s, Receive);
    assert s1.conn.wire == [];
    if s.consumer.current.revision < lie.rev {
      z := s1;
      assert z.consumer.current == Filled(Normal(torn));
      assert Body(Filled(Normal(torn))) == Body(torn);
    } else {
      assert s1.consumer == s.consumer;
      run', z := EmptyDeltaMisleads(cfg, s0, run', s1, lie, torn);
    }
  }

  /** A consumer that has yet to start, or to finish applying, gets to its lowest revision. */
  lemma Settles(cfg: Config, s0: State, run: seq<Step>, s: State, lie: Lie)
    returns (run': seq<Step>, s': State)
    requires cfg.atomicReads && Exec(cfg, s0, run) == Some(s)
    requires SaneStore(s) && TrueConsumer(s) && Orderly(s) && 0 <= lie.rev < Head(s) && Lowest(s) <= lie.rev
    ensures Exec(cfg, s0, run') == Some(s')
    ensures s.history <= s'.history && s'.conn == s.conn && s'.listener == s.listener
    ensures s'.consumer.Running? && s'.consumer.applying.None? && Agrees(s')
    ensures s'.consumer.current.revision == Lowest(s)
  {
    hide Exec, ListenerNext, HandlerNext, ReceiveFrame, FetchNext, Beyond;
    run', s' := run, s;
    if s.consumer.Running? {
      if s.consumer.applying.Some? {
        run', s' := Then(cfg, s0, run', s, FinishApply);
        assert Body(Filled(s.consumer.applying.value)) == Body(s.consumer.applying.value);
      }
    } else if s.consumer.load.HasRev? {
      var q := s.consumer.load.rev;
      assert q >= 1 && IsVersion(s.versions, s.history[q]);
      var s1, s2;
      run', s1 := Then(cfg, s0, run', s, Rollback(s.history[q].version));
      assert s1.history == s.history + [s.history[q]];
      run', s2 := Then(cfg, s0, run', s1, StartStep(""));
      assert s2.consumer == Starting(Loaded(BuildSnapshot(s.history[q], q, "")));
      run', s' := Then(cfg, s0, run', s2, StartStep(""));
    } else {
      if s.consumer.load.Loaded? { assert Body(Filled(Normal(s.consumer.load.s))) == Body(s.consumer.load.s); }
      run', s' := Then(cfg, s0, run', s, StartStep(""));
    }
  }

  /** A new connection whose initial load failed. */
  lemma Reconnects(cfg: Config, s0: State, run: seq<Step>, s: State) returns (run': seq<Step>, s': State)
    requires Exec(cfg, s0, run) == Some(s) && s.history != [] && s.consumer.Running?
    ensures Exec(cfg, s0, run') == Some(s')
    ensures s'.history == s.history && s'.consumer == s.consumer && s'.listener == s.listener
    ensures s'.conn == Conn(s.consumer.current.revision, Live, [], None, [])
  {
    hide Exec, ListenerNext, ConsumerNext, Gate, WriteFrame;
    run', s' := run, s;
    if s.conn.Conn? { run', s' := Then(cfg, s0, run', s, Disconnected); }
    run', s' := Then(cfg, s0, run', s', Connect);
    run', s' := Then(cfg, s0, run', s', Subscribe);
    run', s' := Then(cfg, s0, run', s', InitRev);
    run', s' := Then(cfg, s0, run', s', InitFail);
  }

  lemma ListenerMisleads(cfg: Config, s: State, lie: Lie, torn: Snapshot) returns (run: seq<Step>, z: State)
    requires cfg.atomicReads && SaneStore(s) && TrueConsumer(s) && Orderly(s)
    requires s.listener == Some(Loaded(torn)) && torn.revision == lie.rev && Body(torn) == lie.row
    requires 0 <= lie.rev < Head(s) && s.history[lie.rev] != lie.row
    requires !Beyond(cfg, s.history, lie, Lowest(s))
    ensures Exec(cfg, s, run) == Some(z) && !Agrees(z)
  {
    hide Exec, ConsumerNext, TrueConsumer, SaneStore, Lowest;
    RunNothing(cfg, s);
    var s1, s2, s3, s4;
    run, s1 := Settles(cfg, s, [], s, lie);
    run, s2 := Reconnects(cfg, s, run, s1);
    run, s3 := Then(cfg, s, run, s2, Publish(0));
    assert s3.conn.queue == [torn];
    run, s4 := Then(cfg, s, run, s3, Pump);
    assert s4.conn.wire == [FrameFor(cfg.deltas, None, torn)] && s4.conn.queue == [];
    assert s4.history[lie.rev] == s.history[lie.rev];
    run, z := FullFrameMisleads(cfg, s, run, s4, lie, torn);
  }

  lemma InitialFrameMisleads(cfg: Config, s: State, lie: Lie, torn: Snapshot) returns (run: seq<Step>, z: State)
    requires cfg.atomicReads && SaneStore(s) && TrueConsumer(s) && Orderly(s) && s.consumer.Running?
    requires s.conn.Conn? && s.conn.phase.Live? && s.conn.wire == [FrameFor(cfg.deltas, None, torn)]
    requires s.conn.baseline == BaselineAfter(cfg.deltas, None, torn)
    requires torn.revision == lie.rev && Body(torn) == lie.row
    requires 0 <= lie.rev < Head(s) && s.history[lie.rev] != lie.row
    requires !Beyond(cfg, s.history, lie, Lowest(s))
    ensures Exec(cfg, s, run) == Some(z) && !Agrees(z)
  {
    var s1;
    run, s1 := Settles(cfg, s, [], s, lie);
    assert s1.history[lie.rev] == s.history[lie.rev];
    run, z := FullFrameMisleads(cfg, s, run, s1, lie, torn);
  }

  lemma FetchMisleads(cfg: Config, s: State, i: nat, lie: Lie, torn: Snapshot) returns (run: seq<Step>, z: State)
    requires s.history != [] && s.consumer.Running? && i < |s.fetches| && s.fetches[i].load == Loaded(torn)
    requires torn.revision == lie.rev && Body(torn) == lie.row
    requires 0 <= lie.rev < |s.history| && s.history[lie.rev] != lie.row && s.consumer.current.revision < lie.rev
    ensures Exec(cfg, s, run) == Some(z) && !Agrees(z)
  {
    run, z := Then(cfg, s, [], s, FetchStep(i, ""));
    assert Body(Filled(Normal(torn))) == Body(torn);
  }

  lemma StartMisleads(cfg: Config, s: State, lie: Lie, torn: Snapshot) returns (run: seq<Step>, z: State)
    requires s.history != [] && s.consumer == Starting(Loaded(torn))
    requires torn.revision == lie.rev && Body(torn) == lie.row
    requires 0 <= lie.rev < |s.history| && s.history[lie.rev] != lie.row
    ensures Exec(cfg, s, run) == Some(z) && !Agrees(z)
  {
    run, z := Then(cfg, s, [], s, StartStep(""));
    assert Body(Filled(Normal(torn))) == Body(torn);
  }

  function HashOf(step: Step): string {
    match step
    case ListenerStep(hash) => hash
    case InitRow(hash) => hash
    case StartStep(hash) => hash
    case FetchStep(_, hash) => hash
    case _ => ""
  }

  function TornSnapshot(s: State, step: Step): Snapshot
    requires s.history != [] && ReadRev(s, step).Some?
  {
    BuildSnapshot(s.history[Head(s)], ReadRev(s, step).value, HashOf(step))
  }

  /** Where the torn snapshot is. */
  lemma AfterTorn(cfg: Config, s: State, step: Step, s1: State)
    requires cfg.atomicReads && Sane(cfg, s) && Orderly(s) && Torn(cfg, s, step, s1) && ReadRev(s, step).Some?
    requires 0 <= ReadRev(s, step).value < Head(s) && (step.InitRow? ==> ReadRev(s, step).value > s.conn.since)
    ensures SaneStore(s1) && Orderly(s1) && TrueConsumer(s) && Body(TornSnapshot(s, step)) == s.history[Head(s)]
    ensures var torn := TornSnapshot(s, step);
            match step
            case ListenerStep(_) => s1 == s.(listener := Some(Loaded(torn)))
            case InitRow(_) => s1 == s.(conn := WriteFrame(cfg, s.conn.(phase := Live), torn)) && s.consumer.Running?
            case StartStep(_) => s1 == s.(consumer := Starting(Loaded(torn)))
            case FetchStep(i, _) =>
              s.consumer.Running? && s1 == s.(fetches := s.fetches[i := s.fetches[i].(load := Loaded(torn))])
            case _ => true
  {
    SaneIsContained(cfg, s);
    StepKeepsOrderly(cfg.(atomicReads := false), s, step);
  }

  lemma HarmfulLoad(cfg: Config, s: State, step: Step, s1: State) returns (run: seq<Step>, z: State)
    requires cfg.atomicReads && Sane(cfg, s) && Orderly(s) && Torn(cfg, s, step, s1) && ReadRev(s, step).Some?
    requires 0 <= ReadRev(s, step).value < Head(s) && s.history[ReadRev(s, step).value] != s.history[Head(s)]
    requires step.InitRow? ==> ReadRev(s, step).value > s.conn.since
    requires !HarmlessLoad(cfg, s, step)
    ensures Exec(cfg, s1, run) == Some(z) && !Agrees(z)
  {
    hide Sane, SaneStore, Torn, Beyond, Next, Exec, Agrees;
    var lie, torn := LieOf(s, step), TornSnapshot(s, step);
    AfterTorn(cfg, s, step, s1);
    match step
    case ListenerStep(_) => run, z := ListenerMisleads(cfg, s1, lie, torn);
    case InitRow(_) => run, z := InitialFrameMisleads(cfg, s1, lie, torn);
    case FetchStep(i, _) => run, z := FetchMisleads(cfg, s1, i, lie, torn);
    case StartStep(_) => run, z := StartMisleads(cfg, s1, lie, torn);
  }

  /**
   * Exactly which torn loads are harmless. After one, with every later load atomic, every
   * continuation keeps agreement - if and only if the consumer is beyond the reach of the snapshot
   * loaded: for a fetch, at its revision or past it; for the Listener and the initial frame, past
   * its revision from the next frame on, or at it where deltas are off or the row differs from the
   * revision's own in its number only; for the first load, never.
   */
  lemma HarmlessTornLoads(cfg: Config, s: State, step: Step, s1: State)
    requires cfg.atomicReads && Sane(cfg, s) && Orderly(s) && Torn(cfg, s, step, s1)
    ensures ReadRev(s, step).Some? && 0 <= ReadRev(s, step).value < |s.history|
    ensures HarmlessLoad(cfg, s, step) <==> forall run, z :: Exec(cfg, s1, run) == Some(z) ==> Agrees(z)
  {
    TornMeans(cfg, s, step, s1);
    hide Sane, Orderly, Torn, HarmlessLoad;
    if HarmlessLoad(cfg, s, step) {
      forall run, z | Exec(cfg, s1, run) == Some(z) ensures Agrees(z) {
        HarmlessStaysTrue(cfg, s, step, s1, run, z);
      }
    } else {
      var run, z := HarmfulLoad(cfg, s, step, s1);
    }
  }

  lemma {:induction false} ExecKeepsOrderly(cfg: Config, s: State, steps: seq<Step>)
    requires Orderly(s) && Exec(cfg, s, steps).Some?
    ensures Orderly(Exec(cfg, s, steps).value)
    decreases |steps|
  {
    hide Orderly, Next;
    if steps != [] {
      StepKeepsOrderly(cfg, s, steps[0]);
      ExecKeepsOrderly(cfg, Next(cfg, s, steps[0]).value, steps[1..]);
    }
  }

  /** In particular after any run whose loads were atomic so far. */
  lemma FirstTornLoad(cfg: Config, before: seq<Step>, s: State, step: Step, s1: State)
    requires cfg.atomicReads && Reachable(cfg, before, s) && s.history != [] && Torn(cfg, s, step, s1)
    ensures ReadRev(s, step).Some? && 0 <= ReadRev(s, step).value < |s.history|
    ensures HarmlessLoad(cfg, s, step) <==> forall run, z :: Exec(cfg, s1, run) == Some(z) ==> Agrees(z)
  {
    hide Torn, HarmlessLoad, Agrees;
    ReachableIsSane(cfg, before, s);
    ExecKeepsOrderly(cfg, Init(), before);
    HarmlessTornLoads(cfg, s, step, s1);
  }
}
