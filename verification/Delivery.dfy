/**
 * Live delivery of one environment as a machine of small interleaved steps: the store, the
 * NOTIFY queue, the Listener with its loader, the Hub buffer, the stream handler, the wire, and
 * the consumer with its stream, resyncs and polls.
 */
module Delivery {
  import opened Json
  import opened Targeting
  import opened Delta
  import opened StreamHandler
  import opened Client

  /** What a config version says: everything in a snapshot a revision determines. */
  datatype Row = Row(version: int, values: Values, targeting: RuleMap)

  const EMPTY_ROW := Row(0, map[], map[])

  const SUBSCRIBER_BUFFER := 4

  function Body(s: Snapshot): Row {
    Row(s.version, s.values, Rules(s.targeting))
  }

  /**
   * deltas: the connection asked for delta frames. atomicReads: the hypothesis that every snapshot
   * pairs a revision with the row that revision made current, although the code reads them in two
   * statements.
   */
  datatype Config = Config(deltas: bool, atomicReads: bool)

  /** A snapshot being read from the store: first the revision, then the current row. */
  datatype Load = Wanted | HasRev(rev: int) | Loaded(s: Snapshot) | Missing

  datatype Fetch = Fetch(resync: bool, load: Load)

  /** Where handleStream is: not yet subscribed, subscribed, revision re-read, in its select loop. */
  datatype Phase = Opening | Subscribed | Gating(rev: int) | Live

  datatype Conn =
    | NoConn
    | Conn(since: int, phase: Phase, queue: seq<Snapshot>, baseline: Option<Snapshot>, wire: seq<Frame>)

  /** applying is the snapshot applyDeltaFrame has computed and not yet put through the gate. */
  datatype Consumer = Starting(load: Load) | Running(current: Snapshot, applying: Option<Snapshot>)

  /**
   * history[r] is the row revision r made current. healthy is false from the moment something is
   * lost on the way to the present connection (a notification, a load, a resync) until the next
   * subscription.
   */
  datatype State = State(
    versions: seq<Row>, history: seq<Row>, notifies: nat, listener: Option<Load>,
    conn: Conn, consumer: Consumer, fetches: seq<Fetch>, healthy: bool)

  datatype Step =
    | Save(values: Values, targeting: RuleMap)
    | Rollback(version: int)
    | TakeNotify | LoseNotify
    | ListenerStep(hash: string) | ListenerFail
    | Publish(drop: nat)
    | StartStep(hash: string) | StartFail
    | Connect | Subscribe | InitRev | InitRow(hash: string) | InitFail
    | Pump | Disconnected
    | Receive | FinishApply
    | StartPoll | FetchStep(i: nat, hash: string) | FetchFail(i: nat)

  function Head(s: State): int {
    |s.history| - 1
  }

  function Init(): State {
    State([], [EMPTY_ROW], 0, None, NoConn, Starting(Wanted), [], true)
  }

  function BuildSnapshot(row: Row, revision: int, hash: string): Snapshot {
    Snapshot(row.version, revision, hash, row.values, SomeRules(row.targeting))
  }

  /** The next statement of a load; None when the atomic-reads hypothesis rules it out. */
  function LoadNext(cfg: Config, history: seq<Row>, load: Load, hash: string): Option<Load>
    requires history != []
  {
    var head := |history| - 1;
    match load
    case Wanted => Some(HasRev(head))
    case HasRev(r) =>
      if cfg.atomicReads && !(0 <= r <= head && history[r] == history[head]) then None
      else if head == 0 then Some(Missing)
      else Some(Loaded(BuildSnapshot(history[head], r, hash)))
    case _ => None
  }

  ghost function WriteFrame(cfg: Config, c: Conn, snap: Snapshot): Conn
    requires c.Conn?
  {
    c.(wire := c.wire + [FrameFor(cfg.deltas, c.baseline, snap)],
       baseline := BaselineAfter(cfg.deltas, c.baseline, snap))
  }

  function Without<T>(xs: seq<T>, i: nat): seq<T>
    requires i < |xs|
  {
    xs[..i] + xs[i + 1..]
  }

  function Commit(s: State, row: Row): State {
    s.(history := s.history + [row], notifies := s.notifies + 1)
  }

  // ---------------------------------------------------------------- the actors

  function ListenerNext(cfg: Config, s: State, step: Step): Option<State>
    requires s.history != []
  {
    match step
    case TakeNotify =>
      if s.notifies > 0 && s.listener.None? then
        Some(s.(notifies := s.notifies - 1, listener := Some(Wanted)))
      else None
    case LoseNotify =>
      if s.notifies > 0 then Some(s.(notifies := s.notifies - 1, healthy := false)) else None
    case ListenerStep(hash) =>
      if s.listener.None? then None
      else if s.listener.value.Missing? then Some(s.(listener := None))
      else
        var l := LoadNext(cfg, s.history, s.listener.value, hash);
        if l.None? then None else Some(s.(listener := l))
    case ListenerFail =>
      if s.listener.Some? then Some(s.(listener := None, healthy := false)) else None
    case Publish(drop) =>
      if s.listener.None? || !s.listener.value.Loaded? then None
      else if s.conn.NoConn? || s.conn.phase.Opening? then Some(s.(listener := None))
      else if drop <= |s.conn.queue| < drop + SUBSCRIBER_BUFFER then
        Some(s.(listener := None,
                conn := s.conn.(queue := s.conn.queue[drop..] + [s.listener.value.s])))
      else None
    case _ => None
  }

  ghost function HandlerNext(cfg: Config, s: State, step: Step): Option<State>
    requires s.history != []
  {
    match step
    case Connect =>
      if s.consumer.Running? && s.conn.NoConn? then
        Some(s.(conn := Conn(s.consumer.current.revision, Opening, [], None, [])))
      else None
    case Disconnected =>
      if s.conn.Conn? then Some(s.(conn := NoConn)) else None
    case Subscribe =>
      if s.conn.Conn? && s.conn.phase.Opening? then
        Some(s.(conn := s.conn.(phase := Subscribed), healthy := true))
      else None
    case InitRev =>
      if s.conn.Conn? && s.conn.phase.Subscribed? then
        Some(s.(conn := s.conn.(phase := Gating(Head(s)))))
      else None
    case InitRow(hash) =>
      if !(s.conn.Conn? && s.conn.phase.Gating?) then None
      else
        var live := s.conn.(phase := Live);
        if s.conn.phase.rev <= s.conn.since then Some(s.(conn := live))
        else
          var l := LoadNext(cfg, s.history, HasRev(s.conn.phase.rev), hash);
          if l.None? then None
          else if l.value.Loaded? then Some(s.(conn := WriteFrame(cfg, live, l.value.s)))
          else Some(s.(conn := live))
    case InitFail =>
      if s.conn.Conn? && s.conn.phase.Gating? then
        Some(s.(conn := s.conn.(phase := Live), healthy := false))
      else None
    case Pump =>
      if s.conn.Conn? && s.conn.phase.Live? && s.conn.queue != [] then
        Some(s.(conn := WriteFrame(cfg, s.conn, s.conn.queue[0]).(queue := s.conn.queue[1..])))
      else None
    case _ => None
  }

  ghost function ReceiveFrame(s: State): State
    requires s.conn.Conn? && s.conn.wire != [] && s.consumer.Running?
  {
    var rest := s.(conn := s.conn.(wire := s.conn.wire[1..]));
    match s.conn.wire[0]
    case Bare(snap) => rest.(consumer := s.consumer.(current := Gate(s.consumer.current, Normal(snap))))
    case Full(snap) => rest.(consumer := s.consumer.(current := Gate(s.consumer.current, Normal(snap))))
    case Incremental(d) =>
      if d.from == s.consumer.current.revision then
        rest.(consumer := s.consumer.(applying := Some(SdkApply(s.consumer.current, d))))
      else rest.(fetches := s.fetches + [Fetch(true, Wanted)])
  }

  function FetchNext(cfg: Config, s: State, i: nat, hash: string): Option<State>
    requires s.history != [] && i < |s.fetches| && s.consumer.Running?
  {
    var f := s.fetches[i];
    match f.load
    case Missing => Some(s.(fetches := Without(s.fetches, i)))
    case Loaded(snap) =>
      Some(s.(fetches := Without(s.fetches, i),
              consumer := s.consumer.(current := Gate(s.consumer.current, Normal(snap)))))
    case _ =>
      var l := LoadNext(cfg, s.history, f.load, hash);
      if l.None? then None else Some(s.(fetches := s.fetches[i := f.(load := l.value)]))
  }

  ghost function ConsumerNext(cfg: Config, s: State, step: Step): Option<State>
    requires s.history != []
  {
    match step
    case StartStep(hash) =>
      if !s.consumer.Starting? then None
      else if s.consumer.load.Missing? then Some(s.(consumer := Running(EMPTY_SNAPSHOT, None)))
      else if s.consumer.load.Loaded? then
        Some(s.(consumer := Running(Filled(Normal(s.consumer.load.s)), None)))
      else
        var l := LoadNext(cfg, s.history, s.consumer.load, hash);
        if l.None? then None else Some(s.(consumer := Starting(l.value)))
    case StartFail =>
      if s.consumer.Starting? then Some(s.(consumer := Starting(Wanted))) else None
    case Receive =>
      if s.conn.Conn? && s.conn.wire != [] && s.consumer.Running? && s.consumer.applying.None? then
        Some(ReceiveFrame(s))
      else None
    case FinishApply =>
      if s.consumer.Running? && s.consumer.applying.Some? then
        Some(s.(consumer := Running(Gate(s.consumer.current, s.consumer.applying.value), None)))
      else None
    case StartPoll =>
      if s.consumer.Running? then Some(s.(fetches := s.fetches + [Fetch(false, Wanted)])) else None
    case FetchStep(i, hash) =>
      if i < |s.fetches| && s.consumer.Running? then FetchNext(cfg, s, i, hash) else None
    case FetchFail(i) =>
      if i < |s.fetches| then
        Some(s.(fetches := Without(s.fetches, i), healthy := s.healthy && !s.fetches[i].resync))
      else None
    case _ => None
  }

  /** The state after a step, or None when the step is not enabled. */
  ghost function Next(cfg: Config, s: State, step: Step): Option<State>
    requires s.history != []
  {
    match step
    case Save(values, targeting) =>
      var row := Row(|s.versions| + 1, values, targeting);
      Some(Commit(s, row).(versions := s.versions + [row]))
    case Rollback(v) =>
      if 1 <= v <= |s.versions| then Some(Commit(s, s.versions[v - 1])) else None
    case TakeNotify => ListenerNext(cfg, s, step)
    case LoseNotify => ListenerNext(cfg, s, step)
    case ListenerStep(_) => ListenerNext(cfg, s, step)
    case ListenerFail => ListenerNext(cfg, s, step)
    case Publish(_) => ListenerNext(cfg, s, step)
    case Connect => HandlerNext(cfg, s, step)
    case Disconnected => HandlerNext(cfg, s, step)
    case Subscribe => HandlerNext(cfg, s, step)
    case InitRev => HandlerNext(cfg, s, step)
    case InitRow(_) => HandlerNext(cfg, s, step)
    case InitFail => HandlerNext(cfg, s, step)
    case Pump => HandlerNext(cfg, s, step)
    case _ => ConsumerNext(cfg, s, step)
  }

  /** The state a run of steps leads to, or None when some step is not enabled where it comes. */
  ghost function Exec(cfg: Config, s: State, steps: seq<Step>): Option<State>
    decreases |steps|
  {
    if steps == [] then Some(s)
    else if s.history == [] then None
    else
      var n := Next(cfg, s, steps[0]);
      if n.None? then None else Exec(cfg, n.value, steps[1..])
  }
}
