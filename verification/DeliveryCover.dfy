/** No lost update: something that will bring the consumer to the head is always held or under way. */
module DeliveryCover {
  import opened Json
  import opened Targeting
  import opened Delta
  import opened StreamHandler
  import opened Client
  import opened Delivery
  import opened DeliveryProof

  function FrameRev(f: Frame): int {
    match f case Bare(s) => s.revision case Full(s) => s.revision case Incremental(d) => d.revision
  }

  /** A load that has not read its revision yet will read at least r. */
  predicate LoadCarries(l: Load, r: int) {
    l.Wanted? || (RevOf(l).Some? && RevOf(l).value >= r)
  }

  predicate FetchCarries(f: Fetch, r: int) {
    f.resync && LoadCarries(f.load, r)
  }

  ghost predicate WireCarries(wire: seq<Frame>, r: int) {
    exists f :: f in wire && FrameRev(f) >= r
  }

  ghost predicate QueueCarries(queue: seq<Snapshot>, r: int) {
    exists q :: q in queue && q.revision >= r
  }

  ghost predicate FetchesCarry(fetches: seq<Fetch>, r: int) {
    exists f :: f in fetches && FetchCarries(f, r)
  }

  ghost predicate ConsumerCarries(c: Consumer, r: int) {
    c.Running? && (c.current.revision >= r || (c.applying.Some? && c.applying.value.revision >= r))
  }

  ghost predicate ConnCarries(c: Conn, r: int) {
    && c.Conn?
    && (|| WireCarries(c.wire, r)
        || QueueCarries(c.queue, r)
        || c.phase.Subscribed?
        || (c.phase.Gating? && c.phase.rev >= r))
  }

  ghost predicate ListenerCarries(s: State, r: int) {
    s.notifies > 0 || (s.listener.Some? && LoadCarries(s.listener.value, r))
  }

  ghost predicate Carries(s: State, r: int) {
    || ConsumerCarries(s.consumer, r)
    || ConnCarries(s.conn, r)
    || ListenerCarries(s, r)
    || FetchesCarry(s.fetches, r)
  }

  predicate Watching(s: State) {
    s.conn.Conn? && !s.conn.phase.Opening?
  }

  ghost predicate Covered(s: State) {
    s.history != [] && (Watching(s) && s.healthy ==> Carries(s, Head(s)))
  }

  // ---------------------------------------------------------------- every step keeps it

  lemma ListenerKeepsCovered(cfg: Config, s: State, step: Step)
    requires Sane(cfg, s) && Covered(s) && ListenerNext(cfg, s, step).Some?
    requires !step.Publish?
    ensures Covered(ListenerNext(cfg, s, step).value)
  {
  }

  /** Dropping the oldest loses nothing: what is published last is at least as new. */
  lemma PublishKeepsCovered(cfg: Config, s: State, drop: nat)
    requires Sane(cfg, s) && Covered(s) && ListenerNext(cfg, s, Publish(drop)).Some?
    ensures Covered(ListenerNext(cfg, s, Publish(drop)).value)
  {
    var s' := ListenerNext(cfg, s, Publish(drop)).value;
    if Watching(s) && s.healthy {
      var snap := s.listener.value.s;
      assert s'.conn.queue == s.conn.queue[drop..] + [snap];
      assert snap in s'.conn.queue;
      if QueueCarries(s.conn.queue, Head(s)) {
        var q :| q in s.conn.queue && q.revision >= Head(s);
        assert snap.revision >= Head(s);
      }
    }
  }

  lemma WriteCarries(cfg: Config, c: Conn, snap: Snapshot, r: int)
    requires c.Conn?
    ensures snap.revision >= r || WireCarries(c.wire, r) ==> WireCarries(WriteFrame(cfg, c, snap).wire, r)
  {
    var c' := WriteFrame(cfg, c, snap);
    var f := FrameFor(cfg.deltas, c.baseline, snap);
    assert f in c'.wire && FrameRev(f) == snap.revision;
    if WireCarries(c.wire, r) {
      var g :| g in c.wire && FrameRev(g) >= r;
      assert g in c'.wire;
    }
  }

  lemma InitRowKeepsCovered(cfg: Config, s: State, hash: string)
    requires Sane(cfg, s) && Covered(s) && HandlerNext(cfg, s, InitRow(hash)).Some?
    ensures Covered(HandlerNext(cfg, s, InitRow(hash)).value)
  {
    var s' := HandlerNext(cfg, s, InitRow(hash)).value;
    if s.conn.phase.rev > s.conn.since {
      var l := LoadNext(cfg, s.history, HasRev(s.conn.phase.rev), hash).value;
      if l.Loaded? {
        WriteCarries(cfg, s.conn.(phase := Live), l.s, Head(s));
        assert s'.conn.queue == s.conn.queue;
      }
    }
  }

  lemma PumpKeepsCovered(cfg: Config, s: State)
    requires Sane(cfg, s) && Covered(s) && HandlerNext(cfg, s, Pump).Some?
    ensures Covered(HandlerNext(cfg, s, Pump).value)
  {
    var s' := HandlerNext(cfg, s, Pump).value;
    WriteCarries(cfg, s.conn, s.conn.queue[0], Head(s));
    if QueueCarries(s.conn.queue, Head(s)) {
      var q :| q in s.conn.queue && q.revision >= Head(s);
      assert q == s.conn.queue[0] || q in s'.conn.queue;
    }
  }

  lemma HandlerKeepsCovered(cfg: Config, s: State, step: Step)
    requires Sane(cfg, s) && Covered(s) && HandlerNext(cfg, s, step).Some?
    requires !step.InitRow? && !step.Pump?
    ensures Covered(HandlerNext(cfg, s, step).value)
  {
  }

  lemma FetchesCarryWithout(fetches: seq<Fetch>, i: nat, r: int)
    requires i < |fetches| && FetchesCarry(fetches, r)
    ensures FetchCarries(fetches[i], r) || FetchesCarry(Without(fetches, i), r)
  {
    var g :| g in fetches && FetchCarries(g, r);
    var j :| 0 <= j < |fetches| && fetches[j] == g;
    if j != i {
      assert Without(fetches, i)[if j < i then j else j - 1] == g;
    }
  }

  lemma FetchesCarryUpdated(fetches: seq<Fetch>, i: nat, f: Fetch, r: int)
    requires i < |fetches| && FetchesCarry(fetches, r)
    requires FetchCarries(fetches[i], r) ==> FetchCarries(f, r)
    ensures FetchesCarry(fetches[i := f], r)
  {
    var g :| g in fetches && FetchCarries(g, r);
    var j :| 0 <= j < |fetches| && fetches[j] == g;
    assert fetches[i := f][j] == if j == i then f else g;
  }

  /** A received frame ends in the gate, in a computed snapshot, or in a resync. */
  lemma ReceiveKeepsCovered(cfg: Config, s: State)
    requires Sane(cfg, s) && Covered(s)
    requires s.conn.Conn? && s.conn.wire != [] && s.consumer.Running? && s.consumer.applying.None?
    ensures Covered(ReceiveFrame(s))
  {
    var s' := ReceiveFrame(s);
    var r := Head(s);
    if Watching(s) && s.healthy {
      if WireCarries(s.conn.wire, r) {
        var f :| f in s.conn.wire && FrameRev(f) >= r;
        if f in s.conn.wire[1..] {
          assert WireCarries(s'.conn.wire, r);
        } else {
          assert f == s.conn.wire[0];
          if f.Incremental? && f.d.from != s.consumer.current.revision {
            assert Fetch(true, Wanted) in s'.fetches && FetchCarries(Fetch(true, Wanted), r);
          } else {
            assert ConsumerCarries(s'.consumer, r);
          }
        }
      } else if FetchesCarry(s.fetches, r) {
        var g :| g in s.fetches && FetchCarries(g, r);
        assert g in s'.fetches;
      }
    }
  }

  lemma FetchKeepsCovered(cfg: Config, s: State, i: nat, hash: string)
    requires Sane(cfg, s) && Covered(s) && i < |s.fetches| && s.consumer.Running?
    requires FetchNext(cfg, s, i, hash).Some?
    ensures Covered(FetchNext(cfg, s, i, hash).value)
  {
    var s' := FetchNext(cfg, s, i, hash).value;
    var r := Head(s);
    if Watching(s) && s.healthy && FetchesCarry(s.fetches, r) {
      var f := s.fetches[i];
      assert SaneFetch(cfg, s.history, f) by { assert f in s.fetches; }
      if f.load.Loaded? || f.load.Missing? {
        FetchesCarryWithout(s.fetches, i, r);
        assert FetchCarries(f, r) ==> ConsumerCarries(s'.consumer, r);
      } else {
        var l := LoadNext(cfg, s.history, f.load, hash).value;
        FetchesCarryUpdated(s.fetches, i, f.(load := l), r);
      }
    }
  }

  lemma ConsumerKeepsCovered(cfg: Config, s: State, step: Step)
    requires Sane(cfg, s) && Covered(s) && ConsumerNext(cfg, s, step).Some?
    requires step.StartStep? || step.StartFail? || step.FinishApply? || step.StartPoll? || step.FetchFail?
    ensures Covered(ConsumerNext(cfg, s, step).value)
  {
    var s' := ConsumerNext(cfg, s, step).value;
    if Watching(s) && s.healthy && FetchesCarry(s.fetches, Head(s)) {
      match step
      case FetchFail(i) => FetchesCarryWithout(s.fetches, i, Head(s));
      case StartPoll =>
        var g :| g in s.fetches && FetchCarries(g, Head(s));
        assert g in s'.fetches;
      case _ =>
    }
  }

  lemma StepKeepsCovered(cfg: Config, s: State, step: Step)
    requires Sane(cfg, s) && Covered(s) && Next(cfg, s, step).Some?
    ensures Covered(Next(cfg, s, step).value)
  {
    match step
    case Save(_, _) =>
    case Rollback(_) =>
    case TakeNotify => ListenerKeepsCovered(cfg, s, step);
    case LoseNotify => ListenerKeepsCovered(cfg, s, step);
    case ListenerStep(_) => ListenerKeepsCovered(cfg, s, step);
    case ListenerFail => ListenerKeepsCovered(cfg, s, step);
    case Publish(drop) => PublishKeepsCovered(cfg, s, drop);
    case InitRow(hash) => InitRowKeepsCovered(cfg, s, hash);
    case Pump => PumpKeepsCovered(cfg, s);
    case Connect => HandlerKeepsCovered(cfg, s, step);
    case Disconnected => HandlerKeepsCovered(cfg, s, step);
    case Subscribe => HandlerKeepsCovered(cfg, s, step);
    case InitRev => HandlerKeepsCovered(cfg, s, step);
    case InitFail => HandlerKeepsCovered(cfg, s, step);
    case Receive => ReceiveKeepsCovered(cfg, s);
    case FetchStep(i, hash) => FetchKeepsCovered(cfg, s, i, hash);
    case _ => ConsumerKeepsCovered(cfg, s, step);
  }
}
