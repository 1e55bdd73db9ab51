/** The server's side of one SSE connection: which frame each snapshot goes out as. */
module StreamHandler {
  import opened Json
  import opened Targeting
  import opened Delta

  /** Bare is the frame of a connection without deltas; Full carries the "snapshot" type tag. */
  datatype Frame = Bare(s: Snapshot) | Full(s: Snapshot) | Incremental(d: Delta)

  /** What the select loop of the handler wakes up for. */
  datatype Wakeup = Deliver(s: Snapshot) | Tick | Disconnect

  ghost function FrameFor(deltas: bool, baseline: Option<Snapshot>, snap: Snapshot): Frame {
    if !deltas then Bare(snap)
    else if baseline.Some? && snap.revision > baseline.value.revision then
      Incremental(ComputeDelta(baseline.value, snap))
    else Full(snap)
  }

  ghost function BaselineAfter(deltas: bool, baseline: Option<Snapshot>, snap: Snapshot): Option<Snapshot> {
    if deltas then Some(snap) else baseline
  }

  /** The frames a connection writes for a sequence of snapshots. */
  ghost function Written(deltas: bool, baseline: Option<Snapshot>, snaps: seq<Snapshot>): seq<Frame>
    decreases |snaps|
  {
    if snaps == [] then []
    else [FrameFor(deltas, baseline, snaps[0])]
         + Written(deltas, BaselineAfter(deltas, baseline, snaps[0]), snaps[1..])
  }

  /** What an ideal receiver makes of the frames: a delta that does not chain breaks it for good. */
  datatype Held = Nothing | Holding(s: Snapshot) | Broken

  ghost function Take(h: Held, f: Frame): Held {
    match f
    case Bare(s) => Holding(Normal(s))
    case Full(s) => Holding(Normal(s))
    case Incremental(d) =>
      if h.Holding? && ServerApply(h.s, d).1 then Holding(ServerApply(h.s, d).0) else Broken
  }

  ghost function Fold(h: Held, frames: seq<Frame>): Held
    decreases |frames|
  {
    if frames == [] then h else Fold(Take(h, frames[0]), frames[1..])
  }

  ghost function HeldFor(baseline: Option<Snapshot>): Held {
    if baseline.None? then Nothing else Holding(Normal(baseline.value))
  }

  lemma TakeFollows(baseline: Option<Snapshot>, snap: Snapshot)
    ensures Take(HeldFor(baseline), FrameFor(true, baseline, snap)) == Holding(Normal(snap))
  {
    if baseline.Some? {
      var held := Normal(baseline.value);
      assert ComputeDelta(held, snap) == ComputeDelta(baseline.value, snap);
      ApplyInvertsCompute(held, snap);
    }
  }

  lemma {:induction false} FoldFollowsFrom(baseline: Option<Snapshot>, snaps: seq<Snapshot>)
    requires snaps != []
    ensures Fold(HeldFor(baseline), Written(true, baseline, snaps)) == Holding(Normal(snaps[|snaps| - 1]))
    decreases |snaps|
  {
    TakeFollows(baseline, snaps[0]);
    var frames := Written(true, baseline, snaps);
    assert frames[1..] == Written(true, Some(snaps[0]), snaps[1..]);
    if |snaps| > 1 {
      FoldFollowsFrom(Some(snaps[0]), snaps[1..]);
    }
  }

  /**
   * Whatever snapshots reach a delta-enabled connection - gaps, repeats and older revisions
   * included - folding what it wrote always chains and always gives the last one sent, and the
   * first frame is a full one.
   */
  lemma FoldFollows(snaps: seq<Snapshot>)
    requires snaps != []
    ensures Fold(Nothing, Written(true, None, snaps)) == Holding(Normal(snaps[|snaps| - 1]))
    ensures Written(true, None, snaps)[0] == Full(snaps[0])
  {
    FoldFollowsFrom(None, snaps);
  }

  /** A delta frame never repeats or goes back: it leads from the snapshot just before it to a later revision. */
  lemma {:induction false} DeltasGoForward(baseline: Option<Snapshot>, snaps: seq<Snapshot>, i: nat)
    requires i < |snaps|
    ensures |Written(true, baseline, snaps)| == |snaps|
    ensures var f := Written(true, baseline, snaps)[i];
            var before := if i == 0 then baseline else Some(snaps[i - 1]);
            && (f.Incremental? <==> before.Some? && before.value.revision < snaps[i].revision)
            && (f.Incremental? ==> f.d.from == before.value.revision && f.d.revision == snaps[i].revision)
            && (!f.Incremental? ==> f == Full(snaps[i]))
    decreases |snaps|
  {
    if i > 0 {
      DeltasGoForward(Some(snaps[0]), snaps[1..], i - 1);
    } else if |snaps| > 1 {
      DeltasGoForward(Some(snaps[0]), snaps[1..], 0);
    }
  }

  lemma {:induction false} WrittenSnoc(deltas: bool, baseline: Option<Snapshot>, snaps: seq<Snapshot>, s: Snapshot)
    ensures var b := if snaps == [] || !deltas then baseline else Some(snaps[|snaps| - 1]);
            Written(deltas, baseline, snaps + [s]) == Written(deltas, baseline, snaps) + [FrameFor(deltas, b, s)]
    decreases |snaps|
  {
    if snaps == [] {
      assert [s][1..] == [];
    } else {
      assert (snaps + [s])[1..] == snaps[1..] + [s];
      WrittenSnoc(deltas, BaselineAfter(deltas, baseline, snaps[0]), snaps[1..], s);
    }
  }

  /** The snapshots the select loop gets to write before the consumer goes away. */
  function Delivered(events: seq<Wakeup>): seq<Snapshot> {
    if events == [] || events[0].Disconnect? then []
    else (if events[0].Deliver? then [events[0].s] else []) + Delivered(events[1..])
  }

  lemma {:induction false} DeliveredSnoc(events: seq<Wakeup>, e: Wakeup)
    requires Disconnect !in events
    ensures Delivered(events + [e]) == Delivered(events) + (if e.Deliver? then [e.s] else [])
  {
    if events == [] {
      assert [e][1..] == [];
    } else {
      assert (events + [e])[1..] == events[1..] + [e];
      DeliveredSnoc(events[1..], e);
    }
  }

  lemma {:induction false} DeliveredUpTo(events: seq<Wakeup>, i: nat)
    requires i <= |events| && Disconnect !in events[..i] && (i < |events| ==> events[i] == Disconnect)
    ensures Delivered(events) == Delivered(events[..i])
  {
    if i == |events| {
      assert events[..i] == events;
    } else if i > 0 {
      assert events[1..][..i - 1] == events[..i][1..];
      DeliveredUpTo(events[1..], i - 1);
    }
  }

  /** One handleStream call: its closure variables and what it has put on the wire. */
  class StreamConn {
    const deltasEnabled: bool
    var lastSent: Option<Snapshot>
    ghost var sent: seq<Snapshot>
    var wire: seq<Frame>

    ghost predicate Valid()
      reads this
    {
      && wire == Written(deltasEnabled, None, sent)
      && lastSent == if sent == [] || !deltasEnabled then None else Some(sent[|sent| - 1])
    }

    constructor (deltasEnabled: bool)
      ensures Valid() && sent == [] && this.deltasEnabled == deltasEnabled
    {
      this.deltasEnabled := deltasEnabled;
      lastSent, sent, wire := None, [], [];
    }

    method WriteFrame(snap: Snapshot)
      requires Valid()
      modifies this
      ensures Valid() && sent == old(sent) + [snap]
    {
      WrittenSnoc(deltasEnabled, None, sent, snap);
      if !deltasEnabled {
        wire := wire + [Bare(snap)];
      } else {
        if lastSent.Some? && snap.revision > lastSent.value.revision {
          var d := Compute(lastSent.value, snap);
          wire := wire + [Incremental(d)];
        } else {
          wire := wire + [Full(snap)];
        }
        lastSent := Some(snap);
      }
      sent := sent + [snap];
    }

    /** The handler after subscribing: the since-gated initial snapshot, then the select loop. */
    method Serve(since: int, initial: Option<Snapshot>, events: seq<Wakeup>)
      requires Valid() && sent == []
      modifies this
      ensures Valid()
      ensures sent == (if initial.Some? && initial.value.revision > since then [initial.value] else [])
                      + Delivered(events)
    {
      if initial.Some? && initial.value.revision > since {
        WriteFrame(initial.value);
      }
      ghost var opening := sent;
      var i := 0;
      while i < |events| && !events[i].Disconnect?
        invariant 0 <= i <= |events| && Valid() && Disconnect !in events[..i]
        invariant sent == opening + Delivered(events[..i])
      {
        DeliveredSnoc(events[..i], events[i]);
        assert events[..i + 1] == events[..i] + [events[i]];
        if events[i].Deliver? {
          WriteFrame(events[i].s);
        }
        i := i + 1;
      }
      DeliveredUpTo(events, i);
    }
  }
}
