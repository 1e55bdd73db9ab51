/** The waits between one stream connection and the next, the same in both SDKs. */
module Backoff {
  function Min(a: nat, b: nat): nat {
    if a < b then a else b
  }

  function Pow2(k: nat): nat {
    if k == 0 then 1 else 2 * Pow2(k - 1)
  }

  /**
   * outcomes[i] says whether connection i delivered a frame. How often the delay has doubled when
   * the last of them ends: once for each fruitless connection since the first, or since the last
   * fruitful one.
   */
  function Doublings(outcomes: seq<bool>): nat
    requires outcomes != []
  {
    if outcomes[|outcomes| - 1] || |outcomes| == 1 then 0 else 1 + Doublings(outcomes[..|outcomes| - 1])
  }

  function Wait(initial: nat, cap: nat, outcomes: seq<bool>): nat
    requires outcomes != []
  {
    Min(initial * Pow2(Doublings(outcomes)), cap)
  }

  /** What the delay variable holds while the next connection is open and has delivered nothing. */
  function Delay(initial: nat, cap: nat, outcomes: seq<bool>): nat {
    if outcomes == [] then initial else Min(2 * Wait(initial, cap, outcomes), cap)
  }

  lemma {:induction false} Pow2Positive(k: nat)
    ensures 1 <= Pow2(k)
  {
    if k > 0 { Pow2Positive(k - 1); }
  }

  lemma WaitInBounds(initial: nat, cap: nat, outcomes: seq<bool>)
    requires initial <= cap && outcomes != []
    ensures initial <= Wait(initial, cap, outcomes) <= cap
  {
    var k := Doublings(outcomes);
    Pow2Positive(k);
    assert initial * Pow2(k) == initial + initial * (Pow2(k) - 1);
  }

  /** Resetting on a frame, doubling and capping step by step gives the closed form. */
  lemma WaitStep(initial: nat, cap: nat, outcomes: seq<bool>, fruitful: bool)
    requires initial <= cap
    ensures Wait(initial, cap, outcomes + [fruitful]) == if fruitful then initial else Delay(initial, cap, outcomes)
  {
    var all := outcomes + [fruitful];
    assert all[..|all| - 1] == outcomes;
    if !fruitful && outcomes != [] {
      var k := Doublings(outcomes);
      assert Doublings(all) == k + 1;
      assert initial * Pow2(k + 1) == 2 * (initial * Pow2(k));
    } else {
      assert initial * Pow2(0) == initial;
    }
  }

  const GO_INITIAL: nat := 500
  const GO_CAP: nat := 5000
  const TS_INITIAL: nat := 1000
  const TS_CAP: nat := 30000

  lemma {:induction false} AllFruitless(outcomes: seq<bool>)
    requires outcomes != [] && forall i :: 0 <= i < |outcomes| ==> !outcomes[i]
    ensures Doublings(outcomes) == |outcomes| - 1
  {
    if |outcomes| > 1 { AllFruitless(outcomes[..|outcomes| - 1]); }
  }

  lemma {:induction false} Pow2Grows(j: nat, k: nat)
    requires j <= k
    ensures Pow2(j) <= Pow2(k)
  {
    if j < k { Pow2Grows(j, k - 1); }
  }

  /**
   * In milliseconds: a server that is down is tried after 0.5, 1, 2, 4 and from then on every 5
   * seconds by the Go SDK, after 1, 2, 4, 8, 16 and from then on every 30 by the TypeScript SDK.
   */
  lemma WaitsOnAnOutage(outcomes: seq<bool>)
    requires outcomes != [] && forall i :: 0 <= i < |outcomes| ==> !outcomes[i]
    ensures Wait(GO_INITIAL, GO_CAP, outcomes)
            == if |outcomes| <= 4 then [500, 1000, 2000, 4000][|outcomes| - 1] else 5000
    ensures Wait(TS_INITIAL, TS_CAP, outcomes)
            == if |outcomes| <= 5 then [1000, 2000, 4000, 8000, 16000][|outcomes| - 1] else 30000
  {
    AllFruitless(outcomes);
    var k := |outcomes| - 1;
    assert Pow2(0) == 1 && Pow2(1) == 2 && Pow2(2) == 4 && Pow2(3) == 8 && Pow2(4) == 16 && Pow2(5) == 32;
    if k >= 4 { Pow2Grows(4, k); }
    if k >= 5 { Pow2Grows(5, k); }
  }

  /** The Go SDK's runStream loop, over what its connections turn out to deliver. */
  method RunStream(outcomes: seq<bool>) returns (waits: seq<nat>)
    ensures |waits| == |outcomes|
    ensures forall i :: 0 <= i < |waits| ==> waits[i] == Wait(GO_INITIAL, GO_CAP, outcomes[..i + 1])
    ensures forall i :: 0 <= i < |waits| ==> GO_INITIAL <= waits[i] <= GO_CAP
  {
    waits := [];
    var delay := GO_INITIAL;
    for i := 0 to |outcomes|
      invariant |waits| == i && delay == Delay(GO_INITIAL, GO_CAP, outcomes[..i])
      invariant forall j :: 0 <= j < i ==> waits[j] == Wait(GO_INITIAL, GO_CAP, outcomes[..j + 1])
      invariant forall j :: 0 <= j < i ==> GO_INITIAL <= waits[j] <= GO_CAP
    {
      WaitStep(GO_INITIAL, GO_CAP, outcomes[..i], outcomes[i]);
      assert outcomes[..i + 1] == outcomes[..i] + [outcomes[i]];
      WaitInBounds(GO_INITIAL, GO_CAP, outcomes[..i + 1]);
      if outcomes[i] {
        delay := GO_INITIAL;
      }
      waits := waits + [delay];
      delay := delay * 2;
      if delay > GO_CAP {
        delay := GO_CAP;
      }
    }
  }
}

/**
 * The TypeScript client's connection lifecycle: openStream from one await to the next, and the
 * client that opens streams, is called back by them, and cancels them.
 */
module Reconnect {
  import opened Json
  import opened Backoff

  /** Where openStream's async function is: awaiting the fetch, awaiting a read, or through. */
  datatype Stage = Fetching | Reading | Returned

  /**
   * A complete frame in the buffer: one without data; one that JSON.parse or the look at its type
   * throws on; one handed to a callback, during which a listener may close the client or throw.
   */
  datatype Frame = NoData | Malformed | Payload(closes: bool, throws: bool)

  /** What an await of openStream ends with. */
  datatype Wake = FetchFailed | Answered(ok: bool) | ReadFailed | BodyEnds | Arrives(frames: seq<Frame>)

  predicate Throws(f: Frame) {
    f.Malformed? || (f.Payload? && f.throws)
  }

  /** How many of the frames the inner loop gets to: an exception ends it. */
  function Reached(frames: seq<Frame>): nat {
    if frames == [] then 0
    else if Throws(frames[0]) then 1
    else 1 + Reached(frames[1..])
  }

  function Calls(frames: seq<Frame>): nat {
    if frames == [] then 0
    else (if frames[0].Payload? then 1 else 0) + (if Throws(frames[0]) then 0 else Calls(frames[1..]))
  }

  /** The callbacks made although the stream had been cancelled by then. */
  function LateCalls(cancelled: bool, frames: seq<Frame>): nat
    decreases |frames|
  {
    if frames == [] then 0
    else
      (if frames[0].Payload? && cancelled then 1 else 0)
      + (if Throws(frames[0]) then 0
         else LateCalls(cancelled || (frames[0].Payload? && frames[0].closes), frames[1..]))
  }

  /** Whether the inner loop ends in an exception before anything cancelled the stream. */
  predicate Fails(cancelled: bool, frames: seq<Frame>)
    decreases |frames|
  {
    if frames == [] || cancelled then false
    else
      var closes := frames[0].Payload? && frames[0].closes;
      if Throws(frames[0]) then !closes else Fails(closes, frames[1..])
  }

  function FramesOf(wake: Wake): seq<Frame> {
    if wake.Arrives? then wake.frames else []
  }

  /** The exits of openStream that report: each of them, unless the stream was cancelled before. */
  predicate Reports(cancelled: bool, wake: Wake) {
    match wake
    case Answered(ok) => !cancelled && !ok
    case Arrives(frames) => Fails(cancelled, frames)
    case _ => !cancelled
  }

  /** The i-th frame throws: its payload does not parse, or a listener throws on it. */
  predicate ThrowsAt(frames: seq<Frame>, i: int) {
    0 <= i < |frames| && (frames[i] == Malformed || (frames[i].Payload? && frames[i].throws))
  }

  /** The loop gets to the first frame that throws, or through all of them... */
  lemma {:induction false} ReachedExactly(frames: seq<Frame>)
    ensures Reached(frames) <= |frames|
    ensures forall i :: 0 <= i < Reached(frames) - 1 ==> !ThrowsAt(frames, i)
    ensures Reached(frames) == |frames| || ThrowsAt(frames, Reached(frames) - 1)
  {
    if frames != [] {
      var rest := frames[1..];
      ReachedExactly(rest);
      forall i | 0 <= i < |rest| ensures ThrowsAt(frames, i + 1) <==> ThrowsAt(rest, i) {}
      assert forall i :: 0 < i < |frames| ==> (ThrowsAt(frames, i) <==> ThrowsAt(rest, i - 1));
    }
  }

  /** The payloads among the first n frames. */
  function PayloadsIn(frames: seq<Frame>, n: nat): nat
    requires n <= |frames|
  {
    if n == 0 then 0 else PayloadsIn(frames, n - 1) + (if frames[n - 1].Payload? then 1 else 0)
  }

  lemma {:induction false} PayloadsShift(frames: seq<Frame>, n: nat)
    requires n < |frames|
    ensures PayloadsIn(frames, n + 1) == (if frames[0].Payload? then 1 else 0) + PayloadsIn(frames[1..], n)
  {
    if n > 0 { PayloadsShift(frames, n - 1); }
  }

  /** ... and makes one callback for each payload on the way. */
  lemma {:induction false} CallsExactly(frames: seq<Frame>)
    ensures Reached(frames) <= |frames| && Calls(frames) == PayloadsIn(frames, Reached(frames))
  {
    ReachedExactly(frames);
    if frames != [] {
      CallsExactly(frames[1..]);
      PayloadsShift(frames, if Throws(frames[0]) then 0 else Reached(frames[1..]));
    }
  }

  /** The first frame that throws does so before any payload up to it has closed the client. */
  ghost predicate FailsAt(frames: seq<Frame>, i: int) {
    && ThrowsAt(frames, i)
    && (forall j :: 0 <= j < i ==> !ThrowsAt(frames, j))
    && (forall j :: 0 <= j <= i ==> !(frames[j].Payload? && frames[j].closes))
  }

  lemma {:induction false} FailsExactly(cancelled: bool, frames: seq<Frame>)
    ensures Fails(cancelled, frames) <==> !cancelled && exists i :: FailsAt(frames, i)
    decreases |frames|
  {
    if frames != [] && !cancelled {
      var rest, closes := frames[1..], frames[0].Payload? && frames[0].closes;
      FailsExactly(closes, rest);
      assert ThrowsAt(frames, 0) <==> Throws(frames[0]);
      assert FailsAt(frames, 0) <==> Throws(frames[0]) && !closes;
      forall i | 0 <= i ensures !Throws(frames[0]) && !closes ==> (FailsAt(rest, i) <==> FailsAt(frames, i + 1)) {
        if !Throws(frames[0]) && !closes { ShiftFails(frames, i); }
      }
      if i :| FailsAt(frames, i) { assert i > 0 && !closes && !Throws(frames[0]) ==> FailsAt(rest, i - 1); }
    }
  }

  lemma ShiftFails(frames: seq<Frame>, i: nat)
    requires frames != [] && !Throws(frames[0]) && !(frames[0].Payload? && frames[0].closes)
    ensures FailsAt(frames[1..], i) <==> FailsAt(frames, i + 1)
  {
    var rest := frames[1..];
    forall j | 0 <= j < |rest| ensures rest[j] == frames[j + 1] {}
    if FailsAt(rest, i) {
      forall j | 0 <= j < i + 1 ensures !ThrowsAt(frames, j) {
        if j > 0 { assert ThrowsAt(frames, j) <==> ThrowsAt(rest, j - 1); }
      }
      forall j | 0 <= j <= i + 1 ensures !(frames[j].Payload? && frames[j].closes) {
        if j > 0 { assert frames[j] == rest[j - 1]; }
      }
    }
    if FailsAt(frames, i + 1) {
      forall j | 0 <= j < i ensures !ThrowsAt(rest, j) { assert ThrowsAt(rest, j) <==> ThrowsAt(frames, j + 1); }
    }
  }

  /** The exits of openStream that report, in full. */
  lemma ReportsExactly(cancelled: bool, wake: Wake)
    ensures Reports(cancelled, wake)
            <==> && !cancelled
                 && match wake
                    case FetchFailed => true
                    case Answered(ok) => !ok
                    case ReadFailed => true
                    case BodyEnds => true
                    case Arrives(frames) => exists i :: FailsAt(frames, i)
  {
    if wake.Arrives? { FailsExactly(cancelled, wake.frames); }
  }

  /**
   * The inner loop does not look at `cancelled`. A callback comes after the cancellation exactly
   * when, before any exception, a payload is in a chunk that arrives on a cancelled stream, or
   * follows one of its chunk during which the client was closed.
   */
  lemma {:induction false} LateExactly(cancelled: bool, frames: seq<Frame>)
    ensures Reached(frames) <= |frames|
    ensures LateCalls(cancelled, frames) > 0
            <==> exists j :: 0 <= j < Reached(frames) && frames[j].Payload? && CancelledAt(cancelled, frames, j)
    decreases |frames|
  {
    if frames != [] {
      var rest, c := frames[1..], cancelled || (frames[0].Payload? && frames[0].closes);
      LateExactly(c, rest);
      assert CancelledAt(cancelled, frames, 0) <==> cancelled;
      forall j | 0 <= j < |rest| ensures frames[j + 1] == rest[j]
        && (CancelledAt(cancelled, frames, j + 1) <==> CancelledAt(c, rest, j)) {
        ShiftCancelled(cancelled, frames, j);
      }
      if !Throws(frames[0]) {
        if j :| 0 <= j < Reached(rest) && rest[j].Payload? && CancelledAt(c, rest, j) {
          assert frames[j + 1].Payload? && CancelledAt(cancelled, frames, j + 1);
        }
        if j :| 0 <= j < Reached(frames) && frames[j].Payload? && CancelledAt(cancelled, frames, j) {
          assert j > 0 ==> rest[j - 1].Payload? && CancelledAt(c, rest, j - 1);
        }
      }
    }
  }

  /** The stream was cancelled before the chunk, or by a callback for an earlier frame of it. */
  ghost predicate CancelledAt(cancelled: bool, frames: seq<Frame>, j: int)
    requires 0 <= j < |frames|
  {
    cancelled || exists i :: 0 <= i < j && frames[i].Payload? && frames[i].closes
  }

  lemma ShiftCancelled(cancelled: bool, frames: seq<Frame>, j: nat)
    requires j + 1 < |frames|
    ensures CancelledAt(cancelled, frames, j + 1)
            <==> CancelledAt(cancelled || (frames[0].Payload? && frames[0].closes), frames[1..], j)
  {
    var rest := frames[1..];
    if i :| 0 <= i < j && rest[i].Payload? && rest[i].closes { assert frames[i + 1] == rest[i]; }
    if i :| 0 < i < j + 1 && frames[i].Payload? && frames[i].closes { assert rest[i - 1] == frames[i]; }
  }

  /** A chunk with two snapshots, and a listener that closes the client on the first: the second still comes. */
  lemma ClosingCallbackIsNotTheLast()
    ensures LateCalls(false, [Payload(true, false), Payload(false, false)]) == 1
  {
    assert [Payload(true, false), Payload(false, false)][1..] == [Payload(false, false)];
    assert [Payload(false, false)][1..] == [];
  }

  /** One openStream call. */
  class Stream {
    var stage: Stage
    var cancelled: bool
    /** The onError calls, the other callbacks, those of them after it was cancelled. */
    ghost var errors: nat
    ghost var calls: nat
    ghost var late: nat
    /** The client cancelled it before it had reported. */
    ghost var stopped: bool

    constructor ()
      ensures stage == Fetching && !cancelled && errors == 0 && calls == 0 && late == 0 && !stopped
    {
      stage, cancelled, errors, calls, late, stopped := Fetching, false, 0, 0, 0, false;
    }

    /** It can still report. */
    predicate Active()
      reads this
    {
      stage != Returned && !cancelled
    }

    predicate Awaits(wake: Wake)
      reads this
    {
      match wake
      case FetchFailed => stage == Fetching
      case Answered(_) => stage == Fetching
      case _ => stage == Reading
    }

    ghost predicate Ok()
      reads this
    {
      && errors <= 1 && (stage != Returned ==> errors == 0)
      && (stopped ==> errors == 0 && cancelled)
    }

    /** The returned cancel function: abort, whose listener sets the flag. */
    method Cancel()
      requires Ok()
      modifies this`cancelled, this`stopped
      ensures Ok() && cancelled && stopped == (old(stopped) || errors == 0)
    {
      cancelled := true;
      stopped := stopped || errors == 0;
    }
  }

  class TsClient {
    var loaded: bool
    var closed: bool
    var cancelStream: Option<Stream>
    /** The pending reconnect timer's delay. */
    var reconnectTimer: Option<nat>
    var pollTimer: bool
    var reconnectDelay: nat
    /** Every stream ever opened; whether the connections that ended, and the present one, delivered a frame. */
    ghost var streams: set<Stream>
    ghost var outcomes: seq<bool>
    ghost var fruitful: bool

    /** The streams that can still report. */
    ghost function Live(): set<Stream>
      reads this, streams
    {
      set s | s in streams && s.Active()
    }

    ghost predicate Valid()
      reads this, streams
    {
      && (!loaded ==> streams == {} && cancelStream.None? && reconnectTimer.None? && !pollTimer)
      && (loaded && !closed ==>
            && cancelStream.Some? && cancelStream.value in streams
            && (forall s :: s in streams ==> (s.Active() <==> s == cancelStream.value && reconnectTimer.None?))
            && pollTimer)
      && (closed ==> reconnectTimer.None? && !pollTimer && forall s :: s in streams ==> !s.Active())
      && (cancelStream.Some? ==> cancelStream.value in streams)
      && (forall s :: s in streams ==> s.Ok())
      && (reconnectTimer.Some? ==> outcomes != [] && reconnectTimer.value == Wait(TS_INITIAL, TS_CAP, outcomes))
      && BackoffOk()
    }

    /** The delay is the closed form of what the connections so far delivered. */
    ghost predicate BackoffOk()
      reads this
    {
      && TS_INITIAL <= reconnectDelay <= TS_CAP
      && reconnectDelay == (if fruitful then TS_INITIAL else Delay(TS_INITIAL, TS_CAP, outcomes))
    }

    constructor ()
      ensures Valid() && !loaded && !closed
    {
      loaded, closed, cancelStream, reconnectTimer, pollTimer := false, false, None, None, false;
      reconnectDelay, streams, outcomes, fruitful := TS_INITIAL, {}, [], false;
    }

    method ConnectStream()
      modifies this`cancelStream, this`streams
      ensures closed ==> cancelStream == old(cancelStream) && streams == old(streams)
      ensures !closed ==>
                && cancelStream.Some? && fresh(cancelStream.value)
                && cancelStream.value.stage == Fetching && !cancelStream.value.cancelled
                && cancelStream.value.Ok() && cancelStream.value.late == 0
                && streams == old(streams) + {cancelStream.value}
    {
      if closed {
        return;
      }
      var s := new Stream();
      cancelStream := Some(s);
      streams := streams + {s};
    }

    /** The end of the initial load, whatever it brought. */
    method FinishLoad()
      requires Valid() && !loaded
      modifies this
      ensures Valid() && loaded && closed == old(closed)
      ensures closed ==> streams == {}
      ensures !closed ==> |streams| == 1 && Live() == streams && fresh(streams)
      ensures forall s :: s in streams ==> s.stage == Fetching && s.late == 0
    {
      loaded := true;
      if !closed {
        ConnectStream();
        assert streams == {cancelStream.value};
        pollTimer := true;
      }
    }

    /** A snapshot or delta callback: it resets the backoff, whatever else it does. */
    method OnFrame()
      requires BackoffOk()
      modifies this`reconnectDelay, this`fruitful
      ensures BackoffOk() && reconnectDelay == TS_INITIAL && fruitful
    {
      reconnectDelay := TS_INITIAL;
      fruitful := true;
    }

    /** onError. */
    method ScheduleReconnect()
      modifies this`reconnectDelay, this`reconnectTimer
      ensures if closed then reconnectDelay == old(reconnectDelay) && reconnectTimer == old(reconnectTimer)
              else reconnectTimer == Some(old(reconnectDelay)) && reconnectDelay == Min(2 * old(reconnectDelay), TS_CAP)
    {
      if closed {
        return;
      }
      var delay := reconnectDelay;
      reconnectDelay := Min(reconnectDelay * 2, TS_CAP);
      reconnectTimer := Some(delay);
    }

    /** Closes the books on the connection that has just ended. */
    ghost method RecordOutcome()
      requires BackoffOk()
      modifies this`outcomes, this`fruitful
      ensures outcomes == old(outcomes) + [old(fruitful)] && !fruitful
      ensures reconnectDelay == Wait(TS_INITIAL, TS_CAP, outcomes)
    {
      WaitStep(TS_INITIAL, TS_CAP, outcomes, fruitful);
      outcomes, fruitful := outcomes + [fruitful], false;
    }

    /** The call of onError as the stream returns: from the catch block after an abort, or at the end of the body. */
    method Report(s: Stream, abort: bool)
      requires Valid() && s in streams && s.Active()
      modifies this, s
      ensures Valid() && loaded && closed == old(closed) == false && streams == old(streams)
      ensures s.stage == Returned && s.errors == old(s.errors) + 1 && s.calls == old(s.calls) && s.late == old(s.late)
      ensures s.cancelled == (old(s.cancelled) || abort) && s.stopped == old(s.stopped)
      ensures Live() == {} && reconnectTimer.Some? && outcomes == old(outcomes) + [old(fruitful)] && !fruitful
    {
      if abort {
        s.cancelled := true;
      }
      s.errors := s.errors + 1;
      s.stage := Returned;
      RecordOutcome();
      ScheduleReconnect();
    }

    /** The catch block. */
    method Catch(s: Stream)
      requires Valid() && s in streams && s.stage != Returned
      modifies this, s
      ensures Valid() && streams == old(streams) && closed == old(closed)
      ensures s.stage == Returned && s.calls == old(s.calls) && s.late == old(s.late)
      ensures s.errors == old(s.errors) + if old(s.cancelled) then 0 else 1
      ensures outcomes == old(outcomes) + if old(s.cancelled) then [] else [old(fruitful)]
      ensures !old(s.cancelled) ==> reconnectTimer.Some?
      ensures fruitful == (old(s.cancelled) && old(fruitful))
      ensures s.cancelled && s.stopped == old(s.stopped)
    {
      if s.cancelled {
        s.stage := Returned;
        return;
      }
      Report(s, true);
    }

    /** One callback; a listener may close the client during it. */
    method CallBack(s: Stream, closes: bool)
      requires Valid() && s in streams && s.stage == Reading
      modifies this, streams
      ensures Valid() && streams == old(streams) && outcomes == old(outcomes) && fruitful
      ensures s.stage == Reading && s.cancelled == (old(s.cancelled) || closes)
      ensures s.errors == old(s.errors) && s.calls == old(s.calls) + 1
      ensures s.late == old(s.late) + if old(s.cancelled) then 1 else 0
      ensures (old(closed) ==> closed) && (old(s.stopped) ==> s.stopped)
    {
      s.calls := s.calls + 1;
      s.late := s.late + if s.cancelled then 1 else 0;
      OnFrame();
      if closes {
        Close();
      }
    }

    /** The inner loop over the complete frames of the buffer; says whether an exception ended it. */
    method HandleFrames(s: Stream, frames: seq<Frame>) returns (thrown: bool)
      requires Valid() && s in streams && s.stage == Reading
      modifies this, streams
      ensures Valid() && streams == old(streams) && outcomes == old(outcomes) && s.stage == Reading
      ensures s.errors == old(s.errors) && s.calls == old(s.calls) + Calls(frames)
      ensures s.late == old(s.late) + LateCalls(old(s.cancelled), frames)
      ensures thrown && !s.cancelled <==> Fails(old(s.cancelled), frames)
      ensures fruitful == (old(fruitful) || Calls(frames) > 0)
      ensures (old(closed) ==> closed) && (old(s.stopped) ==> s.stopped) && (old(s.cancelled) ==> s.cancelled)
    {
      for i := 0 to |frames|
        invariant Valid() && streams == old(streams) && outcomes == old(outcomes) && s.stage == Reading
        invariant s.errors == old(s.errors) && (old(closed) ==> closed) && (old(s.stopped) ==> s.stopped)
        invariant s.calls + Calls(frames[i..]) == old(s.calls) + Calls(frames)
        invariant s.late + LateCalls(s.cancelled, frames[i..]) == old(s.late) + LateCalls(old(s.cancelled), frames)
        invariant Fails(s.cancelled, frames[i..]) <==> Fails(old(s.cancelled), frames)
        invariant old(s.cancelled) ==> s.cancelled
        invariant fruitful || Calls(frames[i..]) > 0 <==> old(fruitful) || Calls(frames) > 0
      {
        var f := frames[i];
        assert frames[i..][1..] == frames[i + 1..];
        if f.Payload? {
          CallBack(s, f.closes);
        }
        if Throws(f) {
          return true;
        }
      }
      return false;
    }

    /**
     * openStream, from the end of one await to the next or to its return: whatever the await ends
     * with, in whatever stage of the client's life.
     */
    method Resume(s: Stream, wake: Wake)
      requires Valid() && s in streams && s.Awaits(wake)
      modifies this, streams
      ensures Valid() && streams == old(streams)
      ensures s.errors == old(s.errors) + if Reports(old(s.cancelled), wake) then 1 else 0
      ensures s.calls == old(s.calls) + Calls(FramesOf(wake))
      ensures s.late == old(s.late) + LateCalls(old(s.cancelled), FramesOf(wake))
      ensures Reports(old(s.cancelled), wake) ==>
                && s.stage == Returned && reconnectTimer.Some?
                && outcomes == old(outcomes) + [old(fruitful) || Calls(FramesOf(wake)) > 0]
      ensures !Reports(old(s.cancelled), wake) ==> outcomes == old(outcomes)
      ensures s.stage == if s.cancelled || Reports(old(s.cancelled), wake) then Returned else Reading
      ensures !wake.Arrives? ==> closed == old(closed) && (s.cancelled ==> old(s.cancelled) || s.errors > old(s.errors))
      ensures (old(closed) ==> closed) && (old(s.stopped) ==> s.stopped)
      ensures !old(s.cancelled) && (wake in {FetchFailed, Answered(false), ReadFailed, BodyEnds}
                                    || (wake.Arrives? && exists i :: FailsAt(wake.frames, i))) ==>
                s.stage == Returned && s.errors == old(s.errors) + 1 && reconnectTimer.Some? && Live() == {}
      ensures !old(s.cancelled) && (wake == Answered(true)
                                    || (wake.Arrives? && !exists i :: FailsAt(wake.frames, i))) ==>
                s.errors == old(s.errors) && s.stage == if s.cancelled then Returned else Reading
      ensures old(s.cancelled) ==>
                s.errors == old(s.errors) && s.stage == Returned
    {
      ReportsExactly(s.cancelled, wake);
      match wake
      case FetchFailed => Catch(s);
      case Answered(ok) =>
        if s.cancelled {
          s.stage := Returned;
        } else if !ok {
          Catch(s);
        } else {
          s.stage := Reading;
        }
      case ReadFailed => Catch(s);
      case BodyEnds =>
        if s.cancelled {
          s.stage := Returned;
        } else {
          Report(s, false);
        }
      case Arrives(frames) =>
        var thrown := HandleFrames(s, frames);
        if thrown {
          Catch(s);
        } else if s.cancelled {
          s.stage := Returned;
        }
    }

    method OnTimer()
      requires Valid() && reconnectTimer.Some?
      modifies this
      ensures Valid() && loaded && !closed && reconnectTimer.None?
      ensures cancelStream.Some? && fresh(cancelStream.value) && Live() == {cancelStream.value}
      ensures outcomes == old(outcomes)
    {
      reconnectTimer := None;
      ConnectStream();
    }

    method Close()
      requires Valid()
      modifies this`closed, this`reconnectTimer, this`pollTimer
      modifies if cancelStream.Some? then {cancelStream.value} else {}
      ensures Valid() && closed && Live() == {} && reconnectTimer.None? && !pollTimer
      ensures forall s :: s in streams ==>
                s.stage == old(s.stage) && s.errors == old(s.errors) && s.calls == old(s.calls) && s.late == old(s.late)
      ensures forall s :: s in streams && (old(s.stopped) || old(s.Active())) ==> s.stopped
    {
      if closed {
        return;
      }
      closed := true;
      if cancelStream.Some? {
        cancelStream.value.Cancel();
      }
      reconnectTimer := None;
      pollTimer := false;
    }

    /**
     * From the end of the initial load until close, exactly one of a stream that has not reported
     * and a pending timer exists; after close, neither; no stream ever reports twice, and one that
     * the client cancelled first does not report at all.
     */
    lemma ExactlyOne()
      requires Valid() && loaded
      ensures !closed ==> (|Live()| == 1 && reconnectTimer.None?) || (|Live()| == 0 && reconnectTimer.Some?)
      ensures closed ==> Live() == {} && reconnectTimer.None?
      ensures forall s :: s in streams ==> s.errors <= 1 && (s.stopped ==> s.errors == 0)
      ensures reconnectTimer.Some? ==> outcomes != [] && reconnectTimer.value == Wait(TS_INITIAL, TS_CAP, outcomes)
      ensures TS_INITIAL <= reconnectDelay <= TS_CAP
    {
      if !closed {
        assert Live() == if reconnectTimer.Some? then {} else {cancelStream.value};
      }
    }
  }

  /**
   * No closing payload is needed: the client closes while a read that brings a snapshot is on its
   * way, and the snapshot is still handed over.
   */
  method ClosedWhileReading() returns (client: TsClient, s: Stream)
    ensures client.Valid() && client.closed && s in client.streams
    ensures s.stopped && s.late == 1 && s.errors == 0 && s.stage == Returned
  {
    client := new TsClient();
    client.FinishLoad();
    s := client.cancelStream.value;
    assert client.streams == {s};
    client.Resume(s, Answered(true));
    client.Close();
    client.Resume(s, Arrives([Payload(false, false)]));
    assert LateCalls(true, [Payload(false, false)]) == 1 && Calls([Payload(false, false)]) == 1 by {
      assert [Payload(false, false)][1..] == [];
    }
  }
}
