/** The in-process fan-out: one bounded, drop-oldest buffer per subscriber. */
module Hub {
  import opened Json
  import opened Delta
  import opened Delivery

  /** What one Publish does to one buffer no one else touches meanwhile. */
  function Enqueue(buffer: seq<Snapshot>, snap: Snapshot): seq<Snapshot> {
    if |buffer| < SUBSCRIBER_BUFFER then buffer + [snap]
    else buffer[1..] + [snap]
  }

  class Chan {
    var buffer: seq<Snapshot>
    var closed: bool

    constructor ()
      ensures buffer == [] && !closed
    {
      buffer, closed := [], false;
    }

    /** `select { case ch <- snap: default: }`. Sending on a closed channel would panic. */
    method TrySend(snap: Snapshot) returns (sent: bool)
      requires !closed
      modifies this`buffer
      ensures sent <==> |old(buffer)| < SUBSCRIBER_BUFFER
      ensures buffer == if sent then old(buffer) + [snap] else old(buffer)
    {
      sent := |buffer| < SUBSCRIBER_BUFFER;
      if sent { buffer := buffer + [snap]; }
    }

    /** `select { case <-ch: default: }` */
    method TryReceive() returns (got: Option<Snapshot>)
      modifies this`buffer
      ensures got == if old(buffer) == [] then None else Some(old(buffer)[0])
      ensures buffer == if old(buffer) == [] then [] else old(buffer)[1..]
    {
      if buffer == [] { return None; }
      got := Some(buffer[0]);
      buffer := buffer[1..];
    }

    /** The body of Publish's loop. */
    method Offer(snap: Snapshot)
      requires !closed && |buffer| <= SUBSCRIBER_BUFFER
      modifies this`buffer
      ensures buffer == Enqueue(old(buffer), snap) && |buffer| <= SUBSCRIBER_BUFFER
    {
      var sent := TrySend(snap);
      if !sent {
        var _ := TryReceive();
        var resent := TrySend(snap);
        assert resent;
      }
    }
  }

  /** What Subscribe hands out: the channel, and the variables its cancel closure captures. */
  class Subscription {
    const env: int
    const id: int
    const ch: Chan
    var cancelled: bool

    constructor (env: int, id: int, ch: Chan)
      ensures this.env == env && this.id == id && this.ch == ch && !cancelled
    {
      this.env, this.id, this.ch, cancelled := env, id, ch, false;
    }
  }

  /** The subscriber table, keyed by environment and subscriber id together. */
  class Hub {
    var subs: map<(int, int), Chan>
    var next: int
    /** Every id ever handed out. */
    ghost var issued: set<int>

    /** Registered channels are open, bounded and shared by no two subscriptions. */
    ghost predicate Valid()
      reads this, subs.Values
    {
      && (forall id :: id in issued ==> id < next)
      && (forall k :: k in subs ==> k.1 in issued)
      && (forall k :: k in subs ==> !subs[k].closed && |subs[k].buffer| <= SUBSCRIBER_BUFFER)
      && (forall k, k' :: k in subs && k' in subs && k != k' ==> subs[k] != subs[k'])
    }

    constructor ()
      ensures Valid() && subs == map[] && issued == {}
    {
      subs, next, issued := map[], 0, {};
    }

    method Subscribe(env: int) returns (sub: Subscription)
      requires Valid()
      modifies this
      ensures Valid() && fresh(sub) && fresh(sub.ch)
      ensures !sub.cancelled && sub.ch.buffer == []
      ensures sub.env == env && sub.id !in old(issued) && issued == old(issued) + {sub.id}
      ensures subs == old(subs)[(env, sub.id) := sub.ch]
    {
      var ch := new Chan();
      sub := new Subscription(env, next, ch);
      subs := subs[(env, next) := ch];
      issued := issued + {next};
      next := next + 1;
    }

    /** The cancel closure: whatever else happened since, a second call does nothing. */
    method Cancel(sub: Subscription)
      requires Valid()
      requires !sub.cancelled ==> (sub.env, sub.id) in subs && subs[(sub.env, sub.id)] == sub.ch
      modifies this, sub, sub.ch
      ensures Valid() && sub.cancelled && issued == old(issued)
      ensures !old(sub.cancelled) ==> sub.ch.closed && sub.ch !in subs.Values
      ensures subs == if old(sub.cancelled) then old(subs) else old(subs) - {(sub.env, sub.id)}
      ensures old(sub.cancelled) ==> sub.ch.closed == old(sub.ch.closed)
      ensures sub.ch.buffer == old(sub.ch.buffer)
    {
      if sub.cancelled {
        return;
      }
      sub.cancelled := true;
      subs := subs - {(sub.env, sub.id)};
      sub.ch.closed := true;
    }

    /** Delivers snap to every current subscriber of env, and to no one else. */
    method Publish(env: int, snap: Snapshot)
      requires Valid()
      modifies subs.Values
      ensures Valid() && subs == old(subs)
      ensures forall k :: k in subs ==>
                subs[k].buffer == if k.0 == env then Enqueue(old(subs[k].buffer), snap) else old(subs[k].buffer)
    {
      var todo := set k | k in subs.Keys && k.0 == env;
      while todo != {}
        invariant Valid()
        invariant forall k :: k in todo ==> k in subs && k.0 == env
        invariant forall k :: k in subs ==>
                    subs[k].buffer == if k.0 == env && k !in todo then Enqueue(old(subs[k].buffer), snap)
                                      else old(subs[k].buffer)
        decreases |todo|
      {
        var k :| k in todo;
        subs[k].Offer(snap);
        todo := todo - {k};
      }
    }
  }
}

/** One subscriber's channel while Publish's three selects interleave with the receiver. */
module HubRace {
  import opened Json
  import opened Delta
  import Delivery
  import Hub

  /** Where Publish, the only sender, is with this channel. */
  datatype Sender = Idle | Sending(s: Snapshot) | Draining(s: Snapshot) | Retrying(s: Snapshot) | GaveUp(s: Snapshot)

  /** taken lists, in the order received, the positions in published of what the receiver got. */
  datatype State = State(published: seq<Snapshot>, buffer: seq<Snapshot>, taken: seq<nat>, sender: Sender)

  datatype Step = Begin(s: Snapshot) | Advance | Receive

  function Init(): State {
    State([], [], [], Idle)
  }

  function Send(c: State, snap: Snapshot): State {
    c.(published := c.published + [snap], buffer := c.buffer + [snap], sender := Idle)
  }

  function Next(c: State, step: Step): Option<State> {
    match step
    case Begin(snap) => if c.sender.Idle? then Some(c.(sender := Sending(snap))) else None
    case Receive =>
      if c.buffer == [] || |c.published| < |c.buffer| then None
      else Some(c.(buffer := c.buffer[1..], taken := c.taken + [|c.published| - |c.buffer|]))
    case Advance =>
      match c.sender
      case Sending(snap) =>
        if |c.buffer| < Delivery.SUBSCRIBER_BUFFER then Some(Send(c, snap)) else Some(c.(sender := Draining(snap)))
      case Draining(snap) =>
        Some(c.(buffer := if c.buffer == [] then [] else c.buffer[1..], sender := Retrying(snap)))
      case Retrying(snap) =>
        if |c.buffer| < Delivery.SUBSCRIBER_BUFFER then Some(Send(c, snap)) else Some(c.(sender := GaveUp(snap)))
      case _ => None
  }

  /** The position in published of the oldest snapshot still queued. */
  function Front(c: State): int {
    |c.published| - |c.buffer|
  }

  ghost predicate Good(c: State) {
    && |c.buffer| <= Delivery.SUBSCRIBER_BUFFER && 0 <= Front(c)
    && c.buffer == c.published[Front(c)..]
    && (forall i, j :: 0 <= i < j < |c.taken| ==> c.taken[i] < c.taken[j])
    && (forall i :: 0 <= i < |c.taken| ==> c.taken[i] < Front(c))
    && (!c.sender.Retrying? && c.buffer == [] && c.published != [] ==>
          c.taken != [] && c.taken[|c.taken| - 1] == |c.published| - 1)
    && !c.sender.GaveUp?
    && (c.sender.Retrying? ==> |c.buffer| < Delivery.SUBSCRIBER_BUFFER)
  }

  lemma SendKeepsGood(c: State, snap: Snapshot)
    requires Good(c) && |c.buffer| < Delivery.SUBSCRIBER_BUFFER
    ensures Good(Send(c, snap))
  {
    assert c.published + [snap] == c.published[..Front(c)] + (c.buffer + [snap]);
    assert Send(c, snap).buffer == Send(c, snap).published[Front(c)..];
  }

  lemma ReceiveKeepsGood(c: State)
    requires Good(c) && Next(c, Receive).Some?
    ensures Good(Next(c, Receive).value)
  {
    assert c.published[Front(c)..][1..] == c.published[Front(c) + 1..];
  }

  lemma DrainKeepsGood(c: State)
    requires Good(c) && c.sender.Draining?
    ensures Good(Next(c, Advance).value)
  {
    if c.buffer != [] { assert c.published[Front(c)..][1..] == c.published[Front(c) + 1..]; }
  }

  lemma StepKeepsGood(c: State, step: Step)
    requires Good(c) && Next(c, step).Some?
    ensures Good(Next(c, step).value)
  {
    match step
    case Begin(_) =>
    case Receive => ReceiveKeepsGood(c);
    case Advance =>
      if c.sender.Draining? {
        DrainKeepsGood(c);
      } else if |c.buffer| < Delivery.SUBSCRIBER_BUFFER {
        SendKeepsGood(c, c.sender.s);
      }
  }

  function Exec(c: State, steps: seq<Step>): Option<State>
    decreases |steps|
  {
    if steps == [] then Some(c)
    else
      var n := Next(c, steps[0]);
      if n.None? then None else Exec(n.value, steps[1..])
  }

  lemma {:induction false} ExecKeepsGood(c: State, steps: seq<Step>)
    requires Good(c) && Exec(c, steps).Some?
    ensures Good(Exec(c, steps).value)
    decreases |steps|
  {
    if steps != [] {
      StepKeepsGood(c, steps[0]);
      ExecKeepsGood(Next(c, steps[0]).value, steps[1..]);
    }
  }

  /**
   * Under every interleaving of the sender with the receiver: the last select's default is never
   * taken; the queue is the last of what was published, never more than the buffer holds; what
   * was received came in publish order; and whenever no Publish is under way, the newest
   * publication is queued or was received last.
   */
  lemma QueueIsNewestSuffix(steps: seq<Step>, c: State)
    requires Exec(Init(), steps) == Some(c)
    ensures !c.sender.GaveUp?
    ensures |c.buffer| <= Delivery.SUBSCRIBER_BUFFER && |c.buffer| <= |c.published|
    ensures c.buffer == c.published[|c.published| - |c.buffer|..]
    ensures forall i, j :: 0 <= i < j < |c.taken| ==> c.taken[i] < c.taken[j] < |c.published| - |c.buffer|
    ensures c.sender.Idle? && c.published != [] ==>
              (if c.buffer != [] then c.buffer[|c.buffer| - 1] == c.published[|c.published| - 1]
               else c.taken != [] && c.taken[|c.taken| - 1] == |c.published| - 1)
  {
    hide Exec, Good;
    InitIsGood();
    ExecKeepsGood(Init(), steps);
    QueueIsSuffix(c);
    TakenInOrder(c);
    NewestIsThere(c);
  }

  lemma InitIsGood()
    ensures Good(Init())
  {
  }

  lemma QueueIsSuffix(c: State)
    requires Good(c)
    ensures |c.buffer| <= Delivery.SUBSCRIBER_BUFFER && |c.buffer| <= |c.published| && !c.sender.GaveUp?
    ensures c.buffer == c.published[|c.published| - |c.buffer|..]
  {
  }

  lemma TakenInOrder(c: State)
    requires Good(c)
    ensures forall i, j :: 0 <= i < j < |c.taken| ==> c.taken[i] < c.taken[j] < |c.published| - |c.buffer|
  {
  }

  lemma NewestIsThere(c: State)
    requires Good(c)
    ensures c.sender.Idle? && c.published != [] ==>
              (if c.buffer != [] then c.buffer[|c.buffer| - 1] == c.published[|c.published| - 1]
               else c.taken != [] && c.taken[|c.taken| - 1] == |c.published| - 1)
  {
  }

  /** Of a receiver that takes nothing, the last four publications are kept. */
  ghost predicate Untouched(c: State) {
    && (c.sender.Retrying? ==> |c.buffer| == 3 && |c.published| >= 4)
    && (c.sender.Draining? ==> |c.buffer| == 4)
    && (!c.sender.Retrying? ==> |c.buffer| == if |c.published| < 4 then |c.published| else 4)
  }

  lemma {:induction false} ExecKeepsUntouched(c: State, steps: seq<Step>)
    requires Good(c) && Untouched(c) && Receive !in steps && Exec(c, steps).Some?
    ensures Good(Exec(c, steps).value) && Untouched(Exec(c, steps).value)
    decreases |steps|
  {
    hide Good;
    if steps != [] {
      assert steps[0] in steps;
      StepKeepsGood(c, steps[0]);
      assert Untouched(Next(c, steps[0]).value) by { StepKeepsUntouched(c, steps[0]); }
      ExecKeepsUntouched(Next(c, steps[0]).value, steps[1..]);
    }
  }

  lemma StepKeepsUntouched(c: State, step: Step)
    requires Good(c) && Untouched(c) && step != Receive && Next(c, step).Some?
    ensures Untouched(Next(c, step).value)
  {
  }

  lemma KeepsTheLastFour(steps: seq<Step>, c: State)
    requires Exec(Init(), steps) == Some(c) && Receive !in steps && c.sender.Idle?
    ensures c.buffer == c.published[if |c.published| < 4 then 0 else |c.published| - 4..]
  {
    ExecKeepsUntouched(Init(), steps);
  }

  /** An uninterrupted Publish comes through, and does to the channel what Offer does. */
  lemma PublishComesThrough(c: State, snap: Snapshot) returns (steps: seq<Step>, z: State)
    requires Good(c) && c.sender.Idle?
    ensures Exec(c, steps) == Some(z) && Receive !in steps
    ensures z == State(c.published + [snap], Hub.Enqueue(c.buffer, snap), c.taken, Idle)
  {
    var sending := c.(sender := Sending(snap));
    z := State(c.published + [snap], Hub.Enqueue(c.buffer, snap), c.taken, Idle);
    assert Exec(z, []) == Some(z);
    if |c.buffer| < Delivery.SUBSCRIBER_BUFFER {
      steps := [Begin(snap), Advance];
      assert steps[1..] == [Advance] && [Advance][1..] == [];
      assert Exec(sending, [Advance]) == Some(z);
    } else {
      var drained := c.(buffer := c.buffer[1..], sender := Retrying(snap));
      steps := [Begin(snap), Advance, Advance, Advance];
      assert steps[1..] == [Advance, Advance, Advance] && [Advance, Advance, Advance][1..] == [Advance, Advance];
      assert [Advance, Advance][1..] == [Advance] && [Advance][1..] == [];
      assert Exec(drained, [Advance]) == Some(z);
      assert Exec(c.(sender := Draining(snap)), [Advance, Advance]) == Some(z);
      assert Exec(sending, [Advance, Advance, Advance]) == Some(z);
    }
  }

  /** A receiver that keeps taking gets everything queued, in order, up to the newest. */
  lemma {:induction false} ReceiverCatchesUp(c: State) returns (steps: seq<Step>, z: State)
    requires Good(c)
    ensures Exec(c, steps) == Some(z) && z == c.(buffer := [], taken := z.taken)
    ensures z.taken == c.taken + seq(|c.buffer|, i requires 0 <= i < |c.buffer| => Front(c) + i)
    decreases |c.buffer|
  {
    if c.buffer == [] {
      steps, z := [], c;
    } else {
      ReceiveKeepsGood(c);
      var n := Next(c, Receive).value;
      steps, z := ReceiverCatchesUp(n);
      steps := [Receive] + steps;
      assert steps[1..] + [] == steps[1..];
    }
  }

  /** The queue as the delivery machine sees it: a publication takes effect when it makes room. */
  function Seen(c: State): seq<Snapshot> {
    if c.sender.Retrying? then c.buffer + [c.sender.s] else c.buffer
  }

  /** One publication: the oldest may go, the snapshot is last. */
  predicate Published(q: seq<Snapshot>, q': seq<Snapshot>, snap: Snapshot, drop: nat) {
    drop <= 1 && drop <= |q| < drop + Delivery.SUBSCRIBER_BUFFER && q' == q[drop..] + [snap]
  }

  lemma BeginShowsNothing(c: State, step: Step)
    requires step.Begin? && Next(c, step).Some?
    ensures Seen(Next(c, step).value) == Seen(c)
  {
  }

  lemma ReceiveShows(c: State)
    requires Next(c, Receive).Some?
    ensures Seen(c) != [] && Seen(Next(c, Receive).value) == Seen(c)[1..] && c.buffer[0] == Seen(c)[0]
  {
    if c.sender.Retrying? { assert (c.buffer + [c.sender.s])[1..] == c.buffer[1..] + [c.sender.s]; }
  }

  lemma RetryShowsNothing(c: State)
    requires Good(c) && c.sender.Retrying? && Next(c, Advance).Some?
    ensures Seen(Next(c, Advance).value) == Seen(c)
  {
  }

  lemma AdvanceIsPublish(c: State) returns (drop: nat)
    requires Good(c) && (c.sender.Sending? || c.sender.Draining?) && Next(c, Advance).Some?
    ensures var q, q' := Seen(c), Seen(Next(c, Advance).value);
            q' == q || Published(q, q', c.sender.s, drop)
  {
    drop := if c.sender.Draining? && c.buffer != [] then 1 else 0;
  }

  /**
   * Every small step is, on the queue as seen, nothing at all, a receive of its head, or one
   * publication that drops at most one snapshot and fits the buffer - a Publish(drop) step of the
   * delivery machine.
   */
  lemma SmallStepsArePublishes(c: State, step: Step)
    requires Good(c) && Next(c, step).Some?
    ensures var q, q' := Seen(c), Seen(Next(c, step).value);
            || q' == q
            || (step == Receive && q != [] && q' == q[1..] && c.buffer[0] == q[0])
            || (step == Advance && (c.sender.Sending? || c.sender.Draining?)
                && exists drop: nat :: Published(q, q', c.sender.s, drop))
  {
    hide Good, Published, Seen;
    match step
    case Begin(_) => assert Seen(Next(c, step).value) == Seen(c) by { BeginShowsNothing(c, step); }
    case Receive => ReceiveShows(c);
    case Advance =>
      if c.sender.Retrying? {
        RetryShowsNothing(c);
      } else {
        var drop := AdvanceIsPublish(c);
      }
  }
}
