/** The Go SDK's client: one in-memory snapshot behind a revision gate. */
module Client {
  import opened Json
  import opened Targeting
  import opened Delta

  const EMPTY_SNAPSHOT := Snapshot(0, 0, "", map[], SomeRules(map[]))

  /** A snapshot as the client stores it: nil targeting becomes an empty map. */
  function Filled(s: Snapshot): Snapshot {
    s.(targeting := SomeRules(Rules(s.targeting)))
  }

  /** The revision gate every live update goes through. */
  function Gate(current: Snapshot, s: Snapshot): Snapshot {
    if s.revision <= current.revision then current else Filled(s)
  }

  function GateAll(current: Snapshot, arrivals: seq<Snapshot>): Snapshot
    decreases |arrivals|
  {
    if arrivals == [] then current else GateAll(Gate(current, arrivals[0]), arrivals[1..])
  }

  function Newest(current: int, arrivals: seq<Snapshot>): int
    decreases |arrivals|
  {
    if arrivals == [] then current
    else Newest(if arrivals[0].revision > current then arrivals[0].revision else current, arrivals[1..])
  }

  /** Whatever arrives, in whatever order, the client ends on the greatest revision it saw. */
  lemma {:induction false} GateKeepsNewest(current: Snapshot, arrivals: seq<Snapshot>)
    ensures GateAll(current, arrivals).revision == Newest(current.revision, arrivals)
    ensures GateAll(current, arrivals).revision >= current.revision
    ensures forall s :: s in arrivals ==> s.revision <= GateAll(current, arrivals).revision
    ensures GateAll(current, arrivals) == current
            || exists s :: s in arrivals && GateAll(current, arrivals) == Filled(s)
    decreases |arrivals|
  {
    if arrivals != [] {
      GateKeepsNewest(Gate(current, arrivals[0]), arrivals[1..]);
      forall s | s in arrivals ensures s.revision <= GateAll(current, arrivals).revision {
        assert s == arrivals[0] || s in arrivals[1..];
      }
    }
  }

  lemma {:induction false} GateAllConcat(current: Snapshot, a: seq<Snapshot>, b: seq<Snapshot>)
    ensures GateAll(current, a + b) == GateAll(GateAll(current, a), b)
    decreases |a|
  {
    if a == [] {
      assert a + b == b;
    } else {
      assert (a + b)[1..] == a[1..] + b;
      GateAllConcat(Gate(current, a[0]), a[1..], b);
    }
  }

  /** What the listeners hear of: the values of each arrival that is swapped in. */
  function Notices(current: Snapshot, arrivals: seq<Snapshot>): seq<Values>
    decreases |arrivals|
  {
    if arrivals == [] then []
    else (if arrivals[0].revision <= current.revision then [] else [arrivals[0].values])
         + Notices(Gate(current, arrivals[0]), arrivals[1..])
  }

  lemma {:induction false} NoticesConcat(current: Snapshot, a: seq<Snapshot>, b: seq<Snapshot>)
    ensures Notices(current, a + b) == Notices(current, a) + Notices(GateAll(current, a), b)
    decreases |a|
  {
    if a == [] {
      assert a + b == b;
    } else {
      assert (a + b)[1..] == a[1..] + b;
      NoticesConcat(Gate(current, a[0]), a[1..], b);
    }
  }

  class Client {
    var current: Snapshot
    var closed: bool
    /** The background context has been made (c.cancel is set), and is still alive. */
    var started: bool
    var alive: bool
    /** How often the stream and poll goroutines were launched. */
    ghost var launches: nat
    /** The values every OnChange listener has been called with. */
    ghost var notified: seq<Values>

    ghost predicate Valid()
      reads this
    {
      && launches == (if started then 1 else 0)
      && (alive <==> started && !closed)
    }

    constructor ()
      ensures Valid() && current == EMPTY_SNAPSHOT && !closed && launches == 0 && notified == []
    {
      current, closed, started, alive, launches, notified := EMPTY_SNAPSHOT, false, false, false, 0, [];
    }

    method SetSnapshot(snap: Snapshot)
      modifies this`current
      ensures current == Filled(snap)
    {
      current := snap.(targeting := SomeRules(Rules(snap.targeting)));
    }

    /** startBackground: at most once, and not after Close. */
    method StartBackground()
      requires Valid()
      modifies this`started, this`alive, this`launches
      ensures Valid() && started == (old(started) || !closed)
      ensures launches == old(launches) + if old(started) || closed then 0 else 1
    {
      if closed || started {
        return;
      }
      started, alive := true, true;
      launches := launches + 1;
    }

    /** The first fetch: it failed, or brought a snapshot back, or (None) a 404. */
    method Ready(failed: bool, fetched: Option<Snapshot>) returns (ok: bool)
      requires Valid()
      modifies this
      ensures Valid()
      ensures ok <==> !failed
      ensures failed ==> current == old(current) && launches == old(launches)
      ensures !failed ==> current == Filled(if fetched.Some? then fetched.value else EMPTY_SNAPSHOT)
      ensures !failed && !closed ==> alive && launches == 1
      ensures closed ==> launches == old(launches)
      ensures closed == old(closed) && notified == old(notified)
    {
      if failed {
        return false;
      }
      if fetched.None? {
        SetSnapshot(EMPTY_SNAPSHOT);
      } else {
        SetSnapshot(fetched.value);
      }
      StartBackground();
      return true;
    }

    method ApplySnapshot(snap: Snapshot)
      modifies this`current, this`notified
      ensures current == Gate(old(current), snap)
      ensures notified == old(notified) + if current == old(current) then [] else [current.values]
    {
      if snap.revision <= current.revision {
        return;
      }
      current := snap.(targeting := SomeRules(Rules(snap.targeting)));
      notified := notified + [current.values];
    }

    /**
     * One delta frame. `meanwhile` is what the poll applies between the chaining check and the
     * apply, `fetched` what a resync would bring back (None when it fails or finds nothing).
     */
    method ApplyDeltaFrame(d: Delta, meanwhile: seq<Snapshot>, fetched: Option<Snapshot>)
      modifies this`current, this`notified
      ensures var last := if d.from == old(current).revision then [SdkApply(old(current), d)]
                          else if fetched.Some? then [fetched.value] else [];
              && current == GateAll(old(current), meanwhile + last)
              && notified == old(notified) + Notices(old(current), meanwhile + last)
    {
      var captured := current;
      for i := 0 to |meanwhile|
        invariant current == GateAll(captured, meanwhile[..i])
        invariant notified == old(notified) + Notices(captured, meanwhile[..i])
      {
        GateAllConcat(captured, meanwhile[..i], [meanwhile[i]]);
        NoticesConcat(captured, meanwhile[..i], [meanwhile[i]]);
        assert meanwhile[..i + 1] == meanwhile[..i] + [meanwhile[i]];
        ApplySnapshot(meanwhile[i]);
      }
      assert meanwhile[..|meanwhile|] == meanwhile;
      if d.from == captured.revision {
        var next := ApplyDeltaInSdk(captured, d);
        GateAllConcat(captured, meanwhile, [next]);
        NoticesConcat(captured, meanwhile, [next]);
        ApplySnapshot(next);
      } else if fetched.Some? {
        GateAllConcat(captured, meanwhile, [fetched.value]);
        NoticesConcat(captured, meanwhile, [fetched.value]);
        ApplySnapshot(fetched.value);
      } else {
        assert meanwhile + [] == meanwhile;
      }
    }

    method Close()
      requires Valid()
      modifies this`closed, this`alive
      ensures Valid() && closed && !alive
    {
      if closed {
        return;
      }
      closed := true;
      if started {
        alive := false;
      }
    }
  }
}
