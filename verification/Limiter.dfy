/** The login limiter: a sliding window of hits per key, compacted in place on a shared array. */
module Limiter {
  /** The times after the cutoff, in order. */
  function After(s: seq<int>, cutoff: int): seq<int> {
    if s == [] then []
    else After(s[..|s| - 1], cutoff) + (if s[|s| - 1] > cutoff then [s[|s| - 1]] else [])
  }

  /** How many of the times lie in the half-open interval (a, b]. */
  function Hits(s: seq<int>, a: int, b: int): nat {
    if s == [] then 0 else Hits(s[..|s| - 1], a, b) + (if a < s[|s| - 1] <= b then 1 else 0)
  }

  predicate Increasing(s: seq<int>) {
    forall i, j :: 0 <= i <= j < |s| ==> s[i] <= s[j]
  }

  /** Every hit of the log was accepted while fewer than max were in the window before it. */
  predicate Earned(s: seq<int>, max: int, window: int) {
    forall i :: 0 <= i < |s| ==> |After(s[..i], s[i] - window)| < max
  }

  lemma AfterNone(cutoff: int)
    ensures After([], cutoff) == []
  {
  }

  lemma {:induction false} AfterSnoc(s: seq<int>, x: int, cutoff: int)
    ensures After(s + [x], cutoff) == After(s, cutoff) + (if x > cutoff then [x] else [])
  {
    assert (s + [x])[..|s|] == s;
  }

  /** Pruning is cumulative: what an earlier cutoff removed, a later one would have. */
  lemma {:induction false} AfterAgain(s: seq<int>, early: int, late: int)
    requires early <= late
    ensures After(After(s, early), late) == After(s, late)
  {
    if s != [] {
      var x := s[|s| - 1];
      AfterAgain(s[..|s| - 1], early, late);
      AfterSnoc(After(s[..|s| - 1], early), x, late);
      assert After(s[..|s| - 1], early) + [] == After(s[..|s| - 1], early);
    }
  }

  lemma {:induction false} AfterShrinks(s: seq<int>, early: int, late: int)
    requires early <= late
    ensures |After(s, late)| <= |After(s, early)|
  {
    if s != [] { AfterShrinks(s[..|s| - 1], early, late); }
  }

  lemma {:induction false} HitsUpToNow(s: seq<int>, a: int, b: int)
    requires forall i :: 0 <= i < |s| ==> s[i] <= b
    ensures Hits(s, a, b) == |After(s, a)|
  {
    if s != [] { HitsUpToNow(s[..|s| - 1], a, b); }
  }

  lemma EarnedPrefix(s: seq<int>, n: nat, max: int, window: int)
    requires n <= |s| && Increasing(s) && Earned(s, max, window)
    ensures Increasing(s[..n]) && Earned(s[..n], max, window)
  {
    forall i | 0 <= i < n ensures |After(s[..n][..i], s[..n][i] - window)| < max {
      assert s[..n][..i] == s[..i];
    }
  }

  /** An interval reaching past the last hit holds no more than the last one's window, and itself. */
  lemma {:induction false} LastWindowFits(s: seq<int>, max: int, window: int, a: int)
    requires s != [] && Increasing(s) && s[|s| - 1] <= a + window
    requires |After(s[..|s| - 1], s[|s| - 1] - window)| < max
    ensures Hits(s, a, a + window) <= max
  {
    hide Hits;
    HitsUpToNow(s, a, a + window);
    AfterShrinks(s[..|s| - 1], s[|s| - 1] - window, a);
  }

  /** No interval of the window's length, wherever it lies, holds more than max accepted hits. */
  lemma {:induction false} NoWindowOverflows(s: seq<int>, max: int, window: int, a: int)
    requires Increasing(s) && Earned(s, max, window)
    ensures Hits(s, a, a + window) <= if max < 0 then 0 else max
  {
    if s != [] {
      var rest, last := s[..|s| - 1], s[|s| - 1];
      if last > a + window {
        EarnedPrefix(s, |rest|, max, window);
        NoWindowOverflows(rest, max, window, a);
      } else {
        LastWindowFits(s, max, window, a);
      }
    }
  }

  /**
   * What the kept hits of a key say about all it was ever accepted: no cutoff still to come can
   * tell the two apart, and every acceptance was earned.
   */
  ghost predicate Sound(kept: seq<int>, log: seq<int>, clock: int, max: int, window: int) {
    && (forall cutoff :: cutoff >= clock - window ==> After(kept, cutoff) == After(log, cutoff))
    && Increasing(log) && Earned(log, max, window)
    && (forall i :: 0 <= i < |log| ==> log[i] <= clock)
  }

  lemma SoundLater(kept: seq<int>, log: seq<int>, clock: int, now: int, max: int, window: int)
    requires Sound(kept, log, clock, max, window) && clock <= now
    ensures Sound(kept, log, now, max, window)
  {
  }

  /** What was pruned away can never count again. */
  lemma SoundPruned(kept: seq<int>, log: seq<int>, now: int, max: int, window: int)
    requires Sound(kept, log, now, max, window)
    ensures Sound(After(kept, now - window), log, now, max, window)
    ensures After(kept, now - window) == After(log, now - window)
  {
    forall c | c >= now - window ensures After(After(kept, now - window), c) == After(log, c) {
      AfterAgain(kept, now - window, c);
    }
  }

  lemma SoundAppended(kept: seq<int>, log: seq<int>, now: int, max: int, window: int)
    requires Sound(kept, log, now, max, window) && |After(log, now - window)| < max
    ensures Sound(kept + [now], log + [now], now, max, window)
  {
    forall c | c >= now - window ensures After(kept + [now], c) == After(log + [now], c) {
      AfterSnoc(kept, now, c);
      AfterSnoc(log, now, c);
    }
    EarnedSnoc(log, now, max, window);
  }

  lemma EarnedSnoc(s: seq<int>, now: int, max: int, window: int)
    requires Earned(s, max, window) && |After(s, now - window)| < max
    ensures Earned(s + [now], max, window)
  {
    forall i | 0 <= i < |s + [now]| ensures |After((s + [now])[..i], (s + [now])[i] - window)| < max {
      assert (s + [now])[..i] == s[..i];
      assert s[..|s|] == s;
    }
  }

  /** A Go slice that starts its backing array. */
  datatype Slice = Slice(arr: array<int>, len: nat)

  class LoginLimiter {
    const maxAttempts: int
    const window: int
    var hits: map<string, Slice>
    /** Every accepted attempt ever, per key. */
    ghost var log: map<string, seq<int>>
    /** The latest time the clock has shown. */
    ghost var clock: int

    ghost function Arrays(): set<array<int>>
      reads this
    {
      set k | k in hits :: hits[k].arr
    }

    ghost function Log(key: string): seq<int>
      reads this
    {
      if key in log then log[key] else []
    }

    ghost predicate WellFormed()
      reads this, Arrays()
    {
      && (forall k :: k in hits ==> hits[k].len <= hits[k].arr.Length)
      && (forall k, k' :: k in hits && k' in hits && k != k' ==> hits[k].arr != hits[k'].arr)
    }

    ghost function Kept(key: string): seq<int>
      requires WellFormed()
      reads this, Arrays()
    {
      if key in hits then hits[key].arr[..hits[key].len] else []
    }

    ghost predicate Valid()
      reads this, Arrays()
    {
      WellFormed() && forall key :: Sound(Kept(key), Log(key), clock, maxAttempts, window)
    }

    constructor (maxAttempts: int, window: int)
      ensures Valid() && log == map[] && this.maxAttempts == maxAttempts && this.window == window
    {
      this.maxAttempts, this.window := maxAttempts, window;
      hits, log, clock := map[], map[], 0;
    }

    /** pruneLocked: compacts the key's hits in place and says how many are left. */
    method PruneLocked(key: string, now: int) returns (kept: nat)
      requires WellFormed() && key in hits
      modifies hits[key].arr
      ensures kept <= hits[key].len
      ensures hits[key].arr[..kept] == After(old(hits[key].arr[..hits[key].len]), now - window)
    {
      hide After;
      var slice := hits[key];
      var cutoff := now - window;
      kept := 0;
      AfterNone(cutoff);
      for i := 0 to slice.len
        invariant kept <= i
        invariant slice.arr[..kept] == After(old(slice.arr[..i]), cutoff)
        invariant forall j :: i <= j < slice.len ==> slice.arr[j] == old(slice.arr[j])
      {
        var h := slice.arr[i];
        ghost var before := slice.arr[..kept];
        AfterSnoc(old(slice.arr[..i]), h, cutoff);
        assert old(slice.arr[..i + 1]) == old(slice.arr[..i]) + [h];
        if h > cutoff {
          slice.arr[kept] := h;
          kept := kept + 1;
          assert slice.arr[..kept] == before + [h];
        }
      }
    }

    /** A missing key reads as a nil slice. */
    method Touch(key: string)
      requires WellFormed()
      modifies this`hits
      ensures WellFormed() && key in hits && fresh(Arrays() - old(Arrays()))
      ensures forall k :: Kept(k) == old(Kept(k))
    {
      if key !in hits {
        var none := new int[0];
        hits := hits[key := Slice(none, 0)];
      }
    }

    /** `kept := pruneLocked(key, now)`, put back as the key's hits. */
    method Compact(key: string, now: int)
      requires WellFormed()
      modifies this`hits, Arrays()
      ensures WellFormed() && key in hits && fresh(Arrays() - old(Arrays()))
      ensures Kept(key) == After(old(Kept(key)), now - window)
      ensures forall k :: k != key ==> Kept(k) == old(Kept(k))
    {
      hide After;
      Touch(key);
      var kept := PruneLocked(key, now);
      hits := hits[key := Slice(hits[key].arr, kept)];
    }

    method Prune(key: string, now: int)
      requires Valid() && clock <= now
      modifies this, Arrays()
      ensures Valid() && clock == now && log == old(log)
      ensures key in hits && Kept(key) == After(Log(key), now - window)
      ensures forall k :: k != key ==> Kept(k) == old(Kept(k))
      ensures fresh(Arrays() - old(Arrays()))
    {
      hide Sound, After;
      SoundLater(Kept(key), Log(key), clock, now, maxAttempts, window);
      SoundPruned(Kept(key), Log(key), now, maxAttempts, window);
      Compact(key, now);
      clock := now;
      forall k ensures Sound(Kept(k), Log(k), now, maxAttempts, window) {
        assert Log(k) == old(Log(k));
        if k == key {
          assert Kept(k) == After(old(Kept(k)), now - window);
        } else {
          assert Kept(k) == old(Kept(k));
          SoundLater(Kept(k), Log(k), old(clock), now, maxAttempts, window);
        }
      }
    }

    /** The reallocation `append` makes when the array is full. */
    method MakeRoom(key: string)
      requires WellFormed() && key in hits
      modifies this`hits
      ensures WellFormed() && key in hits && hits[key].len < hits[key].arr.Length
      ensures fresh(Arrays() - old(Arrays()))
      ensures forall k :: Kept(k) == old(Kept(k))
    {
      if hits[key].len == hits[key].arr.Length {
        var larger := Grow(hits[key]);
        hits := hits[key := larger];
      }
    }

    /** `append(kept, now)`: in place while the array has room, into a larger one otherwise. */
    method Push(key: string, now: int)
      requires WellFormed() && key in hits
      modifies this`hits, Arrays()
      ensures WellFormed() && key in hits && fresh(Arrays() - old(Arrays()))
      ensures Kept(key) == old(Kept(key)) + [now]
      ensures forall k :: k != key ==> Kept(k) == old(Kept(k))
    {
      MakeRoom(key);
      var slice := hits[key];
      slice.arr[slice.len] := now;
      hits := hits[key := Slice(slice.arr, slice.len + 1)];
    }

    method Append(key: string, now: int)
      requires Valid() && key in hits && clock == now
      requires |After(Log(key), now - window)| < maxAttempts
      modifies this, Arrays()
      ensures Valid() && clock == now && log == old(log)[key := old(Log(key)) + [now]]
      ensures fresh(Arrays() - old(Arrays()))
    {
      hide Sound, After;
      SoundAppended(Kept(key), Log(key), now, maxAttempts, window);
      Push(key, now);
      log := log[key := Log(key) + [now]];
      assert Kept(key) == old(Kept(key)) + [now] && Log(key) == old(Log(key)) + [now];
      forall k | k != key ensures Sound(Kept(k), Log(k), now, maxAttempts, window) {
        assert Kept(k) == old(Kept(k)) && Log(k) == old(Log(k));
      }
    }

    /**
     * One failed attempt: accepted, and recorded, exactly when fewer than maxAttempts of all the
     * attempts ever accepted lie in the window ending now.
     */
    method Allow(key: string, now: int) returns (ok: bool)
      requires Valid() && clock <= now
      modifies this, Arrays()
      ensures Valid() && clock == now && fresh(Arrays() - old(Arrays()))
      ensures ok <==> |After(old(Log(key)), now - window)| < maxAttempts
      ensures log == if ok then old(log)[key := old(Log(key)) + [now]] else old(log)
    {
      Prune(key, now);
      if hits[key].len >= maxAttempts {
        return false;
      }
      Append(key, now);
      return true;
    }

    method UnderLimit(key: string, now: int) returns (ok: bool)
      requires Valid() && clock <= now
      modifies this, Arrays()
      ensures Valid() && clock == now && fresh(Arrays() - old(Arrays()))
      ensures ok <==> |After(Log(key), now - window)| < maxAttempts
      ensures log == old(log)
    {
      Prune(key, now);
      ok := hits[key].len < maxAttempts;
    }

    /** Whatever was asked and pruned, no key was ever let through more often than the window allows. */
    lemma NoKeyOverflows(key: string, a: int)
      requires Valid()
      ensures Hits(Log(key), a, a + window) <= if maxAttempts < 0 then 0 else maxAttempts
    {
      assert Sound(Kept(key), Log(key), clock, maxAttempts, window);
      NoWindowOverflows(Log(key), maxAttempts, window, a);
    }
  }

  method Grow(slice: Slice) returns (larger: Slice)
    requires slice.len <= slice.arr.Length
    ensures fresh(larger.arr) && larger.len == slice.len < larger.arr.Length
    ensures larger.arr[..larger.len] == slice.arr[..slice.len]
  {
    var arr := new int[2 * slice.len + 1];
    for i := 0 to slice.len
      invariant arr[..i] == slice.arr[..i]
    {
      arr[i] := slice.arr[i];
    }
    larger := Slice(arr, slice.len);
  }
}
