/** Snapshots, the deltas between them, and the three programs that apply a delta. */
module Delta {
  import opened Json
  import opened Ordering
  import opened Targeting

  /** A Go targeting map, or an optional TypeScript one: it may be nil/undefined instead of empty. */
  datatype MaybeRules = NoRules | SomeRules(m: RuleMap)

  function Rules(t: MaybeRules): RuleMap {
    match t case NoRules => map[] case SomeRules(m) => m
  }

  /** How an `omitempty` targeting map reads back from the wire: an empty one is absent. */
  function OmitEmpty(rules: RuleMap): MaybeRules {
    if rules == map[] then NoRules else SomeRules(rules)
  }

  datatype Snapshot = Snapshot(
    version: int, revision: int, schemaHash: string, values: Values, targeting: MaybeRules)

  function Normal(s: Snapshot): Snapshot {
    s.(targeting := OmitEmpty(Rules(s.targeting)))
  }

  /** Two snapshots no reader can tell apart: equal up to nil versus empty targeting. */
  predicate Same(s: Snapshot, t: Snapshot) {
    Normal(s) == Normal(t)
  }

  datatype FieldDelta<V> = FieldDelta(sets: map<string, V>, remove: seq<string>)

  datatype Delta = Delta(
    version: int, revision: int, from: int, schemaHash: string,
    values: FieldDelta<Value>, targeting: FieldDelta<seq<Rule>>)

  // ---------------------------------------------------------------- specification

  ghost predicate Agree<V>(a: map<string, V>, b: map<string, V>, k: string) {
    (k in a <==> k in b) && (k in a && k in b ==> a[k] == b[k])
  }

  ghost function Changed<V>(prev: map<string, V>, next: map<string, V>): map<string, V> {
    map k | k in next && !Agree(prev, next, k) :: next[k]
  }

  ghost function Diff<V>(prev: map<string, V>, next: map<string, V>): FieldDelta<V> {
    FieldDelta(Changed(prev, next), Sorted(prev.Keys - next.Keys))
  }

  ghost function Patch<V>(base: map<string, V>, d: FieldDelta<V>): map<string, V> {
    (base + d.sets) - Elements(d.remove)
  }

  ghost function ComputeDelta(prev: Snapshot, next: Snapshot): Delta {
    Delta(next.version, next.revision, prev.revision, next.schemaHash,
          Diff(prev.values, next.values), Diff(Rules(prev.targeting), Rules(next.targeting)))
  }

  ghost function Applied(base: Snapshot, d: Delta, targeting: MaybeRules): Snapshot {
    Snapshot(d.version, d.revision, d.schemaHash, Patch(base.values, d.values), targeting)
  }

  /** The server's applier: refuses a delta that does not chain, and keeps empty targeting nil. */
  ghost function ServerApply(base: Snapshot, d: Delta): (Snapshot, bool) {
    if d.from != base.revision then (base, false)
    else (Applied(base, d, OmitEmpty(Patch(Rules(base.targeting), d.targeting))), true)
  }

  /** The Go SDK's applier: no check, and targeting is always a fresh map. */
  ghost function SdkApply(current: Snapshot, d: Delta): Snapshot {
    Applied(current, d, SomeRules(Patch(Rules(current.targeting), d.targeting)))
  }

  // ---------------------------------------------------------------- the algebra

  /**
   * A diff taken from b to n and applied to c gives t exactly when t has c's entry on every key
   * the diff leaves out, and n's on every other.
   */
  lemma PatchDiffGives<V>(c: map<string, V>, b: map<string, V>, n: map<string, V>, t: map<string, V>)
    ensures Patch(c, Diff(b, n)) == t
            <==> forall k :: if Agree(b, n, k) then Agree(c, t, k) else Agree(n, t, k)
  {
    var d := Diff(b, n);
    var r := Patch(c, d);
    assert Elements(d.remove) == b.Keys - n.Keys;
    forall k ensures if Agree(b, n, k) then Agree(c, r, k) else Agree(n, r, k) {
      assert k in d.sets || k in Elements(d.remove) <==> !Agree(b, n, k);
    }
    if forall k :: if Agree(b, n, k) then Agree(c, t, k) else Agree(n, t, k) {
      forall k ensures Agree(r, t, k) {
        assert if Agree(b, n, k) then Agree(c, t, k) else Agree(n, t, k);
      }
      assert r.Keys == t.Keys by {
        forall k ensures k in r.Keys <==> k in t.Keys { assert Agree(r, t, k); }
      }
      forall k | k in t ensures r[k] == t[k] { assert Agree(r, t, k); }
      assert r == t;
    }
  }

  /** In particular it gives n exactly when c has n's entries there. With c == b this is inversion. */
  lemma PatchDiffExactly<V>(c: map<string, V>, b: map<string, V>, n: map<string, V>)
    ensures Patch(c, Diff(b, n)) == n <==> forall k :: Agree(b, n, k) ==> Agree(c, n, k)
  {
    PatchDiffGives(c, b, n, n);
    assert forall k :: Agree(n, n, k);
  }

  lemma PatchInvertsDiff<V>(prev: map<string, V>, next: map<string, V>)
    ensures Patch(prev, Diff(prev, next)) == next
  {
    PatchDiffExactly(prev, prev, next);
  }

  /** A diff names exactly the changed keys, once each, and never both sets and removes a key. */
  lemma DiffIsExact<V>(prev: map<string, V>, next: map<string, V>)
    ensures var d := Diff(prev, next);
            && (forall k :: k in d.sets || k in d.remove <==> !Agree(prev, next, k))
            && StrictlySorted(d.remove)
            && (forall k :: k in d.remove ==> k !in d.sets)
  {
    var d := Diff(prev, next);
    assert forall k :: k in d.remove <==> k in Elements(d.remove);
  }

  /** No delta that reaches next says less: it sets every entry Diff sets and removes every key Diff removes. */
  lemma DiffIsLeast<V>(prev: map<string, V>, next: map<string, V>, d: FieldDelta<V>)
    requires Patch(prev, d) == next
    ensures forall k :: k in Diff(prev, next).sets ==> k in d.sets && d.sets[k] == next[k]
    ensures Elements(Diff(prev, next).remove) <= Elements(d.remove)
  {
    forall k | k in prev.Keys - next.Keys ensures k in Elements(d.remove) {
      assert k in Patch(prev, d).Keys || k in Elements(d.remove);
    }
    forall k | k in Diff(prev, next).sets ensures k in d.sets && d.sets[k] == next[k] {
      assert k in Patch(prev, d) && Patch(prev, d)[k] == (prev + d.sets)[k];
    }
  }

  /** Applying what was computed gives the new snapshot back, in the server's applier... */
  lemma ApplyInvertsCompute(prev: Snapshot, next: Snapshot)
    ensures ServerApply(prev, ComputeDelta(prev, next)) == (Normal(next), true)
  {
    PatchInvertsDiff(prev.values, next.values);
    PatchInvertsDiff(Rules(prev.targeting), Rules(next.targeting));
  }

  /** ... and only onto the revision it was computed from. */
  lemma DeltaOntoAnother(held: Snapshot, prev: Snapshot, next: Snapshot)
    requires held.revision == prev.revision
    ensures Same(SdkApply(held, ComputeDelta(prev, next)), next)
       <==> && (forall k :: Agree(prev.values, next.values, k) ==> Agree(held.values, next.values, k))
            && (forall k :: Agree(Rules(prev.targeting), Rules(next.targeting), k)
                        ==> Agree(Rules(held.targeting), Rules(next.targeting), k))
  {
    PatchDiffExactly(held.values, prev.values, next.values);
    PatchDiffExactly(Rules(held.targeting), Rules(prev.targeting), Rules(next.targeting));
    var r := SdkApply(held, ComputeDelta(prev, next));
    assert Rules(Normal(r).targeting) == Rules(r.targeting);
    assert Rules(Normal(next).targeting) == Rules(next.targeting);
  }

  // ---------------------------------------------------------------- the programs

  /** The first loop of diffValues and diffTargeting, over the next map in whatever order it iterates. */
  method ChangedEntries<V(==)>(prev: map<string, V>, next: map<string, V>) returns (sets: map<string, V>)
    ensures sets == Changed(prev, next)
  {
    sets := map[];
    var keys := next.Keys;
    while keys != {}
      invariant keys <= next.Keys
      invariant forall k :: k in sets <==> k in next && k !in keys && !Agree(prev, next, k)
      invariant forall k :: k in sets ==> sets[k] == next[k]
      decreases |keys|
    {
      var k :| k in keys;
      if k !in prev || prev[k] != next[k] {
        sets := sets[k := next[k]];
      }
      keys := keys - {k};
    }
  }

  /** Their second loop, over the previous map, with the sort that follows it. */
  method RemovedKeys<V>(prev: map<string, V>, next: map<string, V>) returns (remove: seq<string>)
    ensures remove == Sorted(prev.Keys - next.Keys)
  {
    remove := [];
    ghost var gone: set<string> := {};
    var keys := prev.Keys;
    while keys != {}
      invariant keys <= prev.Keys
      invariant Lists(remove, gone)
      invariant forall k :: k in gone <==> k in prev && k !in next && k !in keys
      decreases |keys|
    {
      var k :| k in keys;
      if k !in next {
        remove := InsertKey(k, remove, gone);
        gone := gone + {k};
      }
      keys := keys - {k};
    }
    assert gone == prev.Keys - next.Keys;
    SortedIsUnique(remove, Sorted(prev.Keys - next.Keys));
  }

  method Compute(prev: Snapshot, next: Snapshot) returns (d: Delta)
    ensures d == ComputeDelta(prev, next)
  {
    var vs := ChangedEntries(prev.values, next.values);
    var vr := RemovedKeys(prev.values, next.values);
    var ts := ChangedEntries(Rules(prev.targeting), Rules(next.targeting));
    var tr := RemovedKeys(Rules(prev.targeting), Rules(next.targeting));
    d := Delta(next.version, next.revision, prev.revision, next.schemaHash,
               FieldDelta(vs, vr), FieldDelta(ts, tr));
  }

  /** `for k, v := range from { into[k] = v }`, in whatever order the map iterates. */
  method CopyEntries<V>(into: map<string, V>, from: map<string, V>) returns (result: map<string, V>)
    ensures result == into + from
  {
    result := into;
    var keys := from.Keys;
    while keys != {}
      invariant keys <= from.Keys
      invariant result.Keys == into.Keys + (from.Keys - keys)
      invariant forall k :: k in result ==> result[k] == if k in from && k !in keys then from[k] else into[k]
      decreases |keys|
    {
      var k :| k in keys;
      result := result[k := from[k]];
      keys := keys - {k};
    }
    assert result == into + from;
  }

  /** The three loops of applyFieldDelta, applyTargetingDelta and the Go SDK's applyDelta. */
  method PatchMap<V>(base: map<string, V>, d: FieldDelta<V>) returns (result: map<string, V>)
    ensures result == Patch(base, d)
  {
    result := CopyEntries(map[], base);
    assert map[] + base == base;
    result := CopyEntries(result, d.sets);
    result := DeleteKeys(result, d.remove);
  }

  method DeleteKeys<V>(m: map<string, V>, remove: seq<string>) returns (result: map<string, V>)
    ensures result == m - Elements(remove)
  {
    result := m;
    for i := 0 to |remove|
      invariant result == m - Elements(remove[..i])
    {
      result := result - {remove[i]};
      assert remove[..i + 1] == remove[..i] + [remove[i]];
    }
    assert remove[..|remove|] == remove;
  }

  /** internal/delivery's ApplyDelta. */
  method ApplyDelta(base: Snapshot, d: Delta) returns (result: Snapshot, ok: bool)
    ensures (result, ok) == ServerApply(base, d)
  {
    if d.from != base.revision {
      return base, false;
    }
    var values := PatchMap(base.values, d.values);
    var targeting := NoRules;
    if Rules(base.targeting) != map[] || d.targeting.sets != map[] {
      var m := PatchMap(Rules(base.targeting), d.targeting);
      if m != map[] { targeting := SomeRules(m); }
    }
    return Snapshot(d.version, d.revision, d.schemaHash, values, targeting), true;
  }

  /** The Go SDK's applyDelta. */
  method ApplyDeltaInSdk(current: Snapshot, d: Delta) returns (result: Snapshot)
    ensures result == SdkApply(current, d)
  {
    var values := PatchMap(current.values, d.values);
    var targeting := PatchMap(Rules(current.targeting), d.targeting);
    result := Snapshot(d.version, d.revision, d.schemaHash, values, SomeRules(targeting));
  }

  // ---------------------------------------------------------------- the TypeScript applier

  /** One side of a delta as it arrives in TypeScript: every part is optional. */
  datatype TsField<V> = TsField(sets: Option<map<string, V>>, remove: Option<seq<string>>)

  datatype TsDelta = TsDelta(
    version: int, revision: int, from: int, schemaHash: string,
    values: Option<TsField<Value>>, targeting: Option<TsField<seq<Rule>>>)

  /** What `omitempty` leaves of one side: the object is there, its empty parts are not. */
  function TsSide<V(==)>(d: FieldDelta<V>): Option<TsField<V>> {
    Some(TsField(if d.sets == map[] then None else Some(d.sets),
                 if d.remove == [] then None else Some(d.remove)))
  }

  function ToTs(d: Delta): TsDelta {
    TsDelta(d.version, d.revision, d.from, d.schemaHash, TsSide(d.values), TsSide(d.targeting))
  }

  function SetOf<V>(side: Option<TsField<V>>): map<string, V> {
    if side.Some? && side.value.sets.Some? then side.value.sets.value else map[]
  }

  function RemoveOf<V>(side: Option<TsField<V>>): seq<string> {
    if side.Some? && side.value.remove.Some? then side.value.remove.value else []
  }

  /** The TypeScript SDK's applyDelta: spread, spread, then a delete loop. */
  method ApplyDeltaInTs(current: Snapshot, d: TsDelta) returns (result: Snapshot)
    ensures result == Snapshot(d.version, d.revision, d.schemaHash,
                               Patch(current.values, FieldDelta(SetOf(d.values), RemoveOf(d.values))),
                               SomeRules(Patch(Rules(current.targeting),
                                               FieldDelta(SetOf(d.targeting), RemoveOf(d.targeting)))))
  {
    var values := DeleteKeys(current.values + SetOf(d.values), RemoveOf(d.values));
    var targeting := DeleteKeys(Rules(current.targeting) + SetOf(d.targeting), RemoveOf(d.targeting));
    result := Snapshot(d.version, d.revision, d.schemaHash, values, SomeRules(targeting));
  }

  /** On a delta that chains, running the three appliers gives three snapshots no reader can tell apart. */
  method AppliersAgree(base: Snapshot, d: Delta)
    returns (server: Snapshot, ok: bool, sdk: Snapshot, ts: Snapshot)
    ensures ok <==> d.from == base.revision
    ensures ok ==> Same(server, sdk)
    ensures sdk == ts
    ensures !ok ==> server == base
  {
    server, ok := ApplyDelta(base, d);
    sdk := ApplyDeltaInSdk(base, d);
    ts := ApplyDeltaInTs(base, ToTs(d));
  }
}
