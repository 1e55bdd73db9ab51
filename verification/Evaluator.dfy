/** The targeting evaluator as the server and the Go SDK run it. */
module Evaluator {
  import opened Json
  import opened Targeting
  import opened Rollouts

  /** The first four bytes of the SHA-256 digest, as a number; left abstract. */
  type Hasher = string -> Hash

  function SaltOf(rollout: Rollout, key: string): string {
    if rollout.salt == "" then key else rollout.salt
  }

  function HashInput(rollout: Rollout, key: string, targetingKey: string): string {
    SaltOf(rollout, key) + ":" + key + ":" + targetingKey
  }

  ghost function Bucket(hash: Hasher, rollout: Rollout, key: string, targetingKey: string): Value {
    if rollout.variants == [] then Null
    else if targetingKey == "" then rollout.variants[0].value
    else
      var i := Select(Weights(rollout.variants), hash(HashInput(rollout, key, targetingKey)));
      if i < |rollout.variants| then rollout.variants[i].value else Null
  }

  /** A comparison of two decoded values: numbers as numbers, everything else structurally. */
  predicate EqualValues(a: Value, b: Value) {
    if a.Num? then b.Num? && a.n == b.n else a == b
  }

  predicate ContainsValue(values: seq<Value>, needle: Value) {
    exists v :: v in values && EqualValues(v, needle)
  }

  predicate SubstringAt(s: string, sub: string, i: int) {
    0 <= i <= |s| - |sub| && s[i..i + |sub|] == sub
  }

  predicate HasSubstring(s: string, sub: string) {
    exists i :: 0 <= i <= |s| && SubstringAt(s, sub, i)
  }

  predicate Compare(op: Operator, a: real, b: real) {
    match op
    case Gt => a > b
    case Gte => a >= b
    case Lt => a < b
    case Lte => a <= b
    case _ => false
  }

  predicate MatchCondition(c: Condition, attrs: Values) {
    if c.attribute !in attrs then c.operator == NotIn
    else
      var val := attrs[c.attribute];
      var values := if c.values.None? then [] else c.values.value;
      match c.operator
      case In => ContainsValue(values, val)
      case NotIn => !ContainsValue(values, val)
      case Eq => values != [] && EqualValues(val, values[0])
      case Neq => values != [] && !EqualValues(val, values[0])
      case Contains => values != [] && val.Str? && values[0].Str? && HasSubstring(val.s, values[0].s)
      case Unknown => false
      case _ => values != [] && val.Num? && values[0].Num? && Compare(c.operator, val.n, values[0].n)
  }

  predicate MatchConditions(conditions: seq<Condition>, attrs: Values) {
    forall c :: c in conditions ==> MatchCondition(c, attrs)
  }

  ghost function Outcome(hash: Hasher, rule: Rule, key: string, targetingKey: string): Value {
    if rule.rollout.Some? then Bucket(hash, rule.rollout.value, key, targetingKey) else rule.value
  }

  /** The first matching rule decides; without one the base value stands. */
  ghost function Resolve(hash: Hasher, key: string, base: Value, rules: seq<Rule>, ctx: EvalContext): Value {
    if rules == [] then base
    else if MatchConditions(rules[0].conditions, ctx.attributes) then Outcome(hash, rules[0], key, ctx.targetingKey)
    else Resolve(hash, key, base, rules[1..], ctx)
  }

  predicate SomeMatch(rules: seq<Rule>, attrs: Values) {
    exists r :: r in rules && MatchConditions(r.conditions, attrs)
  }

  function RulesFor(rules: RuleMap, key: string): seq<Rule> {
    if key in rules then rules[key] else []
  }

  function BaseFor(values: Values, key: string): Value {
    if key in values then values[key] else Null
  }

  /** GetFor of the Go SDK: the value, and whether the key is known at all. */
  ghost function GetFor(hash: Hasher, values: Values, rules: RuleMap, key: string, ctx: EvalContext): (Value, bool) {
    if key !in values && RulesFor(rules, key) == [] then (Null, false)
    else (Resolve(hash, key, BaseFor(values, key), RulesFor(rules, key), ctx), true)
  }

  ghost function ResolveKey(hash: Hasher, values: Values, rules: RuleMap, k: string, ctx: EvalContext): Value {
    Resolve(hash, k, BaseFor(values, k), RulesFor(rules, k), ctx)
  }

  ghost function ResolveAll(hash: Hasher, values: Values, rules: RuleMap, ctx: EvalContext): Values {
    map k | k in values.Keys + rules.Keys :: ResolveKey(hash, values, rules, k, ctx)
  }

  // ---------------------------------------------------------------- what Resolve means

  /** i is the first rule that matches. */
  predicate IsFirstMatch(rules: seq<Rule>, attrs: Values, i: int) {
    && 0 <= i < |rules| && MatchConditions(rules[i].conditions, attrs)
    && forall j :: 0 <= j < i ==> !MatchConditions(rules[j].conditions, attrs)
  }

  lemma FirstMatchShifts(rules: seq<Rule>, attrs: Values, i: int)
    requires rules != [] && !MatchConditions(rules[0].conditions, attrs)
    requires IsFirstMatch(rules[1..], attrs, i)
    ensures IsFirstMatch(rules, attrs, i + 1)
  {
    forall j | 0 <= j < i + 1 ensures !MatchConditions(rules[j].conditions, attrs) {
      if j > 0 { assert rules[j] == rules[1..][j - 1]; }
    }
    assert rules[i + 1] == rules[1..][i];
  }

  /** Without a match the base stands; with one, the first rule that matches decides. */
  lemma {:induction false} FirstMatchDecides(hash: Hasher, key: string, base: Value, rules: seq<Rule>, ctx: EvalContext)
    returns (i: int)
    ensures !SomeMatch(rules, ctx.attributes) ==> Resolve(hash, key, base, rules, ctx) == base
    ensures SomeMatch(rules, ctx.attributes) ==>
              && IsFirstMatch(rules, ctx.attributes, i)
              && Resolve(hash, key, base, rules, ctx) == Outcome(hash, rules[i], key, ctx.targetingKey)
  {
    i := 0;
    if rules != [] && !MatchConditions(rules[0].conditions, ctx.attributes) {
      i := FirstMatchDecides(hash, key, base, rules[1..], ctx);
      assert SomeMatch(rules, ctx.attributes) <==> SomeMatch(rules[1..], ctx.attributes) by {
        assert forall r :: r in rules <==> r == rules[0] || r in rules[1..];
      }
      if SomeMatch(rules, ctx.attributes) {
        FirstMatchShifts(rules, ctx.attributes, i);
        i := i + 1;
      }
    }
  }

  // ---------------------------------------------------------------- what a condition means

  lemma SubstringSplits(s: string, sub: string)
    ensures HasSubstring(s, sub) <==> exists a, b :: s == a + sub + b
  {
    if i :| 0 <= i <= |s| && SubstringAt(s, sub, i) {
      assert s == s[..i] + sub + s[i + |sub|..];
    }
    if a, b :| s == a + sub + b {
      assert SubstringAt(s, sub, |a|);
    }
  }

  /** A caller without the attribute is in no list, and meets no other condition. */
  lemma AbsentAttribute(c: Condition, attrs: Values)
    requires c.attribute !in attrs
    ensures MatchCondition(c, attrs) <==> c.operator == NotIn
  {
  }

  /** One with the attribute is matched operator by operator: the first value counts, or the whole list. */
  lemma PresentAttribute(c: Condition, attrs: Values, list: seq<Value>)
    requires c.attribute in attrs && list == (if c.values.Some? then c.values.value else [])
    ensures var v := attrs[c.attribute];
            && (c.operator == In ==> (MatchCondition(c, attrs) <==> v in list))
            && (c.operator == NotIn ==> (MatchCondition(c, attrs) <==> v !in list))
            && (c.operator == Unknown || (list == [] && c.operator != NotIn) ==> !MatchCondition(c, attrs))
    ensures list != [] ==>
              var v, w := attrs[c.attribute], list[0];
              && (c.operator == Eq ==> (MatchCondition(c, attrs) <==> v == w))
              && (c.operator == Neq ==> (MatchCondition(c, attrs) <==> v != w))
              && (c.operator == Contains ==>
                    (MatchCondition(c, attrs) <==> v.Str? && w.Str? && exists a, b :: v.s == a + w.s + b))
              && (c.operator == Gt ==> (MatchCondition(c, attrs) <==> v.Num? && w.Num? && v.n > w.n))
              && (c.operator == Gte ==> (MatchCondition(c, attrs) <==> v.Num? && w.Num? && v.n >= w.n))
              && (c.operator == Lt ==> (MatchCondition(c, attrs) <==> v.Num? && w.Num? && v.n < w.n))
              && (c.operator == Lte ==> (MatchCondition(c, attrs) <==> v.Num? && w.Num? && v.n <= w.n))
  {
    var v := attrs[c.attribute];
    assert forall w :: EqualValues(w, v) <==> w == v;
    if list != [] && v.Str? && list[0].Str? { SubstringSplits(v.s, list[0].s); }
  }

  // ---------------------------------------------------------------- what a rollout means

  /**
   * A bucket is the variant in whose interval the hash of `salt:key:targetingKey` lies, the key
   * standing in for an empty salt: the same for every rule, place and time that shares the salt.
   */
  lemma BucketByHash(hash: Hasher, rollout: Rollout, key: string, targetingKey: string, i: nat)
    requires Proper(Weights(rollout.variants)) && i < |rollout.variants| && targetingKey != ""
    ensures var w, n := Weights(rollout.variants),
                        hash((if rollout.salt == "" then key else rollout.salt) + ":" + key + ":" + targetingKey);
            Boundary(w, i) <= n < Boundary(w, i + 1)
            ==> Bucket(hash, rollout, key, targetingKey) == rollout.variants[i].value
  {
    var w := Weights(rollout.variants);
    SelectIsInterval(w, hash(HashInput(rollout, key, targetingKey)), i);
  }

  /** A caller without a targeting key gets the first variant, and nobody gets one where there is none. */
  lemma BucketWithoutHash(hash: Hasher, rollout: Rollout, key: string, targetingKey: string)
    ensures rollout.variants == [] ==> Bucket(hash, rollout, key, targetingKey) == Null
    ensures rollout.variants != [] && targetingKey == "" ==>
              Bucket(hash, rollout, key, targetingKey) == rollout.variants[0].value
  {
  }

  // ---------------------------------------------------------------- what a lookup means

  /**
   * GetFor, in full: a key with no value and no rules is unknown; otherwise the first rule whose
   * conditions all hold decides, by its rollout if it has one and by its value if not; and if none
   * does, the stored value stands, or nil.
   */
  lemma GetForExactly(hash: Hasher, values: Values, rules: RuleMap, key: string, ctx: EvalContext)
    ensures var list := if key in rules then rules[key] else [];
            var r := GetFor(hash, values, rules, key, ctx);
            && (r.1 <==> key in values || list != [])
            && (forall i :: 0 <= i < |list|
                            && (forall c :: c in list[i].conditions ==> MatchCondition(c, ctx.attributes))
                            && (forall j :: 0 <= j < i ==>
                                  exists c :: c in list[j].conditions && !MatchCondition(c, ctx.attributes))
                            ==> r.0 == match list[i].rollout
                                       case Some(rollout) => Bucket(hash, rollout, key, ctx.targetingKey)
                                       case None => list[i].value)
            && ((forall r :: r in list ==> exists c :: c in r.conditions && !MatchCondition(c, ctx.attributes))
                ==> r.0 == if key in values then values[key] else Null)
  {
    var list := if key in rules then rules[key] else [];
    var i := FirstMatchDecides(hash, key, BaseFor(values, key), list, ctx);
    hide Bucket, MatchCondition, Resolve;
    forall k | 0 <= k < |list| && MatchConditions(list[k].conditions, ctx.attributes)
               && forall j :: 0 <= j < k ==> !MatchConditions(list[j].conditions, ctx.attributes)
      ensures k == i
    {
      assert list[k] in list && SomeMatch(list, ctx.attributes);
    }
  }

  /** EvaluateAll has an entry for every key that has a value or a rule list, and it is what GetFor answers. */
  lemma EvaluateAllIsGetFor(hash: Hasher, values: Values, rules: RuleMap, ctx: EvalContext, k: string)
    ensures var all, one := ResolveAll(hash, values, rules, ctx), GetFor(hash, values, rules, k, ctx);
            && (k in all <==> k in values || k in rules)
            && (k in all ==> all[k] == one.0)
            && (k in all && !one.1 ==> rules[k] == [] && all[k] == Null)
  {
  }

  // ---------------------------------------------------------------- the programs

  method BucketLoop(hash: Hasher, rollout: Rollout, key: string, targetingKey: string) returns (v: Value)
    ensures v == Bucket(hash, rollout, key, targetingKey)
  {
    if |rollout.variants| == 0 {
      return Null;
    }
    if targetingKey == "" {
      return rollout.variants[0].value;
    }
    v := SelectVariant(rollout.variants, hash(HashInput(rollout, key, targetingKey)));
  }

  method ResolveLoop(hash: Hasher, key: string, base: Value, rules: seq<Rule>, ctx: EvalContext) returns (v: Value)
    ensures v == Resolve(hash, key, base, rules, ctx)
  {
    for i := 0 to |rules|
      invariant Resolve(hash, key, base, rules, ctx) == Resolve(hash, key, base, rules[i..], ctx)
    {
      assert rules[i..][1..] == rules[i + 1..];
      if MatchConditions(rules[i].conditions, ctx.attributes) {
        if rules[i].rollout.Some? {
          v := BucketLoop(hash, rules[i].rollout.value, key, ctx.targetingKey);
          return;
        }
        return rules[i].value;
      }
    }
    return base;
  }

  /** result is expected, but for the keys still to come. */
  ghost predicate FilledIn(result: Values, expected: Values, keys: set<string>) {
    && (forall k :: k in keys ==> k in expected)
    && (forall k :: k in result <==> k in expected && k !in keys)
    && (forall k :: k in result ==> result[k] == expected[k])
  }

  lemma FillIn(result: Values, expected: Values, keys: set<string>, k: string, v: Value)
    requires FilledIn(result, expected, keys) && k in keys && v == expected[k]
    ensures FilledIn(result[k := v], expected, keys - {k})
  {
  }

  method ResolveAllLoop(hash: Hasher, values: Values, rules: RuleMap, ctx: EvalContext) returns (result: Values)
    ensures result == ResolveAll(hash, values, rules, ctx)
  {
    hide Resolve;
    ghost var expected := ResolveAll(hash, values, rules, ctx);
    var keys := values.Keys + rules.Keys;
    result := map[];
    while keys != {}
      invariant FilledIn(result, expected, keys)
      decreases |keys|
    {
      var k :| k in keys;
      var v := ResolveLoop(hash, k, BaseFor(values, k), RulesFor(rules, k), ctx);
      FillIn(result, expected, keys, k, v);
      result := result[k := v];
      keys := keys - {k};
    }
    assert result == expected;
  }
}

/**
 * The TypeScript evaluator. It differs in what JavaScript adds: a property read falls back to
 * Object.prototype, and reading a property of null throws.
 */
module TsEvaluator {
  import opened Json
  import opened Targeting
  import opened Delta
  import opened Evaluator
  import opened Rollouts

  /** The names every plain object inherits. */
  const PROTOTYPE: set<string> := {
    "constructor", "toString", "toLocaleString", "valueOf", "hasOwnProperty", "isPrototypeOf",
    "propertyIsEnumerable", "__proto__", "__defineGetter__", "__defineSetter__",
    "__lookupGetter__", "__lookupSetter__"}

  /** undefined and null are one value here: both stand for Go's nil. */
  datatype Result<T> = Returned(value: T) | Threw

  /** What a lookup finds: a value of the configuration, or something inherited that is no JSON at all. */
  datatype Found = Plain(v: Value) | Inherited

  datatype JsType = Object | Boolean | Number | String

  function TypeOf(v: Value): JsType {
    match v
    case Bool(_) => Boolean
    case Num(_) => Number
    case Str(_) => String
    case _ => Object
  }

  /** Object.is on primitives. Two objects or arrays out of different JSON texts are never identical. */
  predicate ObjectIs(a: Value, b: Value) {
    !a.Arr? && !a.Obj? && a == b
  }

  predicate DeepEqual(a: Value, b: Value)
    decreases a
  {
    if ObjectIs(a, b) then true
    else if TypeOf(a) != TypeOf(b) then false
    else if a.Null? || b.Null? then ObjectIs(a, b)
    else if a.Arr? || b.Arr? then
      a.Arr? && b.Arr? && |a.items| == |b.items|
      && forall i :: 0 <= i < |a.items| ==> DeepEqual(a.items[i], b.items[i])
    else if a.Obj? && b.Obj? then
      |a.fields.Keys| == |b.fields.Keys|
      && forall k :: k in a.fields ==> k in b.fields && DeepEqual(a.fields[k], b.fields[k])
    else false
  }

  predicate EqualInTs(a: Value, b: Value) {
    if a.Num? then b.Num? && a.n == b.n else DeepEqual(a, b)
  }

  predicate ContainsInTs(values: seq<Value>, needle: Value) {
    exists v :: v in values && EqualInTs(v, needle)
  }

  function MatchInTs(c: Condition, attrs: Values): Result<bool> {
    if c.attribute !in attrs then Returned(c.operator == NotIn)
    else if c.values.None? then (if c.operator == Unknown then Returned(false) else Threw)
    else
      var val, values := attrs[c.attribute], c.values.value;
      Returned(
        match c.operator
        case In => ContainsInTs(values, val)
        case NotIn => !ContainsInTs(values, val)
        case Eq => values != [] && EqualInTs(val, values[0])
        case Neq => values != [] && !EqualInTs(val, values[0])
        case Contains => values != [] && val.Str? && values[0].Str? && HasSubstring(val.s, values[0].s)
        case Unknown => false
        case _ => values != [] && val.Num? && values[0].Num? && Compare(c.operator, val.n, values[0].n))
  }

  function MatchAllInTs(conditions: seq<Condition>, attrs: Values): Result<bool> {
    if conditions == [] then Returned(true)
    else
      var m := MatchInTs(conditions[0], attrs);
      if m == Returned(true) then MatchAllInTs(conditions[1..], attrs) else m
  }

  ghost function ResolveInTs(hash: Hasher, key: string, base: Found, rules: seq<Rule>, ctx: EvalContext)
    : Result<Found>
  {
    if rules == [] then Returned(base)
    else
      var m := MatchAllInTs(rules[0].conditions, ctx.attributes);
      if m.Threw? then Threw
      else if m.value then Returned(Plain(Outcome(hash, rules[0], key, ctx.targetingKey)))
      else ResolveInTs(hash, key, base, rules[1..], ctx)
  }

  function LookupBase(values: Values, key: string): Found {
    if key in values then Plain(values[key]) else if key in PROTOTYPE then Inherited else Plain(Null)
  }

  /** `client.get(key, ctx)`. What an inherited name finds in place of a rule list cannot be iterated. */
  ghost function GetInTs(hash: Hasher, values: Values, targeting: MaybeRules, key: string, ctx: EvalContext)
    : Result<Found>
  {
    if targeting.SomeRules? && key !in targeting.m && key in PROTOTYPE then Threw
    else ResolveInTs(hash, key, LookupBase(values, key), RulesFor(Rules(targeting), key), ctx)
  }

  // ---------------------------------------------------------------- the programs

  method MatchLoop(conditions: seq<Condition>, attrs: Values) returns (m: Result<bool>)
    ensures m == MatchAllInTs(conditions, attrs)
  {
    for i := 0 to |conditions|
      invariant MatchAllInTs(conditions, attrs) == MatchAllInTs(conditions[i..], attrs)
    {
      assert conditions[i..][1..] == conditions[i + 1..];
      m := MatchInTs(conditions[i], attrs);
      if m != Returned(true) {
        return;
      }
    }
    m := Returned(true);
  }

  /** The TypeScript SDK's bucket; undefined is Null here. */
  method BucketInTs(hash: Hasher, rollout: Rollout, key: string, targetingKey: string) returns (v: Value)
    ensures v == Bucket(hash, rollout, key, targetingKey)
  {
    var variants := rollout.variants;
    if |variants| == 0 {
      return Null;
    }
    if targetingKey == "" {
      return variants[0].value;
    }
    var salt := if rollout.salt != "" then rollout.salt else key;
    var n := hash(salt + ":" + key + ":" + targetingKey);
    var frac := n as real / 4294967296.0;
    ghost var w := Weights(variants);
    var total := 0.0;
    for i := 0 to |variants|
      invariant total == Prefix(w, i)
    {
      total := total + variants[i].weight;
    }
    var point := frac * total;
    assert point == Point(w, n);
    var cumulative := 0.0;
    for i := 0 to |variants|
      invariant cumulative == Prefix(w, i)
      invariant FirstAbove(w, point, 0) == FirstAbove(w, point, i)
    {
      cumulative := cumulative + variants[i].weight;
      if point < cumulative {
        return variants[i].value;
      }
    }
    return variants[|variants| - 1].value;
  }

  method RulesLoop(hash: Hasher, key: string, base: Found, rules: seq<Rule>, ctx: EvalContext)
    returns (r: Result<Found>)
    ensures r == ResolveInTs(hash, key, base, rules, ctx)
  {
    for i := 0 to |rules|
      invariant ResolveInTs(hash, key, base, rules, ctx) == ResolveInTs(hash, key, base, rules[i..], ctx)
    {
      assert rules[i..][1..] == rules[i + 1..];
      var m := MatchLoop(rules[i].conditions, ctx.attributes);
      if m.Threw? {
        return Threw;
      }
      if m.value {
        if rules[i].rollout.Some? {
          var v := BucketInTs(hash, rules[i].rollout.value, key, ctx.targetingKey);
          return Returned(Plain(v));
        }
        return Returned(Plain(rules[i].value));
      }
    }
    return Returned(base);
  }

  // ---------------------------------------------------------------- equality

  lemma SameSizeSubset<T>(a: set<T>, b: set<T>)
    requires a <= b && |a| == |b|
    ensures a == b
  {
    assert |b - a| == |b| - |a|;
  }

  /** The length-plus-inclusion comparison of object keys makes deepEqual structural equality. */
  lemma {:induction false} DeepEqualIsEquality(a: Value, b: Value)
    ensures DeepEqual(a, b) <==> a == b
    decreases a
  {
    if a.Arr? && b.Arr? && |a.items| == |b.items| {
      forall i | 0 <= i < |a.items| ensures DeepEqual(a.items[i], b.items[i]) <==> a.items[i] == b.items[i] {
        DeepEqualIsEquality(a.items[i], b.items[i]);
      }
      if DeepEqual(a, b) { assert a.items == b.items; }
    } else if a.Obj? && b.Obj? {
      forall k | k in a.fields && k in b.fields
        ensures DeepEqual(a.fields[k], b.fields[k]) <==> a.fields[k] == b.fields[k]
      {
        DeepEqualIsEquality(a.fields[k], b.fields[k]);
      }
      if DeepEqual(a, b) {
        SameSizeSubset(a.fields.Keys, b.fields.Keys);
        assert a.fields == b.fields;
      }
    }
  }

  lemma EqualityAgrees(a: Value, b: Value)
    ensures EqualInTs(a, b) <==> EqualValues(a, b)
  {
    DeepEqualIsEquality(a, b);
  }

  lemma ContainmentAgrees(values: seq<Value>, needle: Value)
    ensures ContainsInTs(values, needle) <==> ContainsValue(values, needle)
  {
    forall v | v in values ensures EqualInTs(v, needle) <==> EqualValues(v, needle) {
      EqualityAgrees(v, needle);
    }
  }

  // ---------------------------------------------------------------- conditions and rules

  /** The condition TypeScript cannot evaluate: no value list, on an attribute that is there. */
  predicate Unreadable(c: Condition, attrs: Values) {
    c.values.None? && c.attribute in attrs && c.operator != Unknown
  }

  lemma ConditionsAgree(c: Condition, attrs: Values)
    ensures MatchInTs(c, attrs) == if Unreadable(c, attrs) then Threw else Returned(MatchCondition(c, attrs))
  {
    if c.attribute in attrs && c.values.Some? {
      ContainmentAgrees(c.values.value, attrs[c.attribute]);
      if c.values.value != [] { EqualityAgrees(attrs[c.attribute], c.values.value[0]); }
    }
  }

  /** So in TypeScript a condition with a value list means what it means in Go, operator by operator. */
  lemma PresentAttributeInTs(c: Condition, attrs: Values)
    requires c.attribute in attrs && c.values.Some? && c.values.value != []
    ensures MatchInTs(c, attrs).Returned?
    ensures var v, w, r := attrs[c.attribute], c.values.value[0], MatchInTs(c, attrs).value;
            match c.operator
            case In => r <==> v in c.values.value
            case NotIn => r <==> v !in c.values.value
            case Eq => r <==> v == w
            case Neq => r <==> v != w
            case Contains => r <==> v.Str? && w.Str? && exists a, b :: v.s == a + w.s + b
            case Gt => r <==> v.Num? && w.Num? && v.n > w.n
            case Gte => r <==> v.Num? && w.Num? && v.n >= w.n
            case Lt => r <==> v.Num? && w.Num? && v.n < w.n
            case Lte => r <==> v.Num? && w.Num? && v.n <= w.n
            case Unknown => !r
  {
    ConditionsAgree(c, attrs);
    PresentAttribute(c, attrs, c.values.value);
  }

  /** An unreadable condition is met before one that fails. */
  predicate Trips(conditions: seq<Condition>, attrs: Values) {
    conditions != []
    && (Unreadable(conditions[0], attrs) || (MatchCondition(conditions[0], attrs) && Trips(conditions[1..], attrs)))
  }

  lemma {:induction false} ConditionListsAgree(conditions: seq<Condition>, attrs: Values)
    ensures MatchAllInTs(conditions, attrs)
         == if Trips(conditions, attrs) then Threw else Returned(MatchConditions(conditions, attrs))
  {
    if conditions != [] {
      ConditionsAgree(conditions[0], attrs);
      ConditionListsAgree(conditions[1..], attrs);
      assert forall c :: c in conditions <==> c == conditions[0] || c in conditions[1..];
    }
  }

  /** Evaluation reaches a rule that trips: no rule before it matches. */
  predicate ReachesTrip(rules: seq<Rule>, attrs: Values) {
    rules != []
    && (Trips(rules[0].conditions, attrs)
        || (!MatchConditions(rules[0].conditions, attrs) && ReachesTrip(rules[1..], attrs)))
  }

  lemma {:induction false} RuleListsAgree(
      hash: Hasher, key: string, base: Found, rules: seq<Rule>, ctx: EvalContext)
    ensures ResolveInTs(hash, key, base, rules, ctx)
         == if ReachesTrip(rules, ctx.attributes) then Threw
            else if base.Inherited? && !SomeMatch(rules, ctx.attributes) then Returned(Inherited)
            else Returned(Plain(Resolve(hash, key, if base.Plain? then base.v else Null, rules, ctx)))
  {
    if rules != [] {
      ConditionListsAgree(rules[0].conditions, ctx.attributes);
      RuleListsAgree(hash, key, base, rules[1..], ctx);
      assert forall r :: r in rules <==> r == rules[0] || r in rules[1..];
    }
  }

  /** When the two evaluators give a key the same value. */
  predicate Portable(values: Values, targeting: MaybeRules, key: string, attrs: Values) {
    var rules := RulesFor(Rules(targeting), key);
    && (targeting.SomeRules? ==> key in targeting.m || key !in PROTOTYPE)
    && !ReachesTrip(rules, attrs)
    && (key in values || key !in PROTOTYPE || SomeMatch(rules, attrs))
  }

  /**
   * Evaluator equivalence, exactly: TypeScript returns what Go returns if and only if no condition
   * without a value list is reached and the key is not looked up on Object.prototype.
   */
  lemma EvaluatorsAgree(hash: Hasher, values: Values, targeting: MaybeRules, key: string, ctx: EvalContext)
    ensures GetInTs(hash, values, targeting, key, ctx)
            == Returned(Plain(GetFor(hash, values, Rules(targeting), key, ctx).0))
            <==> Portable(values, targeting, key, ctx.attributes)
  {
    var rules := RulesFor(Rules(targeting), key);
    RuleListsAgree(hash, key, LookupBase(values, key), rules, ctx);
    var _ := FirstMatchDecides(hash, key, BaseFor(values, key), rules, ctx);
  }

  ghost predicate AnyKeyThrows(hash: Hasher, values: Values, rules: RuleMap, ctx: EvalContext) {
    exists k :: k in values.Keys + rules.Keys && GetInTs(hash, values, SomeRules(rules), k, ctx).Threw?
  }

  /**
   * `client.evaluate(ctx)`: one key that throws loses the whole result, and assigning to
   * `result["__proto__"]` creates no entry.
   */
  ghost function ResolveAllInTs(hash: Hasher, values: Values, rules: RuleMap, ctx: EvalContext)
    : Result<map<string, Found>>
  {
    if AnyKeyThrows(hash, values, rules, ctx) then Threw
    else Returned(map k | k in values.Keys + rules.Keys && k != "__proto__" ::
                    GetInTs(hash, values, SomeRules(rules), k, ctx).value)
  }

  /** resolveAll: the result filled key by key, in the order of the Set; an exception leaves none. */
  method EvaluateLoop(hash: Hasher, values: Values, rules: RuleMap, ctx: EvalContext)
    returns (r: Result<map<string, Found>>)
    ensures r == ResolveAllInTs(hash, values, rules, ctx)
  {
    hide ResolveInTs;
    var keys := values.Keys + rules.Keys;
    var result: map<string, Found> := map[];
    while keys != {}
      invariant keys <= values.Keys + rules.Keys
      invariant EvaluatedSoFar(hash, values, rules, ctx, keys, result)
      decreases |keys|
    {
      var k :| k in keys;
      if k !in rules && k in PROTOTYPE {
        assert GetInTs(hash, values, SomeRules(rules), k, ctx).Threw?;
        return Threw;
      }
      var one := RulesLoop(hash, k, LookupBase(values, k), RulesFor(rules, k), ctx);
      assert one == GetInTs(hash, values, SomeRules(rules), k, ctx);
      if one.Threw? {
        return Threw;
      }
      OneMoreKey(hash, values, rules, ctx, keys, result, k, one.value);
      if k != "__proto__" {
        result := result[k := one.value];
      }
      keys := keys - {k};
    }
    AllEvaluated(hash, values, rules, ctx, result);
    r := Returned(result);
  }

  /** None of the keys gone through threw, and all of them but one are in the result. */
  ghost predicate EvaluatedSoFar(
      hash: Hasher, values: Values, rules: RuleMap, ctx: EvalContext, todo: set<string>, result: map<string, Found>)
  {
    && (forall k :: k in values.Keys + rules.Keys && k !in todo ==>
                      GetInTs(hash, values, SomeRules(rules), k, ctx).Returned?)
    && (forall k :: k in result <==> k in values.Keys + rules.Keys && k !in todo && k != "__proto__")
    && (forall k :: k in result ==> Returned(result[k]) == GetInTs(hash, values, SomeRules(rules), k, ctx))
  }

  lemma OneMoreKey(hash: Hasher, values: Values, rules: RuleMap, ctx: EvalContext, todo: set<string>,
                   result: map<string, Found>, k: string, v: Found)
    requires EvaluatedSoFar(hash, values, rules, ctx, todo, result)
    requires k in todo && k in values.Keys + rules.Keys
    requires GetInTs(hash, values, SomeRules(rules), k, ctx) == Returned(v)
    ensures EvaluatedSoFar(hash, values, rules, ctx, todo - {k}, if k == "__proto__" then result else result[k := v])
  {
    hide GetInTs;
  }

  lemma AllEvaluated(hash: Hasher, values: Values, rules: RuleMap, ctx: EvalContext, result: map<string, Found>)
    requires EvaluatedSoFar(hash, values, rules, ctx, {}, result)
    ensures ResolveAllInTs(hash, values, rules, ctx) == Returned(result)
  {
    hide GetInTs;
    assert !AnyKeyThrows(hash, values, rules, ctx);
    assert ResolveAllInTs(hash, values, rules, ctx).value == result;
  }

  /** What TypeScript should return: Go's result, entry by entry. */
  ghost function GoResult(hash: Hasher, values: Values, rules: RuleMap, ctx: EvalContext): map<string, Found> {
    map k | k in values.Keys + rules.Keys :: Plain(ResolveKey(hash, values, rules, k, ctx))
  }

  lemma KeyAgrees(hash: Hasher, values: Values, rules: RuleMap, k: string, ctx: EvalContext)
    requires k in values.Keys + rules.Keys
    ensures GetInTs(hash, values, SomeRules(rules), k, ctx)
            == Returned(Plain(ResolveKey(hash, values, rules, k, ctx)))
            <==> Portable(values, SomeRules(rules), k, ctx.attributes)
  {
    EvaluatorsAgree(hash, values, SomeRules(rules), k, ctx);
  }

  /** Evaluating everything agrees exactly when every key does and none is called "__proto__". */
  lemma AllKeysAgree(hash: Hasher, values: Values, rules: RuleMap, ctx: EvalContext)
    ensures ResolveAllInTs(hash, values, rules, ctx) == Returned(GoResult(hash, values, rules, ctx))
            <==> forall k :: k in values.Keys + rules.Keys ==>
                   k != "__proto__" && Portable(values, SomeRules(rules), k, ctx.attributes)
  {
    var ts, go := ResolveAllInTs(hash, values, rules, ctx), GoResult(hash, values, rules, ctx);
    forall k | k in values.Keys + rules.Keys
      ensures ts == Returned(go) ==> k != "__proto__" && Portable(values, SomeRules(rules), k, ctx.attributes)
    {
      KeyAgrees(hash, values, rules, k, ctx);
      if ts == Returned(go) { assert k in go && k in ts.value && ts.value[k] == go[k]; }
    }
    if forall k :: k in values.Keys + rules.Keys ==>
         k != "__proto__" && Portable(values, SomeRules(rules), k, ctx.attributes) {
      forall k | k in values.Keys + rules.Keys
        ensures GetInTs(hash, values, SomeRules(rules), k, ctx) == Returned(go[k])
      {
        KeyAgrees(hash, values, rules, k, ctx);
      }
      assert !AnyKeyThrows(hash, values, rules, ctx);
      assert ts.value == go;
    }
  }

  /** A configuration without inherited names and without value-less conditions evaluates alike everywhere. */
  lemma {:induction false} ReadableRulesNeverTrip(rules: seq<Rule>, attrs: Values)
    requires forall r, c :: r in rules && c in r.conditions ==> c.values.Some?
    ensures !ReachesTrip(rules, attrs)
  {
    if rules != [] {
      ReadableConditionsNeverTrip(rules[0].conditions, attrs);
      ReadableRulesNeverTrip(rules[1..], attrs);
    }
  }

  lemma {:induction false} ReadableConditionsNeverTrip(conditions: seq<Condition>, attrs: Values)
    requires forall c :: c in conditions ==> c.values.Some?
    ensures !Trips(conditions, attrs)
  {
    if conditions != [] {
      ReadableConditionsNeverTrip(conditions[1..], attrs);
    }
  }

  /** The fields TypeScript cannot read where there is any targeting map at all, and Go reads, by name. */
  lemma InheritedNamesThrow(hash: Hasher, ctx: EvalContext, name: string, v: Value)
    ensures GetInTs(hash, map[name := v], SomeRules(map[]), name, ctx) == Threw
            <==> name in {
              "constructor", "toString", "toLocaleString", "valueOf", "hasOwnProperty", "isPrototypeOf",
              "propertyIsEnumerable", "__proto__", "__defineGetter__", "__defineSetter__",
              "__lookupGetter__", "__lookupSetter__"}
    ensures GetFor(hash, map[name := v], map[], name, ctx) == (v, true)
  {
  }

  /** A field may be called "constructor"; with any targeting map at all, TypeScript then throws on it. */
  lemma ConstructorFieldThrows(hash: Hasher, ctx: EvalContext, v: Value)
    ensures GetInTs(hash, map["constructor" := v], SomeRules(map[]), "constructor", ctx) == Threw
    ensures GetFor(hash, map["constructor" := v], map[], "constructor", ctx) == (v, true)
  {
  }
}
