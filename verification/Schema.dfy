/** Field definitions, the JSON Schema subset they compile to, and the two validators. */
module Schema {
  import opened Json
  import opened Targeting
  import opened Rollouts

  datatype FieldType =
    | StringField | IntField | FloatField | BoolField | JsonField | EnumField | DurationField | UnknownField

  datatype Field = Field(
    name: string, ftype: FieldType, required: bool,
    min: Option<real>, max: Option<real>, pattern: string, enumValues: seq<Value>)

  type Definition = seq<Field>

  datatype JsonType = StringType | IntegerType | NumberType | BooleanType

  /** The keywords fieldSchema emits; None is an absent one. */
  datatype Subschema = Subschema(
    jtype: Option<JsonType>, minimum: Option<real>, maximum: Option<real>,
    pattern: Option<string>, enumValues: Option<seq<Value>>)

  datatype Doc = Doc(properties: map<string, Subschema>, required: seq<string>)

  /** The regular-expression engine: which patterns compile, and what they match. */
  datatype Regex = Regex(compiles: string -> bool, matches: (string, string) -> bool)

  const ANYTHING := Subschema(None, None, None, None, None)
  const DURATION_PATTERN := "^[0-9]+(ns|us|\U{00B5}s|ms|s|m|h)$"

  function FieldSchema(f: Field): Subschema {
    match f.ftype
    case StringField =>
      ANYTHING.(jtype := Some(StringType), pattern := if f.pattern == "" then None else Some(f.pattern))
    case IntField => ANYTHING.(jtype := Some(IntegerType), minimum := f.min, maximum := f.max)
    case FloatField => ANYTHING.(jtype := Some(NumberType), minimum := f.min, maximum := f.max)
    case BoolField => ANYTHING.(jtype := Some(BooleanType))
    case EnumField => ANYTHING.(enumValues := Some(f.enumValues))
    case DurationField => ANYTHING.(jtype := Some(StringType), pattern := Some(DURATION_PATTERN))
    case _ => ANYTHING
  }

  // ---------------------------------------------------------------- acceptance

  predicate HasType(t: JsonType, v: Value) {
    match t
    case StringType => v.Str?
    case IntegerType => v.Num? && v.n == v.n.Floor as real
    case NumberType => v.Num?
    case BooleanType => v.Bool?
  }

  /** Each keyword constrains only the kind of value it speaks of. */
  predicate Accepts(re: Regex, s: Subschema, v: Value) {
    && (s.jtype.Some? ==> HasType(s.jtype.value, v))
    && (s.minimum.Some? && v.Num? ==> s.minimum.value <= v.n)
    && (s.maximum.Some? && v.Num? ==> v.n <= s.maximum.value)
    && (s.pattern.Some? && v.Str? ==> re.matches(s.pattern.value, v.s))
    && (s.enumValues.Some? ==> v in s.enumValues.value)
  }

  predicate SchemaCompiles(re: Regex, s: Subschema) {
    s.pattern.Some? ==> re.compiles(s.pattern.value)
  }

  predicate ValidFieldValue(re: Regex, f: Field, v: Value) {
    SchemaCompiles(re, FieldSchema(f)) && Accepts(re, FieldSchema(f), v)
  }

  predicate DocCompiles(re: Regex, doc: Doc) {
    forall k :: k in doc.properties ==> SchemaCompiles(re, doc.properties[k])
  }

  /** An object schema that allows no additional properties. */
  predicate DocAccepts(re: Regex, doc: Doc, values: Values) {
    && (forall k :: k in values ==> k in doc.properties && Accepts(re, doc.properties[k], values[k]))
    && (forall k :: k in doc.required ==> k in values)
  }

  /** The field a name stands for: the last one so called, as filling a map leaves it. */
  function FieldsOf(def: Definition): map<string, Field> {
    if def == [] then map[]
    else FieldsOf(def[..|def| - 1])[def[|def| - 1].name := def[|def| - 1]]
  }

  predicate Required(def: Definition, name: string) {
    exists f :: f in def && f.required && f.name == name
  }

  /** Values a definition accepts, said field by field. */
  predicate ValidValues(re: Regex, def: Definition, values: Values) {
    var fields := FieldsOf(def);
    && (forall k :: k in fields ==> SchemaCompiles(re, FieldSchema(fields[k])))
    && (forall k :: k in values ==> k in fields && ValidFieldValue(re, fields[k], values[k]))
    && (forall f :: f in def && f.required ==> f.name in values)
  }

  /** jsonSchemaDoc: fills the properties and lists the required names. */
  method JsonSchemaDoc(def: Definition) returns (doc: Doc)
    ensures doc.properties.Keys == FieldsOf(def).Keys
    ensures forall k :: k in doc.properties ==> doc.properties[k] == FieldSchema(FieldsOf(def)[k])
    ensures forall k :: k in doc.required <==> Required(def, k)
  {
    var props: map<string, Subschema> := map[];
    var required := [];
    for i := 0 to |def|
      invariant props.Keys == FieldsOf(def[..i]).Keys
      invariant forall k :: k in props ==> props[k] == FieldSchema(FieldsOf(def[..i])[k])
      invariant forall k :: k in required <==> Required(def[..i], k)
    {
      assert def[..i + 1][..i] == def[..i];
      assert forall f :: f in def[..i + 1] <==> f in def[..i] || f == def[i];
      props := props[def[i].name := FieldSchema(def[i])];
      if def[i].required {
        required := required + [def[i].name];
      }
      forall k ensures k in required <==> Required(def[..i + 1], k) {
        if def[i].required && k == def[i].name { assert def[i] in def[..i + 1]; }
        if Required(def[..i], k) {
          var f :| f in def[..i] && f.required && f.name == k;
          assert f in def[..i + 1];
        }
      }
    }
    assert def[..|def|] == def;
    doc := Doc(props, required);
  }

  /** Compile then ValidateValues: validating against the document is validating field by field. */
  method ValidateValues(re: Regex, def: Definition, values: Values) returns (ok: bool)
    ensures ok <==> ValidValues(re, def, values)
  {
    var doc := JsonSchemaDoc(def);
    ok := DocCompiles(re, doc) && DocAccepts(re, doc, values);
    assert (forall k :: k in doc.required ==> k in values)
      <==> (forall f :: f in def && f.required ==> f.name in values) by {
      if forall k :: k in doc.required ==> k in values {
        forall f | f in def && f.required ensures f.name in values { assert Required(def, f.name); }
      }
    }
  }

  // ---------------------------------------------------------------- definitions

  predicate ValidField(f: Field) {
    && f.name != "" && !f.ftype.UnknownField?
    && (f.ftype.EnumField? ==> f.enumValues != [])
    && (f.min.Some? && f.max.Some? ==> f.min.value <= f.max.value)
  }

  predicate ValidDefinition(def: Definition) {
    && (forall i :: 0 <= i < |def| ==> ValidField(def[i]))
    && (forall i, j :: 0 <= i < j < |def| ==> def[i].name != def[j].name)
  }

  method ValidateDefinition(def: Definition) returns (ok: bool)
    ensures ok <==> ValidDefinition(def)
  {
    var seen: set<string> := {};
    for i := 0 to |def|
      invariant ValidDefinition(def[..i])
      invariant forall n :: n in seen <==> exists j :: 0 <= j < i && def[j].name == n
    {
      if def[i].name in seen || !ValidField(def[i]) {
        return false;
      }
      seen := seen + {def[i].name};
    }
    assert def[..|def|] == def;
    return true;
  }

  /** In a valid definition every field is the one its name stands for. */
  lemma {:induction false} NamesAreUnique(def: Definition, f: Field)
    requires ValidDefinition(def) && f in def
    ensures f.name in FieldsOf(def) && FieldsOf(def)[f.name] == f
  {
    var last := def[|def| - 1];
    if f != last {
      var i :| 0 <= i < |def| && def[i] == f;
      assert def[..|def| - 1][i] == f;
      NamesAreUnique(def[..|def| - 1], f);
    }
  }

  lemma {:induction false} FieldsAreListed(def: Definition, name: string)
    requires name in FieldsOf(def)
    ensures FieldsOf(def)[name] in def && FieldsOf(def)[name].name == name
  {
    if name != def[|def| - 1].name {
      FieldsAreListed(def[..|def| - 1], name);
    }
  }

  // ---------------------------------------------------------------- targeting

  predicate ValidRollout(re: Regex, f: Field, rollout: Rollout) {
    && (forall v :: v in rollout.variants ==> ValidFieldValue(re, f, v.value) && 0.0 <= v.weight)
    && 0.0 < Total(Weights(rollout.variants))
  }

  /** Exactly one of a static value (JSON null counts as none) and a rollout. */
  predicate ValidRule(re: Regex, f: Field, rule: Rule) {
    && (rule.value != Null <==> rule.rollout.None?)
    && (forall c :: c in rule.conditions ==> c.operator != Unknown)
    && (rule.rollout.None? ==> ValidFieldValue(re, f, rule.value))
    && (rule.rollout.Some? ==> ValidRollout(re, f, rule.rollout.value))
  }

  predicate ValidTargeting(re: Regex, def: Definition, m: RuleMap) {
    forall k :: k in m ==> k in FieldsOf(def) && forall r :: r in m[k] ==> ValidRule(re, FieldsOf(def)[k], r)
  }

  method ValidateRollout(re: Regex, f: Field, rollout: Rollout) returns (ok: bool)
    ensures ok <==> ValidRollout(re, f, rollout)
  {
    var totalWeight := 0.0;
    ghost var w := Weights(rollout.variants);
    for i := 0 to |rollout.variants|
      invariant totalWeight == Prefix(w, i)
      invariant forall j :: 0 <= j < i ==>
                  ValidFieldValue(re, f, rollout.variants[j].value) && 0.0 <= rollout.variants[j].weight
    {
      if !ValidFieldValue(re, f, rollout.variants[i].value) || rollout.variants[i].weight < 0.0 {
        assert rollout.variants[i] in rollout.variants;
        return false;
      }
      totalWeight := totalWeight + rollout.variants[i].weight;
    }
    return totalWeight > 0.0;
  }

  method ValidateRule(re: Regex, f: Field, rule: Rule) returns (ok: bool)
    ensures ok <==> ValidRule(re, f, rule)
  {
    var hasValue, hasRollout := rule.value != Null, rule.rollout.Some?;
    if hasValue == hasRollout {
      return false;
    }
    for i := 0 to |rule.conditions|
      invariant forall j :: 0 <= j < i ==> rule.conditions[j].operator != Unknown
    {
      if rule.conditions[i].operator == Unknown {
        assert rule.conditions[i] in rule.conditions;
        return false;
      }
    }
    if hasValue {
      return ValidFieldValue(re, f, rule.value);
    }
    ok := ValidateRollout(re, f, rule.rollout.value);
  }

  method ValidateRules(re: Regex, f: Field, rules: seq<Rule>) returns (ok: bool)
    ensures ok <==> forall r :: r in rules ==> ValidRule(re, f, r)
  {
    for i := 0 to |rules|
      invariant forall j :: 0 <= j < i ==> ValidRule(re, f, rules[j])
    {
      ok := ValidateRule(re, f, rules[i]);
      if !ok {
        assert rules[i] in rules;
        return;
      }
    }
    ok := true;
  }

  /** targeting.Validate, over the map in whatever order it iterates. */
  method Validate(re: Regex, def: Definition, m: RuleMap) returns (ok: bool)
    ensures ok <==> ValidTargeting(re, def, m)
  {
    var fields: map<string, Field> := map[];
    for i := 0 to |def|
      invariant fields == FieldsOf(def[..i])
    {
      assert def[..i + 1][..i] == def[..i];
      fields := fields[def[i].name := def[i]];
    }
    assert def[..|def|] == def;
    var keys := m.Keys;
    while keys != {}
      invariant keys <= m.Keys
      invariant forall k :: k in m && k !in keys ==>
                  k in fields && forall r :: r in m[k] ==> ValidRule(re, fields[k], r)
      decreases |keys|
    {
      var k :| k in keys;
      if k !in fields {
        return false;
      }
      ok := ValidateRules(re, fields[k], m[k]);
      if !ok {
        return;
      }
      keys := keys - {k};
    }
    ok := true;
  }

  // ---------------------------------------------------------------- what the two validators take, in full

  /** The values a field takes, type by type. */
  predicate Takes(re: Regex, f: Field, v: Value) {
    match f.ftype
    case StringField => v.Str? && (f.pattern != "" ==> re.compiles(f.pattern) && re.matches(f.pattern, v.s))
    case IntField => v.Num? && v.n.Floor as real == v.n && InRange(f, v.n)
    case FloatField => v.Num? && InRange(f, v.n)
    case BoolField => v.Bool?
    case EnumField => v in f.enumValues
    case DurationField =>
      v.Str? && re.compiles("^[0-9]+(ns|us|\U{00B5}s|ms|s|m|h)$")
      && re.matches("^[0-9]+(ns|us|\U{00B5}s|ms|s|m|h)$", v.s)
    case _ => true
  }

  predicate InRange(f: Field, n: real) {
    !(f.min.Some? && n < f.min.value) && !(f.max.Some? && f.max.value < n)
  }

  /** Compiling a field to its keywords and checking those is taking what the field's type says. */
  lemma FieldTakes(re: Regex, f: Field, v: Value)
    ensures ValidFieldValue(re, f, v) <==> Takes(re, f, v)
  {
  }

  /** The pattern of the field, if it has one, is a regular expression. */
  predicate PatternCompiles(re: Regex, f: Field) {
    && (f.ftype.StringField? && f.pattern != "" ==> re.compiles(f.pattern))
    && (f.ftype.DurationField? ==> re.compiles("^[0-9]+(ns|us|\U{00B5}s|ms|s|m|h)$"))
  }

  lemma PatternsCompile(re: Regex, def: Definition)
    requires ValidDefinition(def)
    ensures (forall k :: k in FieldsOf(def) ==> SchemaCompiles(re, FieldSchema(FieldsOf(def)[k])))
            <==> forall f :: f in def ==> PatternCompiles(re, f)
  {
    forall k | k in FieldsOf(def) ensures FieldsOf(def)[k] in def { FieldsAreListed(def, k); }
    forall f | f in def ensures f.name in FieldsOf(def) && FieldsOf(def)[f.name] == f { NamesAreUnique(def, f); }
    forall f | f in def ensures SchemaCompiles(re, FieldSchema(f)) <==> PatternCompiles(re, f) {}
  }

  predicate Fits(re: Regex, def: Definition, values: Values) {
    && (forall k :: k in values ==> TakenByName(re, def, k, values[k]))
    && (forall f :: f in def && f.required ==> f.name in values)
  }

  predicate TakenByName(re: Regex, def: Definition, k: string, v: Value) {
    exists f :: f in def && f.name == k && Takes(re, f, v)
  }

  lemma KeyPasses(re: Regex, def: Definition, k: string, v: Value)
    requires ValidDefinition(def)
    ensures k in FieldsOf(def) && ValidFieldValue(re, FieldsOf(def)[k], v)
            <==> TakenByName(re, def, k, v)
  {
    hide ValidDefinition, ValidFieldValue, Takes;
    if k in FieldsOf(def) {
      FieldsAreListed(def, k);
      FieldTakes(re, FieldsOf(def)[k], v);
    }
    if f :| f in def && f.name == k && Takes(re, f, v) {
      NamesAreUnique(def, f);
      FieldTakes(re, f, v);
    }
  }

  /**
   * Against a definition as put-schema stores it, values pass exactly when each is of a declared
   * field and taken by it, and no required field is missing.
   */
  lemma ValuesPassExactly(re: Regex, def: Definition, values: Values)
    requires ValidDefinition(def) && forall f :: f in def ==> PatternCompiles(re, f)
    ensures ValidValues(re, def, values) <==> Fits(re, def, values)
  {
    PatternsCompile(re, def);
    forall k | k in values
      ensures k in FieldsOf(def) && ValidFieldValue(re, FieldsOf(def)[k], values[k])
              <==> TakenByName(re, def, k, values[k])
    {
      KeyPasses(re, def, k, values[k]);
    }
    assert forall k :: k in FieldsOf(def) ==> SchemaCompiles(re, FieldSchema(FieldsOf(def)[k]));
  }

  /** A rule sets a value its field takes, or a rollout over such values, some of them with weight, but not both. */
  predicate WellFormedRule(re: Regex, f: Field, rule: Rule) {
    && (forall c :: c in rule.conditions ==> c.operator != Unknown)
    && match rule.rollout
       case None => rule.value != Null && Takes(re, f, rule.value)
       case Some(rollout) =>
         && rule.value == Null
         && (forall v :: v in rollout.variants ==> Takes(re, f, v.value) && v.weight >= 0.0)
         && exists v :: v in rollout.variants && v.weight > 0.0
  }

  lemma {:induction false} SomeWeight(variants: seq<Variant>, i: nat)
    requires i <= |variants| && forall v :: v in variants ==> v.weight >= 0.0
    ensures 0.0 <= Prefix(Weights(variants), i)
    ensures 0.0 < Prefix(Weights(variants), i) <==> exists j :: 0 <= j < i && variants[j].weight > 0.0
  {
    if i > 0 {
      SomeWeight(variants, i - 1);
      assert variants[i - 1] in variants;
    }
  }

  lemma RulePassesExactly(re: Regex, f: Field, rule: Rule)
    ensures ValidRule(re, f, rule) <==> WellFormedRule(re, f, rule)
  {
    FieldTakes(re, f, rule.value);
    if rule.rollout.Some? {
      var variants := rule.rollout.value.variants;
      forall v | v in variants ensures ValidFieldValue(re, f, v.value) <==> Takes(re, f, v.value) {
        FieldTakes(re, f, v.value);
      }
      if forall v :: v in variants ==> v.weight >= 0.0 { SomeWeight(variants, |variants|); }
    }
  }

  predicate FitsRules(re: Regex, def: Definition, m: RuleMap) {
    forall k :: k in m ==> exists f :: f in def && f.name == k && forall r :: r in m[k] ==> WellFormedRule(re, f, r)
  }

  /** Targeting passes exactly when every rule is well-formed and is about a declared field. */
  lemma TargetingPassesExactly(re: Regex, def: Definition, m: RuleMap)
    requires ValidDefinition(def)
    ensures ValidTargeting(re, def, m) <==> FitsRules(re, def, m)
  {
    hide ValidRule, WellFormedRule;
    forall k | k in m
      ensures k in FieldsOf(def) && (forall r :: r in m[k] ==> ValidRule(re, FieldsOf(def)[k], r))
              <==> exists f :: f in def && f.name == k && forall r :: r in m[k] ==> WellFormedRule(re, f, r)
    {
      if k in FieldsOf(def) {
        FieldsAreListed(def, k);
        forall r | r in m[k] ensures ValidRule(re, FieldsOf(def)[k], r) <==> WellFormedRule(re, FieldsOf(def)[k], r) {
          RulePassesExactly(re, FieldsOf(def)[k], r);
        }
      }
      if f :| f in def && f.name == k && forall r :: r in m[k] ==> WellFormedRule(re, f, r) {
        NamesAreUnique(def, f);
      }
    }
  }
}

/** What validation at save time promises about evaluation at read time. */
module Soundness {
  import opened Json
  import opened Targeting
  import opened Rollouts
  import opened Schema
  import opened Evaluator

  lemma WeightsAreProper(re: Regex, f: Field, rollout: Rollout)
    requires ValidRollout(re, f, rollout)
    ensures Proper(Weights(rollout.variants)) && |Weights(rollout.variants)| == |rollout.variants| > 0
  {
    var w := Weights(rollout.variants);
    forall i | 0 <= i < |w| ensures 0.0 <= w[i] {
      assert rollout.variants[i] in rollout.variants;
    }
  }

  /** A valid rollout always assigns one of its variants. */
  lemma BucketIsAVariant(hash: Hasher, re: Regex, f: Field, rollout: Rollout, key: string, targetingKey: string)
    requires ValidRollout(re, f, rollout)
    ensures exists v :: v in rollout.variants && Bucket(hash, rollout, key, targetingKey) == v.value
  {
    WeightsAreProper(re, f, rollout);
    if targetingKey == "" {
      assert rollout.variants[0] in rollout.variants;
    } else {
      var n := hash(HashInput(rollout, key, targetingKey));
      FallbackUnreachable(Weights(rollout.variants), n);
      assert rollout.variants[Select(Weights(rollout.variants), n)] in rollout.variants;
    }
  }

  lemma OutcomeIsAccepted(hash: Hasher, re: Regex, f: Field, rule: Rule, key: string, targetingKey: string)
    requires ValidRule(re, f, rule)
    ensures ValidFieldValue(re, f, Outcome(hash, rule, key, targetingKey))
  {
    if rule.rollout.Some? {
      BucketIsAVariant(hash, re, f, rule.rollout.value, key, targetingKey);
    }
  }

  /** A key with a base value or a matching rule resolves to a value its field accepts. */
  lemma ResolvedKeyIsAccepted(
      hash: Hasher, re: Regex, def: Definition, values: Values, rules: RuleMap, k: string, ctx: EvalContext)
    requires ValidValues(re, def, values) && ValidTargeting(re, def, rules)
    requires k in values || SomeMatch(RulesFor(rules, k), ctx.attributes)
    ensures k in FieldsOf(def) && ValidFieldValue(re, FieldsOf(def)[k], ResolveKey(hash, values, rules, k, ctx))
  {
    var i := FirstMatchDecides(hash, k, BaseFor(values, k), RulesFor(rules, k), ctx);
    if SomeMatch(RulesFor(rules, k), ctx.attributes) {
      assert rules[k][i] in rules[k];
      OutcomeIsAccepted(hash, re, FieldsOf(def)[k], rules[k][i], k, ctx.targetingKey);
    }
  }

  /** The keys that resolve to nil: rules, none of which match, and no base value. */
  predicate Dangling(values: Values, rules: RuleMap, attrs: Values, k: string) {
    k in rules && k !in values && !SomeMatch(rules[k], attrs)
  }

  /**
   * Evaluation type soundness, exactly. If values and targeting were accepted against one
   * definition, then for every context the evaluated configuration is itself a valid one if and
   * only if every dangling key's field accepts null.
   */
  lemma EvaluationIsSound(
      hash: Hasher, re: Regex, def: Definition, values: Values, rules: RuleMap, ctx: EvalContext)
    requires ValidValues(re, def, values) && ValidTargeting(re, def, rules)
    ensures ValidValues(re, def, ResolveAll(hash, values, rules, ctx))
            <==> forall k :: k in rules && Dangling(values, rules, ctx.attributes, k)
                             ==> ValidFieldValue(re, FieldsOf(def)[k], Null)
    ensures ResolveAll(hash, values, rules, ctx).Keys <= FieldsOf(def).Keys
    ensures forall f :: f in def && f.required ==> f.name in ResolveAll(hash, values, rules, ctx)
  {
    var result := ResolveAll(hash, values, rules, ctx);
    forall k | k in result
      ensures k in FieldsOf(def)
      ensures Dangling(values, rules, ctx.attributes, k) ==> result[k] == Null
      ensures !Dangling(values, rules, ctx.attributes, k) ==> ValidFieldValue(re, FieldsOf(def)[k], result[k])
    {
      if Dangling(values, rules, ctx.attributes, k) {
        var _ := FirstMatchDecides(hash, k, Null, rules[k], ctx);
      } else {
        ResolvedKeyIsAccepted(hash, re, def, values, rules, k, ctx);
      }
    }
    forall k | k in rules ensures k in result {}
  }

  /**
   * The evaluated configuration has a value for every field that is required and for none that is
   * unknown, and it fits the definition unless rules without a match leave a null that their field
   * does not take.
   */
  ghost predicate EvaluatesWell(
      hash: Hasher, re: Regex, def: Definition, values: Values, rules: RuleMap, ctx: EvalContext)
  {
    var result := ResolveAll(hash, values, rules, ctx);
    && (forall k :: k in result ==> exists f :: f in def && f.name == k)
    && (forall f :: f in def && f.required ==> f.name in result)
    && (Fits(re, def, result)
        <==> forall f :: f in def && f.name in rules && Dangling(values, rules, ctx.attributes, f.name)
                         ==> Takes(re, f, Null))
  }

  lemma WhatFitsEvaluates(
      hash: Hasher, re: Regex, def: Definition, values: Values, rules: RuleMap, ctx: EvalContext)
    requires ValidDefinition(def) && (forall f :: f in def ==> PatternCompiles(re, f))
    requires Fits(re, def, values) && FitsRules(re, def, rules)
    ensures EvaluatesWell(hash, re, def, values, rules, ctx)
  {
    var result := ResolveAll(hash, values, rules, ctx);
    hide ResolveAll, Takes, FieldSchema, Accepts, Dangling, WellFormedRule, PatternCompiles, ValidValues;
    ValuesPassExactly(re, def, values);
    ValuesPassExactly(re, def, result);
    TargetingPassesExactly(re, def, rules);
    EvaluationIsSound(hash, re, def, values, rules, ctx);
    forall k | k in FieldsOf(def) ensures FieldsOf(def)[k] in def && FieldsOf(def)[k].name == k {
      FieldsAreListed(def, k);
    }
    forall f | f in def
      ensures f.name in FieldsOf(def) && FieldsOf(def)[f.name] == f
      ensures ValidFieldValue(re, f, Null) <==> Takes(re, f, Null)
    {
      NamesAreUnique(def, f);
      FieldTakes(re, f, Null);
    }
    forall k | k in rules ensures k in FieldsOf(def) {}
  }

  const FLAG: Definition := [Field("a", BoolField, false, None, None, "", [])]
  const WHEN_X := Rule([Condition("x", Eq, Some([Bool(true)]))], Bool(true), None)

  /**
   * An optional flag with a rule and no value, for a caller the rule does not match: the server
   * accepts both, and the evaluated configuration holds a null that it would not accept.
   */
  lemma UnmatchedRuleGivesNull(hash: Hasher, re: Regex)
    ensures ValidDefinition(FLAG) && ValidValues(re, FLAG, map[]) && ValidTargeting(re, FLAG, map["a" := [WHEN_X]])
    ensures ResolveAll(hash, map[], map["a" := [WHEN_X]], EvalContext("", map[])) == map["a" := Null]
    ensures !ValidValues(re, FLAG, map["a" := Null])
  {
    var rules := map["a" := [WHEN_X]];
    assert FLAG[..0] == [] && FieldsOf(FLAG) == map["a" := FLAG[0]];
    var c := WHEN_X.conditions[0];
    assert c in WHEN_X.conditions && !MatchCondition(c, map[]);
    assert !SomeMatch([WHEN_X], map[]);
    var _ := FirstMatchDecides(hash, "a", Null, [WHEN_X], EvalContext("", map[]));
    assert ResolveKey(hash, map[], rules, "a", EvalContext("", map[])) == Null;
    assert ResolveAll(hash, map[], rules, EvalContext("", map[])).Keys == {"a"};
  }
}
