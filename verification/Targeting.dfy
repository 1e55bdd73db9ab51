/** JSON values and the targeting-rule types shared by the server and both SDKs. */
module Json {
  datatype Option<+T> = None | Some(value: T)

  /** A decoded JSON value. Numbers are exact reals; an object is its set of key/value pairs. */
  datatype Value =
    | Null
    | Bool(b: bool)
    | Num(n: real)
    | Str(s: string)
    | Arr(items: seq<Value>)
    | Obj(fields: map<string, Value>)

  type Values = map<string, Value>
}

module Targeting {
  import opened Json

  datatype Operator = In | NotIn | Eq | Neq | Contains | Gt | Gte | Lt | Lte | Unknown

  /** `values` is None for the JSON null that a condition posted without values is stored as. */
  datatype Condition = Condition(attribute: string, operator: Operator, values: Option<seq<Value>>)

  datatype Variant = Variant(value: Value, weight: real)

  datatype Rollout = Rollout(salt: string, variants: seq<Variant>)

  /** A rule without a static value carries Null. */
  datatype Rule = Rule(conditions: seq<Condition>, value: Value, rollout: Option<Rollout>)

  type RuleMap = map<string, seq<Rule>>

  datatype EvalContext = EvalContext(targetingKey: string, attributes: Values)
}
