/** The two pieces of JavaScript value semantics the settings handler relies on. */
module Js {
  import opened Wrappers

  /** A string is truthy exactly when it is not empty. */
  predicate Truthy(s: string) {
    s != ""
  }

  /** An optional string is truthy when it is present and not empty:
      `undefined`, `null` and `""` all count as "not supplied". */
  predicate TruthyOpt(v: Option<string>) {
    v.Some? && Truthy(v.value)
  }

  /** `v || ""` on an optional string: a falsy operand falls through to `""`. */
  function OrEmpty(v: Option<string>): (r: string)
    ensures TruthyOpt(v) ==> r == v.value
    ensures !TruthyOpt(v) ==> r == ""
  {
    v.GetOr("")
  }
}
