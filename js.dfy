/** The few pieces of JavaScript semantics the modelled code depends on:
    `process.env` lookups, the difference between `null` and `undefined`,
    strict equality, truthiness and the nullish-coalescing operator `??`. */
module Js {
  import opened Wrappers

  /** `process.env`: a variable is either unset or holds a string (possibly empty). */
  type Env = map<string, string>

  function EnvGet(env: Env, name: string): (r: Option<string>)
    ensures r.Some? <==> name in env
    ensures r.Some? ==> r.value == env[name]
  {
    if name in env then Some(env[name]) else None
  }

  /** A JavaScript value, as far as the modelled code inspects one. An object
      is known only by its identity; NaN is not modelled. */
  datatype JsValue = Undefined | Null | Bool(b: bool) | Num(n: int) | Str(s: string) | Obj(id: nat)

  /** The result of `URLSearchParams.get` and `Headers.get`: `null` when absent. */
  function OrNull(lookup: Option<string>): JsValue {
    if lookup.Some? then Str(lookup.value) else Null
  }

  /** The value of `process.env.X`: `undefined` when unset. */
  function OrUndefined(setting: Option<string>): JsValue {
    if setting.Some? then Str(setting.value) else Undefined
  }

  /** `===`: primitives compare by value, objects by identity; `null !== undefined`. */
  predicate StrictEquals(a: JsValue, b: JsValue) {
    a == b
  }

  /** `Boolean(v)`: the falsy values are undefined, null, false, 0 and "". */
  predicate Truthy(v: JsValue) {
    match v
    case Undefined => false
    case Null => false
    case Bool(b) => b
    case Num(n) => n != 0
    case Str(s) => s != ""
    case Obj(_) => true
  }

  /** `!!x` for a value of type `string | undefined`. */
  predicate TruthyString(x: Option<string>) {
    Truthy(OrUndefined(x))
  }

  /** `x ?? fallback` for a value of type `string | undefined`: only an unset
      value takes the fallback; an empty string is kept. */
  function Nullish(x: Option<string>, fallback: string): (r: string)
    ensures x.None? ==> r == fallback
    ensures x.Some? ==> r == x.value
  {
    match OrUndefined(x)
    case Str(s) => s
    case _ => fallback
  }

  /** A thrown JavaScript error: `new Error(message)` or a runtime `TypeError`. */
  datatype JsError = Error(message: string) | TypeError(message: string)
}
