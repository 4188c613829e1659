/** The JavaScript values the services read out of parsed JSON, and the
    operators (`||`, `??`, truthiness, `String(v)`) the code applies to them. */
module Js {
  import opened Text

  /** `undefined` is `None`. */
  datatype Option<+T> = None | Some(value: T)

  /** A JSON value as a field of a parsed object. `Composite` is a nested object
      or array: always truthy, and `text` is what `String(v)` makes of it. */
  datatype JVal = Null | Bool(b: bool) | Num(n: int) | Str(s: string) | Composite(text: string)

  /** A parsed JSON object: its fields by name; a missing name reads as `undefined`. */
  type Frame = map<string, JVal>

  function Field(f: Frame, name: string): (v: Option<JVal>)
    ensures v.Some? <==> name in f
  {
    if name in f then Some(f[name]) else None
  }

  predicate Truthy(v: JVal) {
    match v
    case Null => false
    case Bool(b) => b
    case Num(n) => n != 0
    case Str(s) => s != ""
    case Composite(_) => true
  }

  /** Truthiness of a possibly undefined value. */
  predicate IsTruthy(v: Option<JVal>) {
    v.Some? && Truthy(v.value)
  }

  /** `a || b`: the left operand when it is truthy, otherwise the right one. */
  function Or(a: Option<JVal>, b: JVal): (r: JVal)
    ensures Truthy(b) ==> Truthy(r)
    ensures IsTruthy(a) ==> r == a.value
  {
    if IsTruthy(a) then a.value else b
  }

  /** `a ?? b`: the left operand unless it is `null` or `undefined`. */
  function Coalesce(a: Option<JVal>, b: JVal): (r: JVal)
    ensures r == b || (a.Some? && r == a.value && r != Null)
  {
    if a.Some? && a.value != Null then a.value else b
  }

  /** `String(v)`. */
  function Render(v: JVal): string {
    match v
    case Null => "null"
    case Bool(b) => if b then "true" else "false"
    case Num(n) => IntToString(n)
    case Str(s) => s
    case Composite(text) => text
  }
}
