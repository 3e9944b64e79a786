/** JavaScript values as the core sees them: plain objects are string-keyed
    records, object spread is record override, and the two platform builtins
    the core calls (encodeURIComponent, JSON.stringify) are parameters. */
module JsValues {

  datatype Option<+T> = None | Some(value: T) {
    function GetOr(default: T): T {
      match this
      case Some(v) => v
      case None => default
    }
  }

  /** A JavaScript value. Numbers are kept abstract as integers; the core
      never computes with them, it only compares and encodes them. */
  datatype Js =
    | Undefined
    | Null
    | Bool(b: bool)
    | Num(n: int)
    | Str(s: string)
    | Obj(fields: map<string, Js>)

  /** A plain object: its own enumerable string-keyed entries. */
  type Record = map<string, Js>

  /** The platform functions the core calls but does not define. */
  datatype Builtins = Builtins(encodeURIComponent: Js -> string, stringify: Js -> string)

  /** `r[k]`: a missing key reads as `undefined`. */
  function Get(r: Record, k: string): (v: Js)
    ensures k !in r ==> v == Undefined
    ensures k in r ==> v == r[k]
  {
    if k in r then r[k] else Undefined
  }

  /** JavaScript truthiness, as used by `a || b` and `qs ? … : …`. */
  predicate Truthy(v: Js) {
    match v
    case Undefined => false
    case Null => false
    case Bool(b) => b
    case Num(n) => n != 0
    case Str(s) => s != ""
    case Obj(_) => true
  }

  /** `v || {}` */
  function OrEmpty(v: Js): Js {
    if Truthy(v) then v else Obj(map[])
  }

  /** `v ?? {}` */
  function NullishOrEmpty(v: Js): Js {
    if v == Undefined || v == Null then Obj(map[]) else v
  }

  /** The entries that `{...v}` copies: an object's own entries, nothing for
      `undefined`, `null`, booleans and numbers. */
  function Entries(v: Js): (r: Record)
    ensures v.Obj? ==> r == v.fields
    ensures !v.Obj? ==> r == map[]
  {
    if v.Obj? then v.fields else map[]
  }

  /** `{...a, ...b}` */
  function Override(a: Record, b: Record): Record {
    a + b
  }

  /** Spread keeps every key of either side, the right-hand side winning. */
  lemma OverrideMeaning(a: Record, b: Record)
    ensures Override(a, b).Keys == a.Keys + b.Keys
    ensures forall k :: k in b ==> Override(a, b)[k] == b[k]
    ensures forall k :: k in a && k !in b ==> Override(a, b)[k] == a[k]
  {
  }
}
