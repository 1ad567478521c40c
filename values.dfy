/** Python's dynamically typed values as they appear in dictionaries, JSON and store rows. */
module Values {
  import opened Wrappers

  datatype Value =
    | Null
    | Bool(b: bool)
    | Int(i: int)
    | Num(x: real)
    | Str(s: string)
    | List(items: seq<Value>)
    | Obj(fields: map<string, Value>)

  /** Python truthiness. */
  predicate Truthy(v: Value)
  {
    match v
    case Null => false
    case Bool(b) => b
    case Int(i) => i != 0
    case Num(x) => x != 0.0
    case Str(s) => s != ""
    case List(xs) => xs != []
    case Obj(m) => m != map[]
  }

  /** A dictionary with string keys. */
  type Dict = map<string, Value>

  /** `d.get(k)`. */
  function Get(d: Dict, k: string): Value
  {
    if k in d then d[k] else Null
  }

  /** `d.get(k, default)`. */
  function GetOr(d: Dict, k: string, default: Value): Value
  {
    if k in d then d[k] else default
  }

  /** `f"{v}"` / `str(v)`: a string shows itself; how anything else is written is the argument `repr`. */
  function Show(v: Value, repr: Value -> string): string
  {
    if v.Str? then v.s else repr(v)
  }

  /**
   * The elements a `for` loop visits when each of them is then subscripted
   * or asked `.get`: a list gives its items; a string or dictionary gives
   * strings, on which that raises, so only an empty one gets through.
   * None when the loop or its first element raises.
   */
  function SubscriptedItems(v: Value): Option<seq<Value>>
  {
    match v
    case List(xs) => Some(xs)
    case Str(s) => if s == "" then Some([]) else None
    case Obj(m) => if m == map[] then Some([]) else None
    case _ => None
  }
}
