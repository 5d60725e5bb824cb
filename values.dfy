/**
 * The JSON-like values a requirements mapping holds, and the Python
 * built-ins the validator applies to them: truthiness, `str()`, `int()`
 * and `dict.get`.
 */
module Values {
  import opened Wrappers
  import opened Text

  datatype Value =
    | Null
    | Bool(b: bool)
    | Int(i: int)
    | Str(s: string)
    | List(items: seq<Value>)
    | Dict(fields: map<string, Value>)

  /** A requirements mapping: field name to value. */
  type Mapping = map<string, Value>

  /** Python truthiness: None, False, 0 and empty containers are false. */
  predicate Truthy(v: Value) {
    match v
    case Null => false
    case Bool(b) => b
    case Int(i) => i != 0
    case Str(s) => s != ""
    case List(items) => items != []
    case Dict(fields) => fields != map[]
  }

  /**
   * `str(v)`. Scalars render as Python renders them; a list or a mapping
   * keeps only the bracket its repr starts with.
   */
  function ToText(v: Value): (r: string)
    ensures Truthy(v) ==> r != ""
    ensures v.Str? ==> r == v.s
  {
    match v
    case Null => "None"
    case Bool(b) => if b then "True" else "False"
    case Int(i) => IntToText(i)
    case Str(s) => s
    case List(_) => "[...]"
    case Dict(_) => "{...}"
  }

  /** `int(v)`; None where Python raises ValueError or TypeError. */
  function ToInt(v: Value): (r: Option<int>)
    ensures v.Int? ==> r == Some(v.i)
  {
    match v
    case Bool(b) => Some(if b then 1 else 0)
    case Int(i) => Some(i)
    case Str(s) => ParseInt(s)
    case _ => None
  }

  /** `m.get(key, default)`. */
  function Get(m: Mapping, key: string, default: Value): (r: Value)
    ensures key in m ==> r == m[key]
    ensures key !in m ==> r == default
  {
    if key in m then m[key] else default
  }

  /** `int(str(v))` returns the int a rendered int came from. */
  lemma ToIntOfRenderedInt(i: int)
    ensures ToInt(Str(ToText(Int(i)))) == Some(i)
  {
    ParseIntOfIntToText(i);
  }
}
