/**
 * JSON values as Python holds them after `response.json()`, and the parts
 * of Python's semantics the modelled code applies to them: subscripting
 * (`data["main"]`, `data[0]`), truthiness (`not data`), `len`, and the
 * exceptions these raise.
 */
module Json {
  import opened Wrappers
  import opened Text

  /**
   * A Python number: its exact value together with the text `str()` and
   * f-strings print for it. The model does not compute that text from the
   * value; it only carries it into messages and request parameters.
   */
  datatype Number = Number(value: real, text: string)

  /** A finite number as Python prints it: digits, a point, a sign, an exponent. */
  predicate DecimalText(s: string) {
    forall i :: 0 <= i < |s| ==> IsDigit(s[i]) || s[i] in ".-+e"
  }

  datatype Json =
    | JNull
    | JBool(b: bool)
    | JNum(n: Number)
    | JStr(s: string)
    | JArr(items: seq<Json>)
    | JObj(fields: map<string, Json>)

  /** A subscript: a string key (`["main"]`) or an integer position (`[0]`). */
  datatype Key = Name(name: string) | Position(index: nat)

  /** The Python exceptions that reading a response body can raise. */
  datatype PyError =
    | KeyError(key: Key)
    | IndexError(onString: bool)
    | TypeError
    | JSONDecodeError(detail: string)

  /** `str(e)` for the exceptions whose text reaches a message (a TypeError never does). */
  function PyStr(e: PyError): string
    requires !e.TypeError?
  {
    match e
    case KeyError(Name(n)) => "'" + n + "'"
    case KeyError(Position(i)) => NatText(i)
    case IndexError(onString) => if onString then "string index out of range" else "list index out of range"
    case JSONDecodeError(detail) => detail
  }

  /** KeyError and IndexError: the two exceptions the provider client catches as a format error. */
  predicate IsLookupError(e: PyError) {
    e.KeyError? || e.IndexError?
  }

  /** `v[k]` in Python. JSON object keys are strings, so an integer key is never present. */
  function Subscript(v: Json, k: Key): (r: Result<Json, PyError>)
    ensures r.Ok? <==> (v.JObj? && k.Name? && k.name in v.fields)
                       || (v.JArr? && k.Position? && k.index < |v.items|)
                       || (v.JStr? && k.Position? && k.index < |v.s|)
    ensures r.Err? && r.error.KeyError? <==> v.JObj? && !(k.Name? && k.name in v.fields)
    ensures r.Err? && r.error.IndexError? <==> (v.JArr? || v.JStr?) && k.Position? && !r.Ok?
  {
    match v
    case JObj(m) =>
      if k.Name? && k.name in m then Ok(m[k.name]) else Err(KeyError(k))
    case JArr(xs) =>
      if !k.Position? then Err(TypeError)
      else if k.index < |xs| then Ok(xs[k.index]) else Err(IndexError(false))
    case JStr(s) =>
      if !k.Position? then Err(TypeError)
      else if k.index < |s| then Ok(JStr([s[k.index]])) else Err(IndexError(true))
    case _ => Err(TypeError)
  }

  /** `v[k0][k1]...` in Python: the first subscript that raises ends the walk. */
  function Path(v: Json, keys: seq<Key>): (r: Result<Json, PyError>)
    ensures r.Err? ==> !r.error.JSONDecodeError?
    decreases |keys|
  {
    if keys == [] then Ok(v)
    else
      var next :- Subscript(v, keys[0]);
      Path(next, keys[1..])
  }

  /** Python truthiness: `None`, `False`, `0`, and empty strings, lists and dicts are false. */
  predicate Truthy(v: Json) {
    match v
    case JNull => false
    case JBool(b) => b
    case JNum(n) => n.value != 0.0
    case JStr(s) => s != []
    case JArr(xs) => xs != []
    case JObj(m) => m != map[]
  }

  /** The values `len()` accepts; any other raises TypeError. */
  predicate Sized(v: Json) {
    v.JStr? || v.JArr? || v.JObj?
  }
}
