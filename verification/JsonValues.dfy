/** Parsed configurations, stage payloads and model cards: a JSON-like datatype with the interpreter's conversions. */
module JsonValues {
  import opened Prelude
  import opened Text

  datatype Json =
    | JNull
    | JBool(b: bool)
    | JInt(i: int)
    | JReal(r: real)
    | JStr(s: string)
    | JList(items: seq<Json>)
    | JObj(fields: map<string, Json>)

  /** How the interpreter prints a value that is not a string, and which strings it reads as integers. */
  datatype Interpreter = Interpreter(repr: Json -> string, parseInt: string -> Option<int>)

  /** The dataset splits that configurations and cards name. */
  const SPLITS := ["train", "val", "test"]

  predicate Truthy(j: Json) {
    match j
    case JNull => false
    case JBool(b) => b
    case JInt(i) => i != 0
    case JReal(r) => r != 0.0
    case JStr(s) => s != ""
    case JList(items) => items != []
    case JObj(fields) => fields != map[]
  }

  /** `d.get(key)`; a value that is no object has no fields. */
  function Get(j: Json, key: string): Json {
    if j.JObj? && key in j.fields then j.fields[key] else JNull
  }

  /** `d.get(key, default)` */
  function GetOr(j: Json, key: string, otherwise: Json): Json {
    if j.JObj? && key in j.fields then j.fields[key] else otherwise
  }

  /** A section that counts as an empty object when it is missing. */
  function Section(j: Json, key: string): Json {
    GetOr(j, key, JObj(map[]))
  }

  /** `a or b` */
  function Or(a: Json, b: Json): Json {
    if Truthy(a) then a else b
  }

  /** `j if isinstance(j, dict) else {}` */
  function AsObject(j: Json): (o: Json)
    ensures o.JObj?
  {
    if j.JObj? then j else JObj(map[])
  }

  /** A number, and not a bool. */
  predicate IsNumber(j: Json) {
    j.JInt? || j.JReal?
  }

  function Number(j: Json): real
    requires IsNumber(j)
  {
    if j.JInt? then j.i as real else j.r
  }

  /** `str(j)` */
  function Str(py: Interpreter, j: Json): string {
    if j.JStr? then j.s else py.repr(j)
  }

  /** `int(j)`; None when it raises. */
  function Int(py: Interpreter, j: Json): Option<int> {
    match j
    case JInt(i) => Some(i)
    case JBool(b) => Some(if b then 1 else 0)
    case JReal(r) => Some(if r >= 0.0 then r.Floor else -((-r).Floor))
    case JStr(s) => py.parseInt(s)
    case _ => None
  }

  /** `isinstance(j, int) and j >= 1`; a bool is an int. */
  predicate IsPositiveInt(j: Json) {
    (j.JInt? && j.i >= 1) || j == JBool(true)
  }

  /** Both numbers, and the first at least the second. */
  predicate AtLeast(actual: Json, threshold: Json) {
    IsNumber(actual) && IsNumber(threshold) && Number(actual) >= Number(threshold)
  }

  predicate SaysFillIn(py: Interpreter, item: Json) {
    Contains(Lower(Str(py, item)), "fill in")
  }

  /** A list of limitations that still holds the text of the template. */
  predicate IsPlaceholder(py: Interpreter, limitations: Json) {
    limitations.JList? && exists k :: 0 <= k < |limitations.items| && SaysFillIn(py, limitations.items[k])
  }
}
