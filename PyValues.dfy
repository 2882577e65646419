/** The scalar Python values the Django user code reads from keyword
    arguments and request payloads, and Python's truthiness rules. */
module PyValues {

  datatype PyValue = PyNone | PyBool(b: bool) | PyInt(i: int) | PyStr(s: string)

  /** The Python exceptions the modelled code lets escape. */
  datatype PyError =
    | ValueError(message: string)
    | TypeError
    | AttributeError
    | IndexError
    | KeyError
    | IntegrityError   // a unique constraint refused the row

  /** A Python dict with string keys. */
  type Dict = map<string, PyValue>

  /** `bool(v)`. */
  predicate Truthy(v: PyValue)
  {
    match v
    case PyNone => false
    case PyBool(b) => b
    case PyInt(i) => i != 0
    case PyStr(s) => s != ""
  }

  /** `d.get(key, default)`. */
  function GetOr(d: Dict, key: string, default: PyValue): (r: PyValue)
    ensures key in d ==> r == d[key]
    ensures key !in d ==> r == default
  {
    if key in d then d[key] else default
  }
}
