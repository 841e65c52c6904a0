/** The slice of Python's semantics the handlers rely on: the exception
    classes they raise and catch, with their inheritance, the values
    `json.loads` produces, and truthiness. */
module Python {
  datatype Option<T> = None | Some(value: T)

  /** The built-in exception classes involved. `OtherError` stands for any
      other subclass of `Exception`. */
  datatype PyClass =
    | Exception
    | ValueError
    | UnicodeError
    | UnicodeDecodeError
    | JSONDecodeError
    | TypeError
    | LookupError
    | KeyError
    | OtherError

  /** Method resolution order: the class followed by its ancestors.
      `json.JSONDecodeError` derives from `ValueError`, and so does
      `UnicodeDecodeError` (through `UnicodeError`); `KeyError` derives
      from `LookupError`, not from `ValueError`. */
  function Mro(c: PyClass): (mro: seq<PyClass>)
  {
    match c
    case Exception => [Exception]
    case ValueError => [ValueError, Exception]
    case UnicodeError => [UnicodeError, ValueError, Exception]
    case UnicodeDecodeError => [UnicodeDecodeError, UnicodeError, ValueError, Exception]
    case JSONDecodeError => [JSONDecodeError, ValueError, Exception]
    case TypeError => [TypeError, Exception]
    case LookupError => [LookupError, Exception]
    case KeyError => [KeyError, LookupError, Exception]
    case OtherError => [OtherError, Exception]
  }

  /** A raised exception: its class and `str(e)`. For a `KeyError`, `str(e)`
      is the quoted key, as Python renders it. */
  datatype PyException = PyException(cls: PyClass, text: string)

  /** What a call did: returned a value, or raised. */
  datatype Outcome<T> = Returned(value: T) | Raised(exc: PyException)

  predicate IsInstance(e: PyException, c: PyClass)
  {
    c in Mro(e.cls)
  }

  /** `except (C1, ..., Cn)` catches `e` when `e` is an instance of some `Ci`. */
  predicate Catches(classes: set<PyClass>, e: PyException)
  {
    exists c :: c in classes && IsInstance(e, c)
  }

  /** The values `json.loads` produces (floats are not modelled). */
  datatype Json =
    | JNull
    | JBool(b: bool)
    | JInt(i: int)
    | JStr(s: string)
    | JArray(items: seq<Json>)
    | JObject(fields: map<string, Json>)

  /** Python truthiness of a decoded JSON value, as `if v` tests it. */
  predicate Truthy(v: Json)
  {
    match v
    case JNull => false
    case JBool(b) => b
    case JInt(i) => i != 0
    case JStr(s) => s != ""
    case JArray(items) => items != []
    case JObject(fields) => fields != map[]
  }
}
