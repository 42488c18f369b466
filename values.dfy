/** Values shared by every module of the model: the JSON-like documents the
    bot exchanges with the API, Python's exceptions as data, and the small
    failure-carrying wrappers used instead of raising. */
module Values {

  datatype Option<+T> = None | Some(value: T)

  /** A value or the error that prevented it; `:-` propagates the error. */
  datatype Result<+T, +E> = Ok(value: T) | Err(error: E)
  {
    predicate IsFailure()
    {
      Err?
    }

    function PropagateFailure<U>(): Result<U, E>
      requires Err?
    {
      Err(error)
    }

    function Extract(): T
      requires Ok?
    {
      value
    }
  }

  /** Success or failure of an operation that returns nothing. */
  datatype Outcome<+E> = Pass | Fail(error: E)

  /** A parsed JSON document (what `json.loads` produces). Numbers are
      integers only; `JNull` is Python's `None`. */
  datatype Json =
    | JNull
    | JBool(b: bool)
    | JInt(i: int)
    | JStr(s: string)
    | JList(items: seq<Json>)
    | JObj(fields: map<string, Json>)

  /** The Python exceptions the modelled code raises or lets escape. */
  datatype Exc =
    | KeyError(key: string)
    | TypeError
    /** A TypeError whose message the model keeps: the one `check_type` raises. */
    | TypeMismatch(message: string)
    | AttributeError
    | ValueError(message: string)
    | IndexError
    | NotImplementedError(message: string)

  /** A sanitising callable: turns a value into a new one, or raises. */
  type Sanitizer = Json -> Result<Json, Exc>

  /** Python truthiness of a JSON value (`bool(x)`). */
  predicate Truthy(j: Json)
  {
    match j
    case JNull => false
    case JBool(b) => b
    case JInt(i) => i != 0
    case JStr(s) => s != ""
    case JList(items) => items != []
    case JObj(fields) => fields != map[]
  }

  /** Python truthiness of an optional string argument (`if token:`). */
  predicate TruthyStr(s: Option<string>)
  {
    s.Some? && s.value != ""
  }

  /** A 128-bit UUID, as Python's `uuid.UUID` holds it. */
  newtype Uuid = x: int | 0 <= x < 0x1_0000_0000_0000_0000_0000_0000_0000_0000

  /** What `update_rescue` reads from a rescue: its `case_id` and the
      document `rescue.json(full)` produces. */
  datatype RescueView = RescueView(caseId: Json, json: Json)

  /** A mutable Python dict from strings to JSON values. Code that updates a
      dict it was handed receives one of these. */
  class Dict {
    var entries: map<string, Json>

    constructor (m: map<string, Json>)
      ensures entries == m
    {
      entries := m;
    }
  }
}
