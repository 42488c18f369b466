/** The exceptions of the API layer (Modules/api/exceptions.py), with the
    messages their constructors build, and the builtin exceptions the handlers
    raise beside them. */
module ApiExceptions {
  import opened Values

  /** Which class a return-code exception is an instance of. */
  datatype ReturnCodeKind = BaseReturnCode | Unauthorized | Forbidden | InternalApi

  /** An exception raised by the API handlers. Each carries the message it
      was constructed with. */
  datatype ApiError =
    | APIError(message: string)
    | NotConnectedError(message: string)
    | MismatchedVersionError(message: string)
    | ReturnCodeError(kind: ReturnCodeKind, rcMessage: Option<string>, response: Option<Json>)
    | TimeoutError(message: string)
    /** A builtin exception (KeyError, TypeError, ...) escaping a handler. */
    | Raised(exc: Exc)

  /** `NotConnectedError(message)`: a missing or empty message is replaced by
      the default. */
  function NotConnected(message: Option<string>): (r: ApiError)
    ensures r.NotConnectedError? && r.message != ""
    ensures TruthyStr(message) ==> r.message == message.value
    ensures !TruthyStr(message) ==> r.message == "Not connected to API"
  {
    NotConnectedError(if TruthyStr(message) then message.value else "Not connected to API")
  }

  /** `MismatchedVersionError(handler_ver, api_ver)`: the API's version is
      named first in the message, the handler's second. */
  function MismatchedVersion(handlerVersion: string, apiVersion: string): (r: ApiError)
    ensures r.MismatchedVersionError?
    ensures r.message == "Tried to connect to " + apiVersion + " API with " + handlerVersion + " Handler."
  {
    MismatchedVersionError("Tried to connect to " + apiVersion + " API with " + handlerVersion + " Handler.")
  }

  /** The message starts with the API's version and ends with the handler's,
      so both can be read off it. */
  lemma MismatchedVersionNames(handlerVersion: string, apiVersion: string)
    ensures var m := MismatchedVersion(handlerVersion, apiVersion).message;
      |m| == |apiVersion| + |handlerVersion| + 39 &&
      m[20..20 + |apiVersion|] == apiVersion &&
      m[|m| - 9 - |handlerVersion|..|m| - 9] == handlerVersion
  {
    var m := MismatchedVersion(handlerVersion, apiVersion).message;
    var pre := "Tried to connect to " + apiVersion;
    assert m == pre + " API with " + handlerVersion + " Handler.";
    assert m[..|pre|] == pre;
    assert pre[20..] == apiVersion;
    var post := handlerVersion + " Handler.";
    assert m == pre + " API with " + post;
    assert m[|m| - |post|..] == post;
  }

  /** The message text for one pair of versions. */
  lemma MismatchedVersionExample()
    ensures MismatchedVersion("v2.0", "v2.1").message == "Tried to connect to v2.1 API with v2.0 Handler."
  {
  }

  /** `BaseReturnCodeException(message=..., response=...)` or one of its
      subclasses. The default message is bound when the base `__init__` is
      defined, from the base class's `_default_message`, which is None; the
      subclasses' own default strings never take its place. */
  function ReturnCode(kind: ReturnCodeKind, message: Option<string>, response: Option<Json>): (r: ApiError)
    ensures r.ReturnCodeError? && r.kind == kind && r.rcMessage == message && r.response == response
  {
    ReturnCodeError(kind, message, response)
  }

  /** The `_default_message` each of those classes declares. */
  function DeclaredDefault(kind: ReturnCodeKind): Option<string>
  {
    match kind
    case BaseReturnCode => None
    case Unauthorized => Some("API token required, but not provided (401)")
    case Forbidden => Some("Insufficient permissions (403)")
    case InternalApi => Some("Internal Server Error in the API (500)")
  }

  /** The message an exception gets when constructed without one. */
  const DefaultArgument: Option<string> := DeclaredDefault(BaseReturnCode)

  /** Constructed without a message, every kind carries None, though three of
      them declare a default text of their own; the response is stored as
      given. */
  lemma ReturnCodeDefaultIgnored(kind: ReturnCodeKind, response: Option<Json>)
    ensures ReturnCode(kind, DefaultArgument, response).rcMessage == None
    ensures ReturnCode(kind, DefaultArgument, response).response == response
    ensures kind != BaseReturnCode ==>
      (DeclaredDefault(kind).Some? && ReturnCode(kind, DefaultArgument, response).rcMessage != DeclaredDefault(kind))
  {
  }

  // ---------------------------------------------------------------------------
  // The class hierarchy
  // ---------------------------------------------------------------------------

  datatype ExcClass =
    | ExceptionClass
    | APIErrorClass
    | NotConnectedClass
    | MismatchedVersionClass
    | ReturnCodeClass(kind: ReturnCodeKind)

  /** The direct base class of each. */
  function Base(c: ExcClass): Option<ExcClass>
  {
    match c
    case ExceptionClass => None
    case ReturnCodeClass(k) => if k == BaseReturnCode then Some(ExceptionClass) else Some(ReturnCodeClass(BaseReturnCode))
    case _ => Some(ExceptionClass)
  }

  /** The depth of a class below Exception. */
  function Depth(c: ExcClass): nat
  {
    match c
    case ExceptionClass => 0
    case ReturnCodeClass(k) => if k == BaseReturnCode then 1 else 2
    case _ => 1
  }

  /** `issubclass(c, d)`: `d` is `c` or one of its bases. */
  predicate IsSubclass(c: ExcClass, d: ExcClass)
    decreases Depth(c)
  {
    c == d || (Base(c).Some? && Depth(Base(c).value) < Depth(c) && IsSubclass(Base(c).value, d))
  }

  /** The class an exception value is an instance of. */
  function ClassOf(e: ApiError): Option<ExcClass>
  {
    match e
    case APIError(_) => Some(APIErrorClass)
    case NotConnectedError(_) => Some(NotConnectedClass)
    case MismatchedVersionError(_) => Some(MismatchedVersionClass)
    case ReturnCodeError(k, _, _) => Some(ReturnCodeClass(k))
    case _ => None
  }

  /** Exactly three classes derive from BaseReturnCodeException, none of the
      API-layer exceptions derives from APIError, and all derive from
      Exception. */
  lemma Hierarchy(c: ExcClass)
    ensures IsSubclass(c, ExceptionClass)
    ensures c != ReturnCodeClass(BaseReturnCode) && IsSubclass(c, ReturnCodeClass(BaseReturnCode)) <==>
      c in {ReturnCodeClass(Unauthorized), ReturnCodeClass(Forbidden), ReturnCodeClass(InternalApi)}
    ensures IsSubclass(c, APIErrorClass) <==> c == APIErrorClass
  {
  }
}
