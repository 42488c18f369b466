/** `check_type` (utils/typechecking.py): does a value have one of the given
    types, and if not, the TypeError message naming them.

    Types are opaque tags carrying their `__name__`; `isinstance` and
    `type(value)` are supplied by the caller, since what a Python object is an
    instance of depends on class machinery outside this model. */
module TypeChecking {
  import opened Values

  /** A Python type, known by its `__name__`. */
  datatype TypeTag = TypeTag(name: string)

  /** `type(None)`. */
  const NoneType := TypeTag("NoneType")

  /** `", ".join(t.__name__ for t in ts)`. */
  function JoinNames(ts: seq<TypeTag>): string
    decreases |ts|
  {
    if ts == [] then ""
    else if |ts| == 1 then ts[0].name
    else ts[0].name + ", " + JoinNames(ts[1..])
  }

  /** The message of the TypeError raised for a value of type `actual` that
      has none of the types `ts`. */
  function MismatchMessage(ts: seq<TypeTag>, actual: TypeTag): string
  {
    "expected: " + JoinNames(ts) + ". actual: " + actual.name
  }

  /** check_type(value, type1, *more_types): None when `value` is an instance
      of at least one of the types, else the TypeError message. There is always
      at least the one type `type1`. */
  function CheckType<V>(value: V, type1: TypeTag, moreTypes: seq<TypeTag>,
                        isInstance: (V, TypeTag) -> bool, typeOf: V -> TypeTag): (r: Option<string>)
    ensures r.None? <==> exists t :: t in [type1] + moreTypes && isInstance(value, t)
    ensures r.Some? ==> r.value == MismatchMessage([type1] + moreTypes, typeOf(value))
  {
    if AnyInstance(value, [type1] + moreTypes, isInstance) then None
    else Some(MismatchMessage([type1] + moreTypes, typeOf(value)))
  }

  /** `any(isinstance(value, t) for t in ts)`. */
  function AnyInstance<V>(value: V, ts: seq<TypeTag>, isInstance: (V, TypeTag) -> bool): (r: bool)
    ensures r <==> exists t :: t in ts && isInstance(value, t)
    decreases |ts|
  {
    if ts == [] then false
    else
      var rest := AnyInstance(value, ts[1..], isInstance);
      assert forall t :: t in ts[1..] ==> t in ts;
      assert forall t :: t in ts ==> t == ts[0] || t in ts[1..];
      isInstance(value, ts[0]) || rest
  }

  /** The names appear in the order the types were given. */
  lemma {:induction false} JoinNamesAppend(ts: seq<TypeTag>, t: TypeTag)
    requires ts != []
    ensures JoinNames(ts + [t]) == JoinNames(ts) + ", " + t.name
    decreases |ts|
  {
    if |ts| == 1 {
      assert (ts + [t])[1..] == [t];
    } else {
      assert (ts + [t])[1..] == ts[1..] + [t];
      JoinNamesAppend(ts[1..], t);
    }
  }

  /** The documented example: 5 checked against str, dict, list. */
  lemma CheckTypeExample(isInstance: (int, TypeTag) -> bool, typeOf: int -> TypeTag)
    requires !isInstance(5, TypeTag("str")) && !isInstance(5, TypeTag("dict")) && !isInstance(5, TypeTag("list"))
    requires typeOf(5) == TypeTag("int")
    ensures CheckType(5, TypeTag("str"), [TypeTag("dict"), TypeTag("list")], isInstance, typeOf) ==
      Some("expected: str, dict, list. actual: int")
  {
    var ts := [TypeTag("str"), TypeTag("dict"), TypeTag("list")];
    assert [TypeTag("str")] + [TypeTag("dict"), TypeTag("list")] == ts;
    assert ts[1..] == [TypeTag("dict"), TypeTag("list")];
    assert ts[1..][1..] == [TypeTag("list")];
    assert JoinNames(ts[1..][1..]) == "list";
    assert JoinNames(ts[1..]) == "dict" + ", " + "list";
    assert JoinNames(ts) == "str" + ", " + ("dict" + ", " + "list");
    assert !AnyInstance(5, ts, isInstance) by {
      assert forall t :: t in ts ==> t == TypeTag("str") || t == TypeTag("dict") || t == TypeTag("list");
    }
    assert JoinNames(ts) == "str, dict, list";
    assert MismatchMessage(ts, TypeTag("int")) == "expected: str, dict, list. actual: int";
  }

  /** A value of the first listed type always passes. */
  lemma CheckTypePassesFirst<V>(value: V, type1: TypeTag, moreTypes: seq<TypeTag>,
                                isInstance: (V, TypeTag) -> bool, typeOf: V -> TypeTag)
    requires isInstance(value, type1)
    ensures CheckType(value, type1, moreTypes, isInstance, typeOf) == None
  {
    assert type1 in [type1] + moreTypes;
  }
}
