/** The search-query encoder (Modules/api/search.py): criteria are registered
    under a name with a json key, optional types and an optional sanitiser, and
    then a dict of criteria is turned into a nested query document.

    A criterion value is either a plain value or one of the Sequelize operator
    objects, which encode as `{"$op": ...}`. `NotIn` is declared without a
    `generate` and so cannot be instantiated; it has no counterpart here. */
module Search {
  import opened Values
  import opened Nested
  import opened TypeChecking

  // ---------------------------------------------------------------------------
  // Operators
  // ---------------------------------------------------------------------------

  /** The operator objects that can exist: `Not(v)`, `Contains(v)`, `In(*vs)`. */
  datatype Operator = Not(value: Json) | Contains(value: Json) | In(values: seq<Json>)

  /** A value given for a criterion. */
  datatype Criterion = Plain(value: Json) | Op(op: Operator)

  /** `_UnaryOp.generate`: `{op: value}`, the value sanitised when a sanitiser
      is given. */
  function UnaryGenerate(op: string, value: Json, sanitize: Option<Sanitizer>): (r: Result<Json, Exc>)
    ensures sanitize.None? ==> r == Ok(JObj(map[op := value]))
    ensures sanitize.Some? && sanitize.value(value).Ok? ==> r == Ok(JObj(map[op := sanitize.value(value).value]))
    ensures sanitize.Some? && sanitize.value(value).Err? ==> r == Err(sanitize.value(value).error)
  {
    match sanitize
    case None => Ok(JObj(map[op := value]))
    case Some(s) =>
      match s(value)
      case Ok(x) => Ok(JObj(map[op := x]))
      case Err(e) => Err(e)
  }

  /** `[sanitize(v) for v in values]`, stopping at the first failure. */
  function SanitizeAll(values: seq<Json>, s: Sanitizer): (r: Result<seq<Json>, Exc>)
    ensures r.Ok? ==> |r.value| == |values| && forall i :: 0 <= i < |values| ==> s(values[i]) == Ok(r.value[i])
    ensures r.Err? ==> (exists i :: 0 <= i < |values| && s(values[i]) == Err(r.error) &&
                                    forall j :: 0 <= j < i ==> s(values[j]).Ok?)
    ensures r.Ok? <==> forall i :: 0 <= i < |values| ==> s(values[i]).Ok?
    decreases |values|
  {
    if values == [] then Ok([])
    else
      match s(values[0])
      case Err(e) => Err(e)
      case Ok(x) =>
        var rest := SanitizeAll(values[1..], s);
        assert forall i :: 1 <= i < |values| ==> values[i] == values[1..][i - 1];
        match rest
        case Err(e) =>
          var k :| 0 <= k < |values[1..]| && s(values[1..][k]) == Err(e) &&
            forall j :: 0 <= j < k ==> s(values[1..][j]).Ok?;
          assert s(values[k + 1]) == Err(e);
          Err(e)
        case Ok(xs) => Ok([x] + xs)
  }

  /** `_SequenceOperator.generate`: `{op: [values...]}` in argument order, each
      sanitised when a sanitiser is given. */
  function SequenceGenerate(op: string, values: seq<Json>, sanitize: Option<Sanitizer>): (r: Result<Json, Exc>)
    ensures sanitize.None? ==> r == Ok(JObj(map[op := JList(values)]))
    ensures sanitize.Some? && r.Ok? ==>
      (exists xs :: r == Ok(JObj(map[op := JList(xs)])) &&
                    |xs| == |values| && forall i :: 0 <= i < |values| ==> sanitize.value(values[i]) == Ok(xs[i]))
    ensures sanitize.Some? ==> (r.Ok? <==> forall i :: 0 <= i < |values| ==> sanitize.value(values[i]).Ok?)
  {
    match sanitize
    case None => Ok(JObj(map[op := JList(values)]))
    case Some(s) =>
      match SanitizeAll(values, s)
      case Ok(xs) => Ok(JObj(map[op := JList(xs)]))
      case Err(e) => Err(e)
  }

  /** `generate` of an operator object. */
  function Generate(o: Operator, sanitize: Option<Sanitizer>): (r: Result<Json, Exc>)
    ensures sanitize.None? ==> r.Ok?
    ensures r.Ok? ==> (r.value.JObj? &&
      r.value.fields.Keys == {match o case Not(_) => "$not" case Contains(_) => "$contains" case In(_) => "$in"})
  {
    match o
    case Not(v) => UnaryGenerate("$not", v, sanitize)
    case Contains(v) => UnaryGenerate("$contains", v, sanitize)
    case In(vs) => SequenceGenerate("$in", vs, sanitize)
  }

  /** The three operators differ only in their marker. */
  lemma OperatorMarkers(v: Json, vs: seq<Json>)
    ensures Generate(Not(v), None) == Ok(JObj(map["$not" := v]))
    ensures Generate(Contains(v), None) == Ok(JObj(map["$contains" := v]))
    ensures Generate(In(vs), None) == Ok(JObj(map["$in" := JList(vs)]))
  {
  }

  // ---------------------------------------------------------------------------
  // The registry
  // ---------------------------------------------------------------------------

  /** The `types` argument of `add`: none, a single type, or a sequence of them. */
  datatype TypesArg = NoTypes | OneType(t: TypeTag) | TypeSeq(ts: seq<TypeTag>)

  /** What `add` stores for a criterion name. */
  datatype Registration = Registration(jsonKey: string, types: Option<seq<TypeTag>>, sanitize: Option<Sanitizer>)

  /** The types `add` registers: a single type becomes a one-element tuple and
      `nullable` appends NoneType; a nullable criterion without types fails
      with TypeError (None cannot be unpacked). */
  function RegisteredTypes(types: TypesArg, nullable: bool): (r: Result<Option<seq<TypeTag>>, Exc>)
    ensures r.Err? <==> nullable && types.NoTypes?
    ensures r.Err? ==> r.error == TypeError
    ensures r.Ok? && types.NoTypes? ==> r.value.None?
    ensures r.Ok? && !types.NoTypes? ==>
      (r.value.Some? &&
       r.value.value == (if types.OneType? then [types.t] else types.ts) + (if nullable then [NoneType] else []))
  {
    var given := match types
      case NoTypes => None
      case OneType(t) => Some([t])
      case TypeSeq(ts) => Some(ts);
    if !nullable then Ok(given)
    else if given.None? then Err(TypeError)
    else Ok(Some(given.value + [NoneType]))
  }

  class Search {
    var criteria: map<string, Registration>

    constructor ()
      ensures criteria == map[]
    {
      criteria := map[];
    }

    /** `add`: registers (or re-registers, replacing the earlier entry) a
        criterion name. */
    method Add(criterion: string, jsonKey: string, types: TypesArg, sanitize: Option<Sanitizer>, nullable: bool)
      returns (r: Outcome<Exc>)
      modifies this
      ensures RegisteredTypes(types, nullable).Err? ==>
        r == Fail(TypeError) && criteria == old(criteria)
      ensures RegisteredTypes(types, nullable).Ok? ==>
        (r == Pass &&
         criteria == old(criteria)[criterion := Registration(jsonKey, RegisteredTypes(types, nullable).value, sanitize)])
    {
      var ts := RegisteredTypes(types, nullable);
      if ts.Err? {
        return Fail(ts.error);
      }
      criteria := criteria[criterion := Registration(jsonKey, ts.value, sanitize)];
      return Pass;
    }

    /** `generate`: the query document for `given` (in the dict's order). */
    method GenerateQuery(given: seq<(string, Criterion)>, isInstance: (Criterion, TypeTag) -> bool, typeOf: Criterion -> TypeTag)
      returns (r: Result<map<string, Json>, Exc>)
      ensures r == Query(criteria, given, isInstance, typeOf)
    {
      var result := new Dict(map[]);
      var i := 0;
      while i < |given|
        invariant 0 <= i <= |given|
        invariant Query(criteria, given[..i], isInstance, typeOf) == Ok(result.entries)
      {
        var (key, value) := given[i];
        assert given[..i + 1][..i] == given[..i];
        if key !in criteria {
          QueryErrSticky(criteria, given, i + 1, isInstance, typeOf);
          return Err(KeyError(key));
        }
        var reg := criteria[key];
        var checked := Checked(reg, value, isInstance, typeOf);
        if checked.Fail? {
          QueryErrSticky(criteria, given, i + 1, isInstance, typeOf);
          return Err(checked.error);
        }
        var encoded := Encode(reg, value);
        if encoded.Err? {
          QueryErrSticky(criteria, given, i + 1, isInstance, typeOf);
          return Err(encoded.error);
        }
        var outcome := SetNested(result, reg.jsonKey, encoded.value);
        if outcome.Fail? {
          QueryErrSticky(criteria, given, i + 1, isInstance, typeOf);
          return Err(outcome.error);
        }
        i := i + 1;
      }
      assert given[..i] == given;
      return Ok(result.entries);
    }
  }

  /** The type check of one value: skipped without registered types; an empty
      types tuple fails like `check_type()` with no type (TypeError). */
  function Checked(reg: Registration, value: Criterion, isInstance: (Criterion, TypeTag) -> bool, typeOf: Criterion -> TypeTag): (r: Outcome<Exc>)
    ensures reg.types.None? ==> r == Pass
    ensures reg.types.Some? && reg.types.value != [] ==>
      (r == Pass <==> exists t :: t in reg.types.value && isInstance(value, t))
    ensures r.Fail? && reg.types.Some? && reg.types.value != [] ==>
      r.error == TypeMismatch(MismatchMessage(reg.types.value, typeOf(value)))
  {
    match reg.types
    case None => Pass
    case Some(ts) =>
      if ts == [] then Fail(TypeError)
      else
        assert [ts[0]] + ts[1..] == ts;
        match CheckType(value, ts[0], ts[1..], isInstance, typeOf)
        case None => Pass
        case Some(msg) => Fail(TypeMismatch(msg))
  }

  /** What is written for one value: an operator's `generate(sanitize)`, else
      the value, sanitised when a sanitiser is registered. */
  function Encode(reg: Registration, value: Criterion): Result<Json, Exc>
  {
    match value
    case Op(o) => Generate(o, reg.sanitize)
    case Plain(v) => if reg.sanitize.None? then Ok(v) else reg.sanitize.value(v)
  }

  /** The query built from the registry `regs` for the criteria `given`: for
      each, the registration is looked up (KeyError when missing), the value
      type-checked, encoded and written at the json key with set_nested. */
  function Query(regs: map<string, Registration>, given: seq<(string, Criterion)>,
                 isInstance: (Criterion, TypeTag) -> bool, typeOf: Criterion -> TypeTag): (r: Result<map<string, Json>, Exc>)
    decreases |given|
  {
    if given == [] then Ok(map[])
    else
      match Query(regs, given[..|given| - 1], isInstance, typeOf)
      case Err(e) => Err(e)
      case Ok(m) => QueryStep(m, regs, given[|given| - 1], isInstance, typeOf)
  }

  /** One iteration of generate's loop. */
  function QueryStep(m: map<string, Json>, regs: map<string, Registration>, c: (string, Criterion),
                     isInstance: (Criterion, TypeTag) -> bool, typeOf: Criterion -> TypeTag): Result<map<string, Json>, Exc>
  {
    if c.0 !in regs then Err(KeyError(c.0))
    else
      var reg := regs[c.0];
      match Checked(reg, c.1, isInstance, typeOf)
      case Fail(e) => Err(e)
      case Pass =>
        match Encode(reg, c.1)
        case Err(e) => Err(e)
        case Ok(x) => SetPath(m, Split(reg.jsonKey), x)
  }

  lemma {:induction false} QueryErrSticky(regs: map<string, Registration>, given: seq<(string, Criterion)>, i: nat,
                                          isInstance: (Criterion, TypeTag) -> bool, typeOf: Criterion -> TypeTag)
    requires i <= |given| && Query(regs, given[..i], isInstance, typeOf).Err?
    ensures Query(regs, given, isInstance, typeOf) == Query(regs, given[..i], isInstance, typeOf)
    decreases |given| - i
  {
    if i < |given| {
      assert given[..i + 1][..i] == given[..i];
      QueryErrSticky(regs, given, i + 1, isInstance, typeOf);
    } else {
      assert given[..i] == given;
    }
  }

  /** An unregistered criterion makes generate fail, whatever else is given. */
  lemma QueryUnregisteredFails(regs: map<string, Registration>, given: seq<(string, Criterion)>, i: nat,
                               isInstance: (Criterion, TypeTag) -> bool, typeOf: Criterion -> TypeTag)
    requires i < |given| && given[i].0 !in regs
    ensures Query(regs, given, isInstance, typeOf).Err?
    ensures Query(regs, given[..i], isInstance, typeOf).Ok? ==>
      Query(regs, given, isInstance, typeOf) == Err(KeyError(given[i].0))
  {
    assert given[..i + 1][..i] == given[..i];
    QueryErrSticky(regs, given, i + 1, isInstance, typeOf);
  }

  /** A value matching none of its criterion's types is rejected with the
      check_type message and nothing is returned. */
  lemma QueryTypeMismatch(regs: map<string, Registration>, given: seq<(string, Criterion)>, i: nat,
                          isInstance: (Criterion, TypeTag) -> bool, typeOf: Criterion -> TypeTag)
    requires i < |given| && given[i].0 in regs
    requires regs[given[i].0].types.Some? && regs[given[i].0].types.value != []
    requires forall t :: t in regs[given[i].0].types.value ==> !isInstance(given[i].1, t)
    ensures Query(regs, given, isInstance, typeOf).Err?
    ensures Query(regs, given[..i], isInstance, typeOf).Ok? ==>
      Query(regs, given, isInstance, typeOf) ==
        Err(TypeMismatch(MismatchMessage(regs[given[i].0].types.value, typeOf(given[i].1))))
  {
    assert given[..i + 1][..i] == given[..i];
    QueryErrSticky(regs, given, i + 1, isInstance, typeOf);
  }

  /** After a successful step the encoded value sits at the criterion's json
      key; other paths are as before. */
  lemma QueryWritesAtJsonKey(regs: map<string, Registration>, given: seq<(string, Criterion)>, key: string, value: Criterion,
                             isInstance: (Criterion, TypeTag) -> bool, typeOf: Criterion -> TypeTag)
    requires Query(regs, given + [(key, value)], isInstance, typeOf).Ok?
    ensures key in regs && Encode(regs[key], value).Ok?
    ensures GetPath(JObj(Query(regs, given + [(key, value)], isInstance, typeOf).value), Split(regs[key].jsonKey)) ==
      Encode(regs[key], value)
    ensures forall p :: Diverges(p, Split(regs[key].jsonKey)) && GetPath(JObj(Query(regs, given, isInstance, typeOf).value), p).Ok? ==>
      GetPath(JObj(Query(regs, given + [(key, value)], isInstance, typeOf).value), p) ==
      GetPath(JObj(Query(regs, given, isInstance, typeOf).value), p)
  {
    var all := given + [(key, value)];
    assert all[..|given|] == given;
    var m := Query(regs, given, isInstance, typeOf).value;
    var x := Encode(regs[key], value).value;
    GetAfterSet(m, Split(regs[key].jsonKey), x);
    forall p | Diverges(p, Split(regs[key].jsonKey)) && GetPath(JObj(m), p).Ok?
      ensures GetPath(JObj(SetPath(m, Split(regs[key].jsonKey), x).value), p) == GetPath(JObj(m), p)
    {
      SetLeavesOtherPaths(m, Split(regs[key].jsonKey), x, p);
    }
  }

  /** A nullable criterion registered with a type accepts None (when None is
      an instance of NoneType) as well as values of that type. */
  lemma NullableAcceptsNone(t: TypeTag, isInstance: (Criterion, TypeTag) -> bool, typeOf: Criterion -> TypeTag,
                            jsonKey: string, sanitize: Option<Sanitizer>)
    requires isInstance(Plain(JNull), NoneType)
    ensures RegisteredTypes(OneType(t), true) == Ok(Some([t, NoneType]))
    ensures Checked(Registration(jsonKey, Some([t, NoneType]), sanitize), Plain(JNull), isInstance, typeOf) == Pass
  {
    assert [t] + [NoneType] == [t, NoneType];
    assert NoneType in [t, NoneType];
  }
}
