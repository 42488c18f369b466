/** The declarative converter between API documents and the bot's objects
    (Modules/api/converter.py).

    The module carries its own copies of `get_nested` and `set_nested`. Its
    `get_nested` is the same walk as utils/nested.py and is modelled by
    `Nested.GetPath`. Its `set_nested` differs: every intermediate segment is
    looked up with `setdefault` on the TOP-LEVEL dict rather than on the dict
    reached so far, so only the last intermediate segment decides where the
    value goes. */
module Converter {
  import opened Values
  import opened Nested

  // ---------------------------------------------------------------------------
  // The converter's own set_nested
  // ---------------------------------------------------------------------------

  /** What a call that updates a dict in place leaves behind: the dict as it
      then is, and whether the call raised. */
  datatype SetResult = SetResult(state: map<string, Json>, outcome: Outcome<Exc>)

  /** The segments of a path, as a set. */
  function Elems(ks: seq<string>): set<string>
  {
    set k | k in ks
  }

  /** `dest.setdefault(k, {})` for each `k` of `ks` in turn, all on `d`. */
  function Setdefaults(d: map<string, Json>, ks: seq<string>): (r: map<string, Json>)
    ensures r.Keys == d.Keys + Elems(ks)
    ensures forall k :: k in d ==> r[k] == d[k]
    ensures forall k :: k in r && k !in d ==> r[k] == JObj(map[])
    decreases |ks|
  {
    if ks == [] then d
    else
      var d' := Setdefaults(d, ks[..|ks| - 1]);
      var k := ks[|ks| - 1];
      assert Elems(ks) == Elems(ks[..|ks| - 1]) + {k} by {
        assert ks == ks[..|ks| - 1] + [k];
      }
      if k in d' then d' else d'[k := JObj(map[])]
  }

  /** set_nested as this module writes it. With one segment it is a plain
      assignment. With more, the setdefaults on the top-level dict all happen
      (and stay, even if the call then fails), and the value is assigned under
      the last segment into whatever the last intermediate segment names at the
      top level; a non-dict there fails with TypeError. */
  function ConverterSetPath(d: map<string, Json>, segs: seq<string>, v: Json): (r: SetResult)
    requires |segs| >= 1
    ensures r.outcome == Pass || r.outcome == Fail(TypeError)
  {
    var n := |segs|;
    if n == 1 then SetResult(d[segs[0] := v], Pass)
    else
      var d1 := Setdefaults(d, segs[..n - 1]);
      var k := segs[n - 2];
      assert k in segs[..n - 1];
      match d1[k]
      case JObj(m) => SetResult(d1[k := JObj(m[segs[n - 1] := v])], Pass)
      case _ => SetResult(d1, Fail(TypeError))
  }

  /** The top level only gains keys, keys off the path keep their values, and
      a failure leaves behind the setdefaults already made. */
  lemma ConverterSetPathFrame(d: map<string, Json>, segs: seq<string>, v: Json)
    requires |segs| >= 1
    ensures ConverterSetPath(d, segs, v).state.Keys >= d.Keys
    ensures forall k :: k in d && k !in Elems(segs) ==> ConverterSetPath(d, segs, v).state[k] == d[k]
    ensures ConverterSetPath(d, segs, v).outcome.Fail? ==>
      |segs| >= 2 && ConverterSetPath(d, segs, v).state == Setdefaults(d, segs[..|segs| - 1])
  {
    if |segs| >= 2 {
      assert Elems(segs[..|segs| - 1]) <= Elems(segs);
    }
  }

  /** The converter's set_nested(dest, key, value). `current` is tracked as the
      top-level key whose dict the final assignment goes into (none: `dest`
      itself). */
  method ConverterSetNested(dest: Dict, key: string, value: Json) returns (r: Outcome<Exc>)
    modifies dest
    ensures SetResult(dest.entries, r) == ConverterSetPath(old(dest.entries), Split(key), value)
  {
    r := SetdefaultsThenAssign(dest, Split(key), value);
  }

  /** The body of the converter's set_nested on the split key. */
  method SetdefaultsThenAssign(dest: Dict, keys: seq<string>, value: Json) returns (r: Outcome<Exc>)
    requires |keys| >= 1
    modifies dest
    ensures SetResult(dest.entries, r) == ConverterSetPath(old(dest.entries), keys, value)
  {
    var n := |keys|;
    var current: Option<string> := None;
    var i := 0;
    while i < n - 1
      invariant 0 <= i <= n - 1
      invariant dest.entries == Setdefaults(old(dest.entries), keys[..i])
      invariant i == 0 ==> current == None
      invariant i > 0 ==> current == Some(keys[i - 1])
    {
      assert keys[..i + 1][..i] == keys[..i];
      if keys[i] !in dest.entries {
        dest.entries := dest.entries[keys[i] := JObj(map[])];
      }
      current := Some(keys[i]);
      i := i + 1;
    }
    match current {
      case None =>
        dest.entries := dest.entries[keys[n - 1] := value];
        r := Pass;
      case Some(k) =>
        assert k in keys[..n - 1];
        match dest.entries[k] {
          case JObj(m) =>
            dest.entries := dest.entries[k := JObj(m[keys[n - 1] := value])];
            r := Pass;
          case _ =>
            r := Fail(TypeError);
        }
    }
  }

  /** For paths of one or two segments the converter's set_nested does exactly
      what utils/nested.py does, failures included. */
  lemma ConverterSetAgreesShort(d: map<string, Json>, segs: seq<string>, v: Json)
    requires 1 <= |segs| <= 2
    ensures SetPath(d, segs, v).Ok? ==> ConverterSetPath(d, segs, v) == SetResult(SetPath(d, segs, v).value, Pass)
    ensures SetPath(d, segs, v).Err? ==> ConverterSetPath(d, segs, v) == SetResult(d, Fail(SetPath(d, segs, v).error))
  {
    if |segs| == 2 {
      assert segs[..1] == [segs[0]] && segs[1..] == [segs[1]];
      assert Setdefaults(d, [segs[0]]) == (if segs[0] in d then d else d[segs[0] := JObj(map[])]) by {
        assert [segs[0]][..0] == [];
      }
    }
  }

  /** Hence get-after-set holds for such paths. */
  lemma ConverterGetAfterSetShort(d: map<string, Json>, key: string, v: Json)
    requires |Split(key)| <= 2
    requires ConverterSetPath(d, Split(key), v).outcome == Pass
    ensures GetPath(JObj(ConverterSetPath(d, Split(key), v).state), Split(key)) == Ok(v)
  {
    ConverterSetAgreesShort(d, Split(key), v);
    if SetPath(d, Split(key), v).Ok? {
      GetAfterSet(d, Split(key), v);
    }
  }

  /** In general the value ends up under the LAST TWO segments resolved from
      the top-level dict, whatever the earlier segments said. */
  lemma ConverterSetLandsAtLastTwo(d: map<string, Json>, segs: seq<string>, v: Json)
    requires |segs| >= 2
    requires ConverterSetPath(d, segs, v).outcome == Pass
    ensures GetPath(JObj(ConverterSetPath(d, segs, v).state), segs[|segs| - 2..]) == Ok(v)
  {
    var n := |segs|;
    var d1 := Setdefaults(d, segs[..n - 1]);
    assert segs[n - 2] in segs[..n - 1];
    var m := d1[segs[n - 2]].fields;
    assert ConverterSetPath(d, segs, v).state == d1[segs[n - 2] := JObj(m[segs[n - 1] := v])];
    var st := ConverterSetPath(d, segs, v).state;
    assert segs[n - 2..] == [segs[n - 2], segs[n - 1]];
    assert [segs[n - 2], segs[n - 1]][1..] == [segs[n - 1]];
    assert [segs[n - 1]][1..] == [];
    assert GetPath(JObj(m[segs[n - 1] := v]), [segs[n - 1]]) == Ok(v);
    assert st[segs[n - 2]] == JObj(m[segs[n - 1] := v]);
  }

  /** A successful call leaves at the top level exactly the old keys plus every
      intermediate segment (or, for a single segment, the key itself). */
  lemma ConverterSetTopKeys(d: map<string, Json>, segs: seq<string>, v: Json)
    requires |segs| >= 1
    ensures ConverterSetPath(d, segs, v).state.Keys ==
      d.Keys + (if |segs| == 1 then {segs[0]} else Elems(segs[..|segs| - 1]))
  {
    if |segs| > 1 {
      assert segs[|segs| - 2] in segs[..|segs| - 1];
    }
  }

  lemma SplitThreeSegments()
    ensures Split("a.b.c") == ["a", "b", "c"]
  {
    SplitJoin(["a", "b", "c"]);
    assert Join(["a", "b", "c"]) == "a.b.c";
  }

  lemma SetdefaultsTwo(d: map<string, Json>, a: string, b: string)
    requires a != b && a !in d && b !in d
    ensures Setdefaults(d, [a, b]) == d[a := JObj(map[])][b := JObj(map[])]
  {
    assert [a, b][..1] == [a];
    assert [a][..0] == [];
  }

  /** The discrepancy for three segments: setting "a.b.c" on an empty dict
      leaves {"a": {}, "b": {"c": v}}, and get_nested of "a.b.c" then fails. */
  lemma ConverterSetThreeSegments(v: Json)
    ensures ConverterSetPath(map[], Split("a.b.c"), v) ==
      SetResult(map["a" := JObj(map[]), "b" := JObj(map["c" := v])], Pass)
    ensures GetPath(JObj(ConverterSetPath(map[], Split("a.b.c"), v).state), Split("a.b.c")) == Err(KeyError("b"))
  {
    SplitThreeSegments();
    var segs := ["a", "b", "c"];
    assert segs[..2] == ["a", "b"];
    SetdefaultsTwo(map[], "a", "b");
    var s := map["a" := JObj(map[]), "b" := JObj(map["c" := v])];
    assert ConverterSetPath(map[], segs, v) == SetResult(s, Pass);
    assert segs[1..] == ["b", "c"];
    assert GetPath(JObj(s), segs) == GetPath(JObj(map[]), ["b", "c"]);
  }

  // ---------------------------------------------------------------------------
  // Fields
  // ---------------------------------------------------------------------------

  /** Where a field applies (MODEL_ONLY, JSON_ONLY, BOTH, NONE). */
  datatype Retention = ModelOnly | JsonOnly | Both | NoRetention

  predicate ToModel(r: Retention) { r == ModelOnly || r == Both }
  predicate ToWire(r: Retention) { r == JsonOnly || r == Both }

  /** A field's default: none given (`_NotSet`), a plain value (None
      included), or another field to read instead. */
  datatype Default = NotSet | Plain(value: Json) | Fallback(field: Field)

  /** One field declaration of a converter. The names stay unset until the
      converter class is created (see SetName). */
  datatype Field = Field(
    jsonPath: string,
    attrName: Option<string>,
    constructorArg: Option<string>,
    toObj: Option<Sanitizer>,
    toJson: Option<Sanitizer>,
    default: Default,
    retention: Retention)

  /** `__set_name__`: the declared name fills the attribute name and the
      constructor argument, each only if it was left unset. */
  function SetName(f: Field, name: string): (r: Field)
    ensures r.constructorArg.Some? && r.attrName.Some?
    ensures f.constructorArg.Some? ==> r.constructorArg == f.constructorArg
    ensures f.attrName.Some? ==> r.attrName == f.attrName
    ensures f.constructorArg.None? ==> r.constructorArg == Some(name)
    ensures f.attrName.None? ==> r.attrName == Some(name)
    ensures r.(constructorArg := f.constructorArg, attrName := f.attrName) == f
  {
    var f1 := if f.constructorArg.None? then f.(constructorArg := Some(name)) else f;
    if f1.attrName.None? then f1.(attrName := Some(name)) else f1
  }

  /** Naming a field a second time changes nothing. */
  lemma SetNameIdempotent(f: Field, a: string, b: string)
    ensures SetName(SetName(f, a), b) == SetName(f, a)
  {
  }

  /** The result is a KeyError. */
  predicate IsKeyError(r: Result<Json, Exc>)
  {
    r.Err? && r.error.KeyError?
  }

  /** The last default in the chain of fallback fields. */
  function ChainEnd(f: Field): Default
    decreases f
  {
    match f.default
    case Fallback(g) => ChainEnd(g)
    case d => d
  }

  /** The `try` block of `from_json`: the value at the field's path, passed
      through `to_obj` when there is one. */
  function ReadField(f: Field, json: map<string, Json>): Result<Json, Exc>
  {
    match GetPath(JObj(json), Split(f.jsonPath))
    case Err(e) => Err(e)
    case Ok(x) => if f.toObj.None? then Ok(x) else f.toObj.value(x)
  }

  /** The `except KeyError` branch of `from_json`: a fallback field is read
      instead, a plain default is returned as it is, and without a default a
      KeyError naming the path is raised. */
  function DefaultFor(f: Field, json: map<string, Json>): Result<Json, Exc>
    decreases f, 0
  {
    match f.default
    case Fallback(g) => FromJson(g, json)
    case Plain(v) => Ok(v)
    case NotSet => Err(KeyError(f.jsonPath + " not found in provided json dict"))
  }

  /** `from_json`: a KeyError from the path lookup or from `to_obj` selects
      the default; any other result of the `try` block is returned
      unchanged. */
  function FromJson(f: Field, json: map<string, Json>): (r: Result<Json, Exc>)
    ensures !IsKeyError(ReadField(f, json)) ==> r == ReadField(f, json)
    ensures IsKeyError(ReadField(f, json)) ==> r == DefaultFor(f, json)
    decreases f, 1
  {
    var attempt := ReadField(f, json);
    if IsKeyError(attempt) then DefaultFor(f, json) else attempt
  }

  /** The cases of `from_json` by where the value comes from: the value at
      the path without `to_obj`; what `to_obj` returns unless it is a
      KeyError; the default when the lookup or `to_obj` raised KeyError. */
  lemma FromJsonCases(f: Field, json: map<string, Json>)
    ensures GetPath(JObj(json), Split(f.jsonPath)).Ok? && f.toObj.None? ==>
      FromJson(f, json) == GetPath(JObj(json), Split(f.jsonPath))
    ensures (GetPath(JObj(json), Split(f.jsonPath)).Ok? && f.toObj.Some? &&
      !IsKeyError(f.toObj.value(GetPath(JObj(json), Split(f.jsonPath)).value))) ==>
      FromJson(f, json) == f.toObj.value(GetPath(JObj(json), Split(f.jsonPath)).value)
    ensures (GetPath(JObj(json), Split(f.jsonPath)).Ok? && f.toObj.Some? &&
      IsKeyError(f.toObj.value(GetPath(JObj(json), Split(f.jsonPath)).value))) ==>
      FromJson(f, json) == DefaultFor(f, json)
    ensures IsKeyError(GetPath(JObj(json), Split(f.jsonPath))) ==> FromJson(f, json) == DefaultFor(f, json)
    ensures GetPath(JObj(json), Split(f.jsonPath)).Err? && !IsKeyError(GetPath(JObj(json), Split(f.jsonPath))) ==>
      FromJson(f, json) == GetPath(JObj(json), Split(f.jsonPath))
  {
  }

  /** A fallback chain that ends in a plain default never lets a KeyError out. */
  lemma {:induction false} FromJsonPlainChainNoKeyError(f: Field, json: map<string, Json>)
    requires ChainEnd(f).Plain?
    ensures !IsKeyError(FromJson(f, json))
    decreases f
  {
    if f.default.Fallback? {
      FromJsonPlainChainNoKeyError(f.default.field, json);
    }
  }

  /** Any KeyError that does escape is the "not found" error of a field in the
      chain that has no default. */
  lemma {:induction false} FromJsonKeyErrorFromChain(f: Field, json: map<string, Json>)
    requires IsKeyError(FromJson(f, json))
    ensures ChainEnd(f).NotSet?
    ensures exists p :: FromJson(f, json) == Err(KeyError(p + " not found in provided json dict"))
    decreases f
  {
    if f.default.Fallback? {
      var g := f.default.field;
      var got := GetPath(JObj(json), Split(f.jsonPath));
      if IsKeyError(got) {
        FromJsonKeyErrorFromChain(g, json);
      } else if got.Ok? && f.toObj.Some? && IsKeyError(f.toObj.value(got.value)) {
        FromJsonKeyErrorFromChain(g, json);
      } else {
        assert false;
      }
    } else if f.default.Plain? {
      FromJsonPlainChainNoKeyError(f, json);
    } else {
      var got := GetPath(JObj(json), Split(f.jsonPath));
      if !IsKeyError(got) && !(got.Ok? && f.toObj.Some? && IsKeyError(f.toObj.value(got.value))) {
        assert false;
      }
    }
  }

  /** `from_model`: the attribute itself when there is no `to_json`.
      When `to_json` is set the value goes through `to_obj` instead (calling a
      missing `to_obj` raises TypeError). A missing attribute, or an
      AttributeError from the sanitiser, raises KeyError. `obj` holds the
      object's attributes by name. */
  function FromModel(f: Field, obj: map<string, Json>): (r: Result<Json, Exc>)
    ensures f.attrName.Some? && f.attrName.value !in obj ==>
      r == Err(KeyError("provided object does not have attribute " + f.attrName.value))
    ensures f.attrName.Some? && f.attrName.value in obj && f.toJson.None? ==> r == Ok(obj[f.attrName.value])
  {
    match f.attrName
    case None => Err(TypeError)
    case Some(name) =>
      var attempt: Result<Json, Exc> :=
        if name !in obj then Err(AttributeError)
        else if f.toJson.None? then Ok(obj[name])
        else if f.toObj.None? then Err(TypeError)
        else f.toObj.value(obj[name]);
      if attempt == Err(AttributeError) then Err(KeyError("provided object does not have attribute " + name))
      else attempt
  }

  /** `from_search_criteria`: the value itself, or `to_json` applied to it. */
  function FromSearchCriteria(f: Field, value: Json): (r: Result<Json, Exc>)
    ensures f.toJson.None? ==> r == Ok(value)
  {
    if f.toJson.None? then Ok(value) else f.toJson.value(value)
  }

  /** Which `to_json` a field has never matters to from_model, only whether it
      has one: the value always goes through `to_obj`. */
  lemma FromModelIgnoresToJson(f: Field, obj: map<string, Json>, g1: Sanitizer, g2: Sanitizer)
    ensures FromModel(f.(toJson := Some(g1)), obj) == FromModel(f.(toJson := Some(g2)), obj)
    ensures (f.attrName.Some? && f.attrName.value in obj && f.toObj.Some? &&
      f.toObj.value(obj[f.attrName.value]) != Err(AttributeError)) ==>
      FromModel(f.(toJson := Some(g1)), obj) == f.toObj.value(obj[f.attrName.value])
  {
  }

  /** So one field can turn the same attribute value into different things on
      its way to a document and on its way into search criteria. */
  lemma SanitiserRulesDiffer()
    ensures
      var f := Field("a", Some("a"), Some("a"), Some((x: Json) => Ok(JInt(1))), Some((x: Json) => Ok(JInt(2))), NotSet, Both);
      FromModel(f, map["a" := JNull]) == Ok(JInt(1)) && FromSearchCriteria(f, JNull) == Ok(JInt(2))
  {
  }

  // ---------------------------------------------------------------------------
  // Converters
  // ---------------------------------------------------------------------------

  /** Every field has its names, as it does once the converter class exists. */
  predicate Named(fields: seq<Field>)
  {
    forall i :: 0 <= i < |fields| ==> fields[i].constructorArg.Some? && fields[i].attrName.Some?
  }

  /** `_fields`: a converter class's field declarations in declaration order,
      each named by `__set_name__` with the name it was declared under. */
  function Fields(decls: seq<(string, Field)>): (r: seq<Field>)
    ensures |r| == |decls| && Named(r)
    ensures forall i :: 0 <= i < |decls| ==> r[i] == SetName(decls[i].1, decls[i].0)
    decreases |decls|
  {
    if decls == [] then []
    else [SetName(decls[0].1, decls[0].0)] + Fields(decls[1..])
  }

  /** `_field_for_arg`: the first field with the given constructor argument;
      ValueError(arg) when there is none. */
  function FieldForArg(fields: seq<Field>, arg: string): (r: Result<Field, Exc>)
    ensures r.Ok? <==> exists i :: 0 <= i < |fields| && fields[i].constructorArg == Some(arg)
    ensures r.Ok? ==> (exists i :: 0 <= i < |fields| && fields[i] == r.value &&
                               fields[i].constructorArg == Some(arg) &&
                               (forall j :: 0 <= j < i ==> fields[j].constructorArg != Some(arg)))
    ensures r.Err? ==> r.error == ValueError(arg)
    decreases |fields|
  {
    if fields == [] then Err(ValueError(arg))
    else if fields[0].constructorArg == Some(arg) then Ok(fields[0])
    else
      var r := FieldForArg(fields[1..], arg);
      assert forall i :: 1 <= i < |fields| ==> fields[i] == fields[1..][i - 1];
      r
  }

  // --- to_obj ---------------------------------------------------------------

  /** The constructor arguments gathered from `fields` in order: fields that
      apply to the model are read with from_json, a None result is left out,
      and a later field with the same argument overwrites an earlier one. */
  function ConstructorArgs(fields: seq<Field>, json: map<string, Json>): Result<map<string, Json>, Exc>
    requires Named(fields)
    decreases |fields|
  {
    if fields == [] then Ok(map[])
    else
      match ConstructorArgs(fields[..|fields| - 1], json)
      case Err(e) => Err(e)
      case Ok(m) => ArgStep(m, fields[|fields| - 1], json)
  }

  /** One iteration of to_obj's loop. */
  function ArgStep(m: map<string, Json>, f: Field, json: map<string, Json>): Result<map<string, Json>, Exc>
    requires f.constructorArg.Some?
  {
    if !ToModel(f.retention) then Ok(m)
    else
      match FromJson(f, json)
      case Err(e) => Err(e)
      case Ok(x) => if x.JNull? then Ok(m) else Ok(m[f.constructorArg.value := x])
  }

  /** Once the gathering has failed, later fields do not matter. */
  lemma {:induction false} ConstructorArgsErrSticky(fields: seq<Field>, i: nat, json: map<string, Json>)
    requires Named(fields) && i <= |fields|
    requires ConstructorArgs(fields[..i], json).Err?
    ensures ConstructorArgs(fields, json) == ConstructorArgs(fields[..i], json)
    decreases |fields| - i
  {
    if i < |fields| {
      assert fields[..i + 1][..i] == fields[..i];
      ConstructorArgsErrSticky(fields, i + 1, json);
    } else {
      assert fields[..i] == fields;
    }
  }

  /** No gathered argument is None: a None result leaves its argument out. */
  lemma {:induction false} ConstructorArgsNoNone(fields: seq<Field>, json: map<string, Json>)
    requires Named(fields)
    ensures ConstructorArgs(fields, json).Ok? ==>
      forall k :: k in ConstructorArgs(fields, json).value ==> !ConstructorArgs(fields, json).value[k].JNull?
    decreases |fields|
  {
    if fields != [] {
      ConstructorArgsNoNone(fields[..|fields| - 1], json);
    }
  }

  /** Without fields that apply to the model there are no arguments. */
  lemma {:induction false} ConstructorArgsNoModelFields(fields: seq<Field>, json: map<string, Json>)
    requires Named(fields)
    requires forall i :: 0 <= i < |fields| ==> !ToModel(fields[i].retention)
    ensures ConstructorArgs(fields, json) == Ok(map[])
    decreases |fields|
  {
    if fields != [] {
      var pre := fields[..|fields| - 1];
      assert forall i :: 0 <= i < |pre| ==> pre[i] == fields[i];
      ConstructorArgsNoModelFields(pre, json);
    }
  }

  /** `to_obj`: the keyword arguments the target class is constructed with. */
  method ToObj(decls: seq<(string, Field)>, json: map<string, Json>) returns (r: Result<map<string, Json>, Exc>)
    ensures r == ConstructorArgs(Fields(decls), json)
  {
    var fields := Fields(decls);
    var args: map<string, Json> := map[];
    var i := 0;
    while i < |fields|
      invariant 0 <= i <= |fields|
      invariant ConstructorArgs(fields[..i], json) == Ok(args)
    {
      var f := fields[i];
      assert fields[..i + 1][..i] == fields[..i];
      assert ConstructorArgs(fields[..i + 1], json) == ArgStep(args, f, json);
      if ToModel(f.retention) {
        var result := FromJson(f, json);
        if result.Err? {
          ConstructorArgsErrSticky(fields, i + 1, json);
          return Err(result.error);
        }
        if !result.value.JNull? {
          args := args[f.constructorArg.value := result.value];
        }
      }
      i := i + 1;
    }
    assert fields[..i] == fields;
    return Ok(args);
  }

  /** Field `f` supplies constructor argument `k` from `json`. */
  predicate SuppliesArg(f: Field, json: map<string, Json>, k: string)
  {
    ToModel(f.retention) && f.constructorArg == Some(k) &&
    FromJson(f, json).Ok? && !FromJson(f, json).value.JNull?
  }

  /** A successful to_obj has an argument exactly for the names some field
      supplies, and each holds what the LAST field supplying it read. */
  lemma ConstructorArgsKeys(fields: seq<Field>, json: map<string, Json>, k: string)
    requires Named(fields) && ConstructorArgs(fields, json).Ok?
    ensures k in ConstructorArgs(fields, json).value <==>
      exists i :: 0 <= i < |fields| && SuppliesArg(fields[i], json, k)
    ensures forall i :: (0 <= i < |fields| && SuppliesArg(fields[i], json, k) &&
      (forall j :: i < j < |fields| ==> !SuppliesArg(fields[j], json, k))) ==>
      ConstructorArgs(fields, json).value[k] == FromJson(fields[i], json).value
  {
    ConstructorArgsKeySet(fields, json, k);
    forall i | 0 <= i < |fields| && SuppliesArg(fields[i], json, k) &&
               (forall j :: i < j < |fields| ==> !SuppliesArg(fields[j], json, k))
      ensures ConstructorArgs(fields, json).value[k] == FromJson(fields[i], json).value
    {
      ConstructorArgsLastWins(fields, json, k, i);
    }
  }

  /** The names a successful to_obj has arguments for. */
  lemma {:induction false} ConstructorArgsKeySet(fields: seq<Field>, json: map<string, Json>, k: string)
    requires Named(fields) && ConstructorArgs(fields, json).Ok?
    ensures k in ConstructorArgs(fields, json).value <==>
      exists i :: 0 <= i < |fields| && SuppliesArg(fields[i], json, k)
    decreases |fields|
  {
    if fields != [] {
      var n := |fields|;
      var pre := fields[..n - 1];
      assert forall i :: 0 <= i < n - 1 ==> pre[i] == fields[i];
      assert Named(pre);
      ConstructorArgsKeySet(pre, json, k);
      ArgStepKeys(ConstructorArgs(pre, json).value, fields[n - 1], json, k);
      if SuppliesArg(fields[n - 1], json, k) {
        assert k in ConstructorArgs(fields, json).value;
      }
    }
  }

  /** The argument for `k` holds what the last field supplying it read. */
  lemma {:induction false} ConstructorArgsLastWins(fields: seq<Field>, json: map<string, Json>, k: string, i: nat)
    requires Named(fields) && ConstructorArgs(fields, json).Ok?
    requires i < |fields| && SuppliesArg(fields[i], json, k)
    requires forall j :: i < j < |fields| ==> !SuppliesArg(fields[j], json, k)
    ensures k in ConstructorArgs(fields, json).value
    ensures ConstructorArgs(fields, json).value[k] == FromJson(fields[i], json).value
    decreases |fields|
  {
    var n := |fields|;
    var pre := fields[..n - 1];
    assert forall j :: 0 <= j < n - 1 ==> pre[j] == fields[j];
    assert Named(pre);
    ArgStepKeys(ConstructorArgs(pre, json).value, fields[n - 1], json, k);
    if i < n - 1 {
      assert !SuppliesArg(fields[n - 1], json, k);
      ConstructorArgsLastWins(pre, json, k, i);
    }
  }

  /** One iteration of to_obj's loop adds or overwrites only what the field
      supplies. */
  lemma ArgStepKeys(m: map<string, Json>, f: Field, json: map<string, Json>, k: string)
    requires f.constructorArg.Some? && ArgStep(m, f, json).Ok?
    ensures k in ArgStep(m, f, json).value <==> k in m || SuppliesArg(f, json, k)
    ensures SuppliesArg(f, json, k) ==> ArgStep(m, f, json).value[k] == FromJson(f, json).value
    ensures !SuppliesArg(f, json, k) && k in m ==> ArgStep(m, f, json).value[k] == m[k]
  {
  }

  /** Fields that do not apply to the model are never read by to_obj. */
  function ModelFields(fields: seq<Field>): (r: seq<Field>)
    requires Named(fields)
    ensures Named(r)
    ensures forall i :: 0 <= i < |r| ==> ToModel(r[i].retention)
    decreases |fields|
  {
    if fields == [] then []
    else
      var pre := ModelFields(fields[..|fields| - 1]);
      if ToModel(fields[|fields| - 1].retention) then pre + [fields[|fields| - 1]] else pre
  }

  lemma {:induction false} ToObjOnlyModelFields(fields: seq<Field>, json: map<string, Json>)
    requires Named(fields)
    ensures ConstructorArgs(fields, json) == ConstructorArgs(ModelFields(fields), json)
    decreases |fields|
  {
    if fields != [] {
      var n := |fields|;
      ToObjOnlyModelFields(fields[..n - 1], json);
      var pre := ModelFields(fields[..n - 1]);
      if ToModel(fields[n - 1].retention) {
        assert (pre + [fields[n - 1]])[..|pre|] == pre;
      }
    }
  }

  // --- to_json --------------------------------------------------------------

  /** The document built from `obj`: fields that apply to the wire are read
      with from_model, None results are skipped, and the others are written at
      their json path with the converter's set_nested. */
  function ModelToJson(fields: seq<Field>, obj: map<string, Json>): Result<map<string, Json>, Exc>
    decreases |fields|
  {
    if fields == [] then Ok(map[])
    else
      match ModelToJson(fields[..|fields| - 1], obj)
      case Err(e) => Err(e)
      case Ok(m) => JsonStep(m, fields[|fields| - 1], obj)
  }

  /** Without fields that apply to the wire the document is empty. */
  lemma {:induction false} ModelToJsonNoWireFields(fields: seq<Field>, obj: map<string, Json>)
    requires forall i :: 0 <= i < |fields| ==> !ToWire(fields[i].retention)
    ensures ModelToJson(fields, obj) == Ok(map[])
    decreases |fields|
  {
    if fields != [] {
      var pre := fields[..|fields| - 1];
      assert forall i :: 0 <= i < |pre| ==> pre[i] == fields[i];
      ModelToJsonNoWireFields(pre, obj);
    }
  }

  /** One iteration of to_json's loop. */
  function JsonStep(m: map<string, Json>, f: Field, obj: map<string, Json>): Result<map<string, Json>, Exc>
  {
    if !ToWire(f.retention) then Ok(m)
    else
      match FromModel(f, obj)
      case Err(e) => Err(e)
      case Ok(x) => if x.JNull? then Ok(m) else Written(ConverterSetPath(m, Split(f.jsonPath), x))
  }

  /** The dict a set_nested call left, or the error it raised. */
  function Written(s: SetResult): Result<map<string, Json>, Exc>
  {
    if s.outcome.Fail? then Err(s.outcome.error) else Ok(s.state)
  }

  lemma {:induction false} ModelToJsonErrSticky(fields: seq<Field>, i: nat, obj: map<string, Json>)
    requires i <= |fields| && ModelToJson(fields[..i], obj).Err?
    ensures ModelToJson(fields, obj) == ModelToJson(fields[..i], obj)
    decreases |fields| - i
  {
    if i < |fields| {
      assert fields[..i + 1][..i] == fields[..i];
      ModelToJsonErrSticky(fields, i + 1, obj);
    } else {
      assert fields[..i] == fields;
    }
  }

  /** `to_json`. */
  method ToJson(decls: seq<(string, Field)>, obj: map<string, Json>) returns (r: Result<map<string, Json>, Exc>)
    ensures r == ModelToJson(Fields(decls), obj)
  {
    var fields := Fields(decls);
    var json := new Dict(map[]);
    var i := 0;
    while i < |fields|
      invariant 0 <= i <= |fields|
      invariant ModelToJson(fields[..i], obj) == Ok(json.entries)
    {
      var f := fields[i];
      ModelToJsonPrefix(fields, i, obj);
      ghost var before := json.entries;
      var failure: Option<Exc> := None;
      if ToWire(f.retention) {
        var result := FromModel(f, obj);
        if result.Err? {
          failure := Some(result.error);
        } else if !result.value.JNull? {
          var outcome := ConverterSetNested(json, f.jsonPath, result.value);
          if outcome.Fail? {
            failure := Some(outcome.error);
          }
        }
      }
      if failure.Some? {
        assert JsonStep(before, f, obj) == Err(failure.value);
        ModelToJsonErrSticky(fields, i + 1, obj);
        return Err(failure.value);
      }
      assert JsonStep(before, f, obj) == Ok(json.entries);
      i := i + 1;
    }
    assert fields[..i] == fields;
    return Ok(json.entries);
  }

  lemma ModelToJsonPrefix(fields: seq<Field>, i: nat, obj: map<string, Json>)
    requires i < |fields|
    ensures var pre := ModelToJson(fields[..i], obj);
      ModelToJson(fields[..i + 1], obj) == if pre.Err? then pre else JsonStep(pre.value, fields[i], obj)
  {
    assert fields[..i + 1][..i] == fields[..i];
  }

  /** The top-level keys a write at `path` leaves in the document. */
  function TopKeys(path: string): set<string>
  {
    var segs := Split(path);
    if |segs| == 1 then {segs[0]} else Elems(segs[..|segs| - 1])
  }

  /** Field `f` contributes a value from `obj` to the document. */
  predicate WritesJson(f: Field, obj: map<string, Json>)
  {
    ToWire(f.retention) && FromModel(f, obj).Ok? && !FromModel(f, obj).value.JNull?
  }

  /** The top-level keys of every contributing field's path. */
  function AllTopKeys(fields: seq<Field>, obj: map<string, Json>): set<string>
    decreases |fields|
  {
    if fields == [] then {}
    else
      var f := fields[|fields| - 1];
      AllTopKeys(fields[..|fields| - 1], obj) + (if WritesJson(f, obj) then TopKeys(f.jsonPath) else {})
  }

  /** A successful to_json has at its top level exactly the keys the
      contributing fields' paths put there, which for a path of three or more
      segments includes every intermediate segment. */
  lemma {:induction false} ToJsonTopKeys(fields: seq<Field>, obj: map<string, Json>)
    requires ModelToJson(fields, obj).Ok?
    ensures ModelToJson(fields, obj).value.Keys == AllTopKeys(fields, obj)
    decreases |fields|
  {
    if fields != [] {
      var n := |fields|;
      var f := fields[n - 1];
      ToJsonTopKeys(fields[..n - 1], obj);
      if WritesJson(f, obj) {
        ConverterSetTopKeys(ModelToJson(fields[..n - 1], obj).value, Split(f.jsonPath), FromModel(f, obj).value);
      }
    }
  }

  /** The last field's value can be read back at its path when that path has
      at most two segments. */
  lemma ToJsonLastFieldReadable(fields: seq<Field>, obj: map<string, Json>)
    requires fields != [] && ModelToJson(fields, obj).Ok?
    requires WritesJson(fields[|fields| - 1], obj) && |Split(fields[|fields| - 1].jsonPath)| <= 2
    ensures GetPath(JObj(ModelToJson(fields, obj).value), Split(fields[|fields| - 1].jsonPath)) ==
      FromModel(fields[|fields| - 1], obj)
  {
    var f := fields[|fields| - 1];
    ConverterGetAfterSetShort(ModelToJson(fields[..|fields| - 1], obj).value, f.jsonPath, FromModel(f, obj).value);
  }

  /** Fields that do not apply to the wire never affect to_json. */
  function WireFields(fields: seq<Field>): (r: seq<Field>)
    ensures forall i :: 0 <= i < |r| ==> ToWire(r[i].retention)
    decreases |fields|
  {
    if fields == [] then []
    else
      var pre := WireFields(fields[..|fields| - 1]);
      if ToWire(fields[|fields| - 1].retention) then pre + [fields[|fields| - 1]] else pre
  }

  lemma {:induction false} ToJsonOnlyWireFields(fields: seq<Field>, obj: map<string, Json>)
    ensures ModelToJson(fields, obj) == ModelToJson(WireFields(fields), obj)
    decreases |fields|
  {
    if fields != [] {
      var n := |fields|;
      ToJsonOnlyWireFields(fields[..n - 1], obj);
      var pre := WireFields(fields[..n - 1]);
      if ToWire(fields[n - 1].retention) {
        assert (pre + [fields[n - 1]])[..|pre|] == pre;
      }
    }
  }

  // --- to_search_parameters -------------------------------------------------

  /** `s.replace(pat, "")`: every occurrence of `pat`, scanning from the left
      and not overlapping, removed. */
  function RemoveAll(s: string, pat: string): (r: string)
    requires pat != []
    ensures |r| <= |s|
    decreases |s|
  {
    if |s| < |pat| then s
    else if s[..|pat|] == pat then RemoveAll(s[|pat|..], pat)
    else [s[0]] + RemoveAll(s[1..], pat)
  }

  /** `pat` occurs in `s` at position `i`. */
  predicate OccursAt(s: string, pat: string, i: int)
  {
    0 <= i && i + |pat| <= |s| && s[i..i + |pat|] == pat
  }

  /** A string without the pattern is left as it is. */
  lemma {:induction false} RemoveAllAbsent(s: string, pat: string)
    requires pat != []
    requires forall i :: !OccursAt(s, pat, i)
    ensures RemoveAll(s, pat) == s
    decreases |s|
  {
    if |s| >= |pat| {
      assert !OccursAt(s, pat, 0);
      assert s[..|pat|] == s[0..0 + |pat|];
      forall i ensures !OccursAt(s[1..], pat, i) {
        if OccursAt(s[1..], pat, i) {
          assert s[1..][i..i + |pat|] == s[i + 1..i + 1 + |pat|];
          assert OccursAt(s, pat, i + 1);
        }
      }
      RemoveAllAbsent(s[1..], pat);
      assert [s[0]] + s[1..] == s;
    }
  }

  /** A leading occurrence is dropped. */
  lemma RemoveAllPrefix(pat: string, t: string)
    requires pat != []
    ensures RemoveAll(pat + t, pat) == RemoveAll(t, pat)
  {
    assert (pat + t)[..|pat|] == pat && (pat + t)[|pat|..] == t;
  }

  /** The search-parameter document for `criteria` (in the dict's order): each
      key names a field by constructor argument (ValueError otherwise); a field
      that applies to the wire writes its sanitised value at its json path with
      every "attributes." removed, and the other criteria are dropped. */
  function SearchParams(fields: seq<Field>, criteria: seq<(string, Json)>): Result<map<string, Json>, Exc>
    decreases |criteria|
  {
    if criteria == [] then Ok(map[])
    else
      match SearchParams(fields, criteria[..|criteria| - 1])
      case Err(e) => Err(e)
      case Ok(m) => SearchStep(m, fields, criteria[|criteria| - 1])
  }

  /** One iteration of to_search_parameters' loop. */
  function SearchStep(m: map<string, Json>, fields: seq<Field>, c: (string, Json)): Result<map<string, Json>, Exc>
  {
    match FieldForArg(fields, c.0)
    case Err(e) => Err(e)
    case Ok(f) =>
      if !ToWire(f.retention) then Ok(m)
      else
        match FromSearchCriteria(f, c.1)
        case Err(e) => Err(e)
        case Ok(x) => Written(ConverterSetPath(m, Split(RemoveAll(f.jsonPath, "attributes.")), x))
  }

  lemma {:induction false} SearchParamsErrSticky(fields: seq<Field>, criteria: seq<(string, Json)>, i: nat)
    requires i <= |criteria| && SearchParams(fields, criteria[..i]).Err?
    ensures SearchParams(fields, criteria) == SearchParams(fields, criteria[..i])
    decreases |criteria| - i
  {
    if i < |criteria| {
      assert criteria[..i + 1][..i] == criteria[..i];
      SearchParamsErrSticky(fields, criteria, i + 1);
    } else {
      assert criteria[..i] == criteria;
    }
  }

  /** `to_search_parameters`. */
  method ToSearchParameters(decls: seq<(string, Field)>, criteria: seq<(string, Json)>) returns (r: Result<map<string, Json>, Exc>)
    ensures r == SearchParams(Fields(decls), criteria)
  {
    var fields := Fields(decls);
    var json := new Dict(map[]);
    var i := 0;
    while i < |criteria|
      invariant 0 <= i <= |criteria|
      invariant SearchParams(fields, criteria[..i]) == Ok(json.entries)
    {
      var (key, value) := criteria[i];
      assert criteria[..i + 1][..i] == criteria[..i];
      assert SearchParams(fields, criteria[..i + 1]) == SearchStep(json.entries, fields, (key, value));
      var field := FieldForArg(fields, key);
      if field.Err? {
        SearchParamsErrSticky(fields, criteria, i + 1);
        return Err(field.error);
      }
      var f := field.value;
      if ToWire(f.retention) {
        var sanitized := FromSearchCriteria(f, value);
        if sanitized.Err? {
          SearchParamsErrSticky(fields, criteria, i + 1);
          return Err(sanitized.error);
        }
        var outcome := ConverterSetNested(json, RemoveAll(f.jsonPath, "attributes."), sanitized.value);
        if outcome.Fail? {
          SearchParamsErrSticky(fields, criteria, i + 1);
          return Err(outcome.error);
        }
      }
      i := i + 1;
    }
    assert criteria[..i] == criteria;
    return Ok(json.entries);
  }

  /** A criterion naming no field makes the whole call fail. */
  lemma {:induction false} SearchParamsUnknownKeyFails(fields: seq<Field>, criteria: seq<(string, Json)>, i: nat)
    requires i < |criteria| && FieldForArg(fields, criteria[i].0).Err?
    ensures SearchParams(fields, criteria).Err?
  {
    assert criteria[..i + 1][..i] == criteria[..i];
    assert criteria[..i + 1][i] == criteria[i];
    SearchParamsErrSticky(fields, criteria, i + 1);
  }

  /** When every criterion names a field and nothing else fails, an unknown
      key is reported as ValueError carrying that key. */
  lemma SearchParamsUnknownKey(fields: seq<Field>, criteria: seq<(string, Json)>, key: string, value: Json)
    requires SearchParams(fields, criteria).Ok?
    requires forall i :: 0 <= i < |fields| ==> fields[i].constructorArg != Some(key)
    ensures SearchParams(fields, criteria + [(key, value)]) == Err(ValueError(key))
  {
    assert (criteria + [(key, value)])[..|criteria|] == criteria;
  }

  /** The criteria that survive: unknown keys (which fail) and keys of fields
      that apply to the wire. */
  function KeptCriteria(fields: seq<Field>, criteria: seq<(string, Json)>): seq<(string, Json)>
    decreases |criteria|
  {
    if criteria == [] then []
    else
      var c := criteria[|criteria| - 1];
      var pre := KeptCriteria(fields, criteria[..|criteria| - 1]);
      var f := FieldForArg(fields, c.0);
      if f.Err? || ToWire(f.value.retention) then pre + [c] else pre
  }

  /** Criteria for fields that do not apply to the wire are dropped silently. */
  lemma {:induction false} SearchParamsDropsModelOnly(fields: seq<Field>, criteria: seq<(string, Json)>)
    ensures SearchParams(fields, criteria) == SearchParams(fields, KeptCriteria(fields, criteria))
    decreases |criteria|
  {
    if criteria != [] {
      var n := |criteria|;
      SearchParamsDropsModelOnly(fields, criteria[..n - 1]);
      var pre := KeptCriteria(fields, criteria[..n - 1]);
      var f := FieldForArg(fields, criteria[n - 1].0);
      if f.Err? || ToWire(f.value.retention) {
        assert (pre + [criteria[n - 1]])[..|pre|] == pre;
      }
    }
  }

  /** A criterion whose field sits under "attributes." lands at the stripped
      path: "attributes.client" is searched as "client". */
  lemma SearchParamsStripsAttributes()
    ensures RemoveAll("attributes.client", "attributes.") == "client"
  {
    RemoveAllPrefix("attributes.", "client");
    assert "attributes." + "client" == "attributes.client";
  }

  /** The last criterion, when its field is kept on the wire, has its
      `from_search_criteria` value at the field's path with "attributes."
      removed: at the whole path for one or two segments, and under the last
      two segments for a longer path, where the converter's set_nested
      writes it. */
  lemma SearchParamsLastCriterionReadable(fields: seq<Field>, criteria: seq<(string, Json)>)
    requires criteria != [] && SearchParams(fields, criteria).Ok?
    requires var c := criteria[|criteria| - 1];
      FieldForArg(fields, c.0).Ok? && ToWire(FieldForArg(fields, c.0).value.retention)
    ensures var c := criteria[|criteria| - 1];
      var f := FieldForArg(fields, c.0).value;
      var segs := Split(RemoveAll(f.jsonPath, "attributes."));
      var r := JObj(SearchParams(fields, criteria).value);
      FromSearchCriteria(f, c.1).Ok? &&
      (|segs| <= 2 ==> GetPath(r, segs) == FromSearchCriteria(f, c.1)) &&
      (|segs| >= 2 ==> GetPath(r, segs[|segs| - 2..]) == FromSearchCriteria(f, c.1))
  {
    var c := criteria[|criteria| - 1];
    var f := FieldForArg(fields, c.0).value;
    var key := RemoveAll(f.jsonPath, "attributes.");
    var m := SearchParams(fields, criteria[..|criteria| - 1]).value;
    var x := FromSearchCriteria(f, c.1).value;
    if |Split(key)| <= 2 {
      ConverterGetAfterSetShort(m, key, x);
    }
    if |Split(key)| >= 2 {
      ConverterSetLandsAtLastTwo(m, Split(key), x);
    }
  }
}
