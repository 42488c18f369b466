/** Dot-separated path access into nested dicts (utils/nested.py; ratlib/nested.py
    is a byte-identical copy and is modelled by this same module).

    A key such as "attributes.data.boardIndex" is split at every '.', and each
    segment indexes one level deeper. `get_nested` only reads; `set_nested`
    writes into the caller's dict, creating missing intermediate dicts. */
module Nested {
  import opened Values

  // ---------------------------------------------------------------------------
  // Splitting and joining keys (Python's `key.split(".")` and `".".join`)
  // ---------------------------------------------------------------------------

  /** `s.split(".")`: always at least one segment, none containing '.'. */
  function Split(s: string): (r: seq<string>)
    ensures |r| >= 1
    ensures forall i :: 0 <= i < |r| ==> '.' !in r[i]
    decreases |s|
  {
    if |s| == 0 then [""]
    else if s[0] == '.' then [""] + Split(s[1..])
    else
      var rest := Split(s[1..]);
      assert '.' !in [s[0]] + rest[0];
      [[s[0]] + rest[0]] + rest[1..]
  }

  /** `".".join(parts)`. */
  function Join(parts: seq<string>): string
    requires |parts| >= 1
    decreases |parts|
  {
    if |parts| == 1 then parts[0] else parts[0] + "." + Join(parts[1..])
  }

  /** Joining the segments of a key gives the key back. */
  lemma {:induction false} JoinSplit(s: string)
    ensures Join(Split(s)) == s
    decreases |s|
  {
    if |s| == 0 {
    } else if s[0] == '.' {
      JoinSplit(s[1..]);
      assert Split(s)[1..] == Split(s[1..]);
    } else {
      JoinSplit(s[1..]);
      var rest := Split(s[1..]);
      var r := Split(s);
      assert r[1..] == rest[1..];
      if |rest| > 1 {
        assert Join(rest) == rest[0] + "." + Join(rest[1..]);
      }
    }
  }

  /** A key without '.' splits into itself alone. */
  lemma {:induction false} SplitNoDot(s: string)
    requires '.' !in s
    ensures Split(s) == [s]
    decreases |s|
  {
    if |s| > 0 {
      assert '.' !in s[1..] by {
        forall k | 0 <= k < |s[1..]| ensures s[1..][k] != '.' {
          assert s[1..][k] == s[k + 1];
        }
      }
      SplitNoDot(s[1..]);
      assert [s[0]] + s[1..] == s;
    }
  }

  /** Splitting `p + "." + t`, where `p` has no '.', splits off `p` first. */
  lemma {:induction false} SplitAfterSegment(p: string, t: string)
    requires '.' !in p
    ensures Split(p + "." + t) == [p] + Split(t)
    decreases |p|
  {
    if |p| == 0 {
      assert p + "." + t == "." + t;
      assert ("." + t)[1..] == t;
    } else {
      var s := p + "." + t;
      assert s[0] == p[0];
      assert s[1..] == p[1..] + "." + t;
      assert '.' !in p[1..] by {
        forall k | 0 <= k < |p[1..]| ensures p[1..][k] != '.' {
          assert p[1..][k] == p[k + 1];
        }
      }
      SplitAfterSegment(p[1..], t);
      assert [p[0]] + p[1..] == p;
    }
  }

  /** Splitting a joined list of dot-free segments gives the segments back. */
  lemma {:induction false} SplitJoin(parts: seq<string>)
    requires |parts| >= 1
    requires forall i :: 0 <= i < |parts| ==> '.' !in parts[i]
    ensures Split(Join(parts)) == parts
    decreases |parts|
  {
    if |parts| == 1 {
      SplitNoDot(parts[0]);
    } else {
      SplitJoin(parts[1..]);
      SplitAfterSegment(parts[0], Join(parts[1..]));
    }
  }

  /** A key is one plain segment exactly when it has no '.'. */
  lemma SingleSegmentIff(s: string)
    ensures Split(s) == [s] <==> '.' !in s
  {
    if '.' !in s {
      SplitNoDot(s);
    }
    if Split(s) == [s] {
      assert Split(s)[0] == s;
    }
  }

  // ---------------------------------------------------------------------------
  // Reading: get_nested
  // ---------------------------------------------------------------------------

  /** The value reached by indexing `j` with each segment in turn: KeyError for
      the first absent segment, TypeError when a non-dict is indexed. */
  function GetPath(j: Json, segs: seq<string>): (r: Result<Json, Exc>)
    decreases |segs|
  {
    if segs == [] then Ok(j)
    else
      match j
      case JObj(m) =>
        if segs[0] in m then GetPath(m[segs[0]], segs[1..]) else Err(KeyError(segs[0]))
      case _ => Err(TypeError)
  }

  /** A failed lookup is a TypeError, or a KeyError naming one segment of
      the path. */
  lemma {:induction false} GetPathErrors(j: Json, segs: seq<string>)
    ensures var r := GetPath(j, segs);
      r.Err? ==> r.error == TypeError || (r.error.KeyError? && r.error.key in segs)
    decreases |segs|
  {
    if segs != [] && j.JObj? && segs[0] in j.fields {
      GetPathErrors(j.fields[segs[0]], segs[1..]);
    }
  }

  /** get_nested(source, key): walks `source` one segment at a time. */
  method GetNested(source: map<string, Json>, key: string) returns (r: Result<Json, Exc>)
    ensures r == GetPath(JObj(source), Split(key))
  {
    var keys := Split(key);
    var current := JObj(source);
    var i := 0;
    while i < |keys|
      invariant 0 <= i <= |keys|
      invariant GetPath(JObj(source), keys) == GetPath(current, keys[i..])
    {
      assert keys[i..][0] == keys[i] && keys[i..][1..] == keys[i + 1..];
      match current {
        case JObj(m) =>
          if keys[i] in m {
            current := m[keys[i]];
          } else {
            return Err(KeyError(keys[i]));
          }
        case _ =>
          return Err(TypeError);
      }
      i := i + 1;
    }
    return Ok(current);
  }

  /** Looking up `p + q` is looking up `p`, then `q` inside the result. */
  lemma {:induction false} GetPathAppend(j: Json, p: seq<string>, q: seq<string>)
    ensures GetPath(j, p + q) ==
      match GetPath(j, p)
      case Ok(x) => GetPath(x, q)
      case Err(e) => Err(e)
    decreases |p|
  {
    if p == [] {
      assert p + q == q;
    } else {
      assert (p + q)[0] == p[0] && (p + q)[1..] == p[1..] + q;
      if j.JObj? && p[0] in j.fields {
        GetPathAppend(j.fields[p[0]], p[1..], q);
      }
    }
  }

  /** get_nested fails with KeyError exactly when, after some prefix of the
      path resolved to a dict, the next segment is absent from that dict. */
  lemma {:induction false} GetPathKeyErrorIff(j: Json, segs: seq<string>, k: string)
    ensures GetPath(j, segs) == Err(KeyError(k)) <==>
      exists i :: 0 <= i < |segs| && segs[i] == k &&
        GetPath(j, segs[..i]).Ok? && GetPath(j, segs[..i]).value.JObj? &&
        k !in GetPath(j, segs[..i]).value.fields
    decreases |segs|
  {
    if segs == [] {
    } else {
      var rest := segs[1..];
      if j.JObj? && segs[0] in j.fields {
        GetPathKeyErrorIff(j.fields[segs[0]], rest, k);
        var child := j.fields[segs[0]];
        forall i | 1 <= i <= |segs|
          ensures GetPath(j, segs[..i]) == GetPath(child, rest[..i - 1])
        {
          assert segs[..i][0] == segs[0] && segs[..i][1..] == rest[..i - 1];
        }
        if GetPath(j, segs) == Err(KeyError(k)) {
          var i' :| 0 <= i' < |rest| && rest[i'] == k &&
            GetPath(child, rest[..i']).Ok? && GetPath(child, rest[..i']).value.JObj? &&
            k !in GetPath(child, rest[..i']).value.fields;
          assert segs[i' + 1] == k;
        }
        if exists i :: 0 <= i < |segs| && segs[i] == k &&
            GetPath(j, segs[..i]).Ok? && GetPath(j, segs[..i]).value.JObj? &&
            k !in GetPath(j, segs[..i]).value.fields
        {
          var i :| 0 <= i < |segs| && segs[i] == k &&
            GetPath(j, segs[..i]).Ok? && GetPath(j, segs[..i]).value.JObj? &&
            k !in GetPath(j, segs[..i]).value.fields;
          assert segs[..0] == [];
          assert i != 0;
          assert rest[i - 1] == k;
        }
      } else {
        assert segs[..0] == [];
        if j.JObj? {
          assert GetPath(j, segs[..0]) == Ok(j);
        }
        forall i | 1 <= i < |segs|
          ensures GetPath(j, segs[..i]).Err?
        {
          assert segs[..i][0] == segs[0];
        }
      }
    }
  }

  /** The documented example: "first.second" in {"first": {"second": 42}}. */
  lemma GetNestedExample()
    ensures GetPath(JObj(map["first" := JObj(map["second" := JInt(42)])]), Split("first.second"))
      == Ok(JInt(42))
  {
    SplitJoin(["first", "second"]);
    assert Join(["first", "second"]) == "first.second";
    var inner := JObj(map["second" := JInt(42)]);
    assert GetPath(inner, ["second"]) == GetPath(JInt(42), []);
    assert GetPath(JObj(map["first" := inner]), ["first", "second"]) == GetPath(inner, ["second"]);
  }

  // ---------------------------------------------------------------------------
  // Writing: set_nested
  // ---------------------------------------------------------------------------

  /** The dict that results from set_nested on `d` along `segs`: every
      intermediate segment is resolved with `setdefault(seg, {})`, then the last
      segment is assigned. A present non-dict intermediate fails: with
      AttributeError when `setdefault` is called on it, with TypeError when it
      is the last container and receives the item assignment. */
  function SetPath(d: map<string, Json>, segs: seq<string>, v: Json): (r: Result<map<string, Json>, Exc>)
    requires |segs| >= 1
    decreases |segs|
  {
    if |segs| == 1 then Ok(d[segs[0] := v])
    else
      var child := if segs[0] in d then d[segs[0]] else JObj(map[]);
      match child
      case JObj(m) =>
        (match SetPath(m, segs[1..], v)
         case Ok(m') => Ok(d[segs[0] := JObj(m')])
         case Err(e) => Err(e))
      case _ => Err(if |segs| == 2 then TypeError else AttributeError)
  }

  /** A single segment always succeeds; a success keeps every key and adds
      the first segment; a failure is AttributeError or TypeError. */
  lemma {:induction false} SetPathOutcome(d: map<string, Json>, segs: seq<string>, v: Json)
    requires |segs| >= 1
    ensures |segs| == 1 ==> SetPath(d, segs, v).Ok?
    ensures SetPath(d, segs, v).Ok? ==> SetPath(d, segs, v).value.Keys == d.Keys + {segs[0]}
    ensures SetPath(d, segs, v).Err? ==>
      SetPath(d, segs, v).error == TypeError || SetPath(d, segs, v).error == AttributeError
    decreases |segs|
  {
    if |segs| > 1 {
      var child := if segs[0] in d then d[segs[0]] else JObj(map[]);
      if child.JObj? {
        SetPathOutcome(child.fields, segs[1..], v);
      }
    }
  }

  /** `fs[0][ks[0] := fs[1][ks[1] := ... fs[n-1][ks[n-1] := inner]]]`: puts a
      rewritten innermost dict back into the chain of dicts above it. */
  function Rebuild(fs: seq<map<string, Json>>, ks: seq<string>, inner: map<string, Json>): map<string, Json>
    requires |fs| <= |ks|
    decreases |fs|
  {
    if fs == [] then inner
    else Rebuild(fs[..|fs| - 1], ks, fs[|fs| - 1][ks[|fs| - 1] := JObj(inner)])
  }

  function Lift(fs: seq<map<string, Json>>, ks: seq<string>, r: Result<map<string, Json>, Exc>): Result<map<string, Json>, Exc>
    requires |fs| <= |ks|
  {
    match r
    case Ok(m) => Ok(Rebuild(fs, ks, m))
    case Err(e) => Err(e)
  }

  /** set_nested(dest, key, value). The descent records the dict met at each
      level (creating empty ones for missing segments); the item assignment is
      then made at the bottom and the updated dicts are written back upward.
      On failure `dest` is left as it was: a failure can only occur while every
      segment so far was present, so no `setdefault` has inserted anything. */
  method SetNested(dest: Dict, key: string, value: Json) returns (r: Outcome<Exc>)
    modifies dest
    ensures match SetPath(old(dest.entries), Split(key), value)
      case Ok(m) => r == Pass && dest.entries == m
      case Err(e) => r == Fail(e) && dest.entries == old(dest.entries)
  {
    var keys := Split(key);
    var n := |keys|;
    var frames: seq<map<string, Json>> := [dest.entries];
    var i := 0;
    while i < n - 1
      invariant 0 <= i <= n - 1
      invariant |frames| == i + 1
      invariant dest.entries == old(dest.entries)
      invariant SetPath(dest.entries, keys, value) == Lift(frames[..i], keys, SetPath(frames[i], keys[i..], value))
    {
      var here := frames[i];
      var child := if keys[i] in here then here[keys[i]] else JObj(map[]);
      assert keys[i..][0] == keys[i] && keys[i..][1..] == keys[i + 1..];
      if !child.JObj? {
        r := Fail(if i == n - 2 then TypeError else AttributeError);
        return;
      }
      assert frames[..i + 1][..i] == frames[..i];
      frames := frames + [child.fields];
      i := i + 1;
    }
    assert keys[n - 1..] == [keys[n - 1]];
    var acc := frames[n - 1][keys[n - 1] := value];
    var j := n - 1;
    while j > 0
      invariant 0 <= j <= n - 1
      invariant Rebuild(frames[..n - 1], keys, frames[n - 1][keys[n - 1] := value]) == Rebuild(frames[..j], keys, acc)
    {
      assert frames[..j][..j - 1] == frames[..j - 1];
      j := j - 1;
      acc := frames[j][keys[j] := JObj(acc)];
    }
    dest.entries := acc;
    r := Pass;
  }


  /** GetPath through a dict: the first segment, then the rest below it. */
  lemma GetPathStep(d: map<string, Json>, segs: seq<string>, i: nat)
    requires 1 <= i <= |segs| && segs[0] in d
    ensures GetPath(JObj(d), segs[..i]) == GetPath(d[segs[0]], segs[1..][..i - 1])
  {
    assert segs[..i][0] == segs[0] && segs[..i][1..] == segs[1..][..i - 1];
  }

  /** After a successful set_nested, get_nested on the same key yields the value. */
  lemma {:induction false} GetAfterSet(d: map<string, Json>, segs: seq<string>, v: Json)
    requires |segs| >= 1 && SetPath(d, segs, v).Ok?
    ensures GetPath(JObj(SetPath(d, segs, v).value), segs) == Ok(v)
    decreases |segs|
  {
    var d' := SetPath(d, segs, v).value;
    if |segs| == 1 {
      assert segs[1..] == [];
    } else {
      var child := if segs[0] in d then d[segs[0]] else JObj(map[]);
      GetAfterSet(child.fields, segs[1..], v);
    }
  }

  /** The same round trip for string keys, as the two functions are called. */
  lemma GetNestedAfterSetNested(d: map<string, Json>, key: string, v: Json)
    requires SetPath(d, Split(key), v).Ok?
    ensures GetPath(JObj(SetPath(d, Split(key), v).value), Split(key)) == Ok(v)
  {
    GetAfterSet(d, Split(key), v);
  }

  /** After a successful set_nested every proper prefix of the path leads to a
      dict: missing intermediate dicts were created. */
  lemma {:induction false} SetCreatesIntermediates(d: map<string, Json>, segs: seq<string>, v: Json)
    requires |segs| >= 1 && SetPath(d, segs, v).Ok?
    ensures forall i :: 1 <= i < |segs| ==>
      GetPath(JObj(SetPath(d, segs, v).value), segs[..i]).Ok? &&
      GetPath(JObj(SetPath(d, segs, v).value), segs[..i]).value.JObj?
    decreases |segs|
  {
    if |segs| > 1 {
      var d' := SetPath(d, segs, v).value;
      var child := if segs[0] in d then d[segs[0]] else JObj(map[]);
      var m' := SetPath(child.fields, segs[1..], v).value;
      assert d'[segs[0]] == JObj(m');
      SetCreatesIntermediates(child.fields, segs[1..], v);
      forall i | 1 <= i < |segs|
        ensures GetPath(JObj(d'), segs[..i]).Ok? && GetPath(JObj(d'), segs[..i]).value.JObj?
      {
        GetPathStep(d', segs, i);
        if i == 1 {
          assert segs[1..][..0] == [];
        }
      }
    }
  }

  /** `p` leaves the path `q` at some position: same segments up to it, a
      different segment there. */
  predicate Diverges(p: seq<string>, q: seq<string>)
    decreases |p|
  {
    |p| > 0 && |q| > 0 && (p[0] != q[0] || Diverges(p[1..], q[1..]))
  }

  /** set_nested changes nothing off its own path: every path that leaves it
      resolves after the call exactly as before (existing siblings kept, no new
      entries beside the path). */
  lemma {:induction false} SetLeavesOtherPaths(d: map<string, Json>, segs: seq<string>, v: Json, p: seq<string>)
    requires |segs| >= 1 && SetPath(d, segs, v).Ok?
    requires Diverges(p, segs)
    ensures GetPath(JObj(SetPath(d, segs, v).value), p).Ok? == GetPath(JObj(d), p).Ok?
    ensures GetPath(JObj(d), p).Ok? ==> GetPath(JObj(SetPath(d, segs, v).value), p) == GetPath(JObj(d), p)
    decreases |segs|
  {
    var d' := SetPath(d, segs, v).value;
    if p[0] != segs[0] {
      assert p[0] in d' <==> p[0] in d;
      assert p[0] in d ==> d'[p[0]] == d[p[0]];
    } else {
      assert |segs| > 1;
      var child := if segs[0] in d then d[segs[0]] else JObj(map[]);
      SetLeavesOtherPaths(child.fields, segs[1..], v, p[1..]);
      assert GetPath(JObj(d'), p) == GetPath(d'[p[0]], p[1..]);
      if segs[0] !in d {
        assert GetPath(JObj(d), p) == Err(KeyError(p[0]));
        assert p[1..] != [];
        assert GetPath(JObj(map[]), p[1..]).Err?;
      }
    }
  }

  /** set_nested fails exactly when some proper prefix of the path already
      leads to a value that is not a dict. */
  lemma {:induction false} SetFailsIff(d: map<string, Json>, segs: seq<string>, v: Json)
    requires |segs| >= 1
    ensures SetPath(d, segs, v).Err? <==>
      exists i :: 1 <= i < |segs| && GetPath(JObj(d), segs[..i]).Ok? && !GetPath(JObj(d), segs[..i]).value.JObj?
    decreases |segs|
  {
    if |segs| > 1 {
      var rest := segs[1..];
      if segs[0] !in d {
        SetFailsIff(map[], rest, v);
        forall i | 1 <= i < |rest| ensures GetPath(JObj(map[]), rest[..i]).Err? {
          assert rest[..i][0] == rest[0];
        }
        forall i | 1 <= i < |segs| ensures GetPath(JObj(d), segs[..i]).Err? {
          assert segs[..i][0] == segs[0];
        }
      } else if !d[segs[0]].JObj? {
        GetPathStep(d, segs, 1);
        assert rest[..0] == [];
      } else {
        var m := d[segs[0]].fields;
        SetFailsIff(m, rest, v);
        forall i | 1 <= i < |segs|
          ensures GetPath(JObj(d), segs[..i]) == GetPath(JObj(m), rest[..i - 1])
        {
          GetPathStep(d, segs, i);
        }
        assert rest[..0] == [];
        if SetPath(d, segs, v).Err? {
          var i' :| 1 <= i' < |rest| && GetPath(JObj(m), rest[..i']).Ok? && !GetPath(JObj(m), rest[..i']).value.JObj?;
          assert GetPath(JObj(d), segs[..i' + 1]) == GetPath(JObj(m), rest[..i']);
        }
        if exists i :: 1 <= i < |segs| && GetPath(JObj(d), segs[..i]).Ok? && !GetPath(JObj(d), segs[..i]).value.JObj? {
          var i :| 1 <= i < |segs| && GetPath(JObj(d), segs[..i]).Ok? && !GetPath(JObj(d), segs[..i]).value.JObj?;
          assert i != 1;
          assert GetPath(JObj(m), rest[..i - 1]).Ok?;
        }
      }
    }
  }

  /** A key without '.' is one plain assignment. */
  lemma SetSingleKey(d: map<string, Json>, key: string, v: Json)
    requires '.' !in key
    ensures SetPath(d, Split(key), v) == Ok(d[key := v])
  {
    SplitNoDot(key);
  }

  /** A key without '.' is one plain lookup. */
  lemma GetSingleKey(d: map<string, Json>, key: string)
    requires '.' !in key
    ensures GetPath(JObj(d), Split(key)) == if key in d then Ok(d[key]) else Err(KeyError(key))
  {
    SplitNoDot(key);
    assert [key][1..] == [];
  }
}
