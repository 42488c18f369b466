/** Command registration and dispatch (Modules/rat_command.py): the
    module-level registry of case-folded aliases, the `"cCfFrw?"` parameter
    strings of the older `parametrize`, and the binding of its WORD
    parameters. Replies sent to the chat are modelled as the result values
    they would carry. */
module RatCommand {
  import opened Values

  /** What was handed to `_register`: None or another non-callable value, or
      a callable, identified by a number. */
  datatype Handler = NotCallable | Callable(id: nat)

  datatype CommandError =
    | NameCollisionException(message: string)
    | InvalidCommandException(message: string)

  // --- case folding --------------------------------------------------------

  function FoldChar(c: char): char
  {
    if 'A' <= c <= 'Z' then (c as int + 32) as char else c
  }

  /** `str.casefold()` on ASCII text: upper-case letters become lower-case,
      everything else is kept. */
  function CaseFold(s: string): (r: string)
    ensures |r| == |s|
    ensures forall i :: 0 <= i < |s| ==> r[i] == FoldChar(s[i])
    ensures forall i :: 0 <= i < |r| ==> !('A' <= r[i] <= 'Z')
  {
    seq(|s|, i requires 0 <= i < |s| => FoldChar(s[i]))
  }

  lemma CaseFoldIdempotent(s: string)
    ensures CaseFold(CaseFold(s)) == CaseFold(s)
  {
  }

  /** The aliases, each case-folded, in order. */
  function FoldAll(names: seq<string>): (r: seq<string>)
    ensures |r| == |names| && forall i :: 0 <= i < |names| ==> r[i] == CaseFold(names[i])
  {
    seq(|names|, i requires 0 <= i < |names| => CaseFold(names[i]))
  }

  // --- registration --------------------------------------------------------

  /** `_register`'s loop over the folded aliases: each alias is stored in
      turn until one is already present, which is reported and ends the
      loop. The aliases stored before it stay registered. */
  function RegisterAliases(m: map<string, nat>, names: seq<string>, id: nat): (r: (map<string, nat>, Option<string>))
    ensures forall k :: k in m ==> k in r.0 && r.0[k] == m[k]
    ensures forall k :: k in r.0 && k !in m ==> r.0[k] == id && k in names
    decreases |names|
  {
    if names == [] then (m, None)
    else if names[0] in m then (m, Some(names[0]))
    else RegisterAliases(m[names[0] := id], names[1..], id)
  }

  /** Registration reports no collision exactly when the aliases are
      distinct and none was registered before. */
  lemma {:induction false} RegisterReportsIff(m: map<string, nat>, names: seq<string>, id: nat)
    ensures RegisterAliases(m, names, id).1.None? <==> NoCollision(m, names)
    decreases |names|
  {
    if names != [] && names[0] !in m {
      var m' := m[names[0] := id];
      RegisterReportsIff(m', names[1..], id);
      if NoCollision(m', names[1..]) {
        forall i, j | 0 <= i < j < |names|
          ensures names[i] != names[j]
        {
          if i > 0 {
            assert names[i] == names[1..][i - 1] && names[j] == names[1..][j - 1];
          } else {
            assert names[j] == names[1..][j - 1];
          }
        }
        forall i | 0 <= i < |names|
          ensures names[i] !in m
        {
          if i > 0 {
            assert names[i] == names[1..][i - 1];
          }
        }
      }
      if NoCollision(m, names) {
        forall i | 0 <= i < |names[1..]|
          ensures names[1..][i] !in m'
        {
          assert names[1..][i] == names[i + 1];
          assert names[0] != names[i + 1];
        }
        forall i, j | 0 <= i < j < |names[1..]|
          ensures names[1..][i] != names[1..][j]
        {
          assert names[1..][i] == names[i + 1] && names[1..][j] == names[j + 1];
        }
      }
    }
  }

  /** Storing the first of a collision-free list of aliases leaves the
      rest collision-free. */
  lemma NoCollisionTail(m: map<string, nat>, names: seq<string>, id: nat)
    requires names != [] && NoCollision(m, names)
    ensures NoCollision(m[names[0] := id], names[1..])
  {
    forall i | 0 <= i < |names| - 1
      ensures names[1..][i] !in m[names[0] := id]
    {
      assert names[1..][i] == names[i + 1];
      assert names[0] != names[i + 1];
    }
    forall i, j | 0 <= i < j < |names| - 1
      ensures names[1..][i] != names[1..][j]
    {
      assert names[1..][i] == names[i + 1] && names[1..][j] == names[j + 1];
    }
  }

  /** Without a collision every alias ends up registered to the function,
      and nothing else is added. */
  lemma {:induction false} RegisterSucceeds(m: map<string, nat>, names: seq<string>, id: nat)
    requires NoCollision(m, names)
    ensures RegisterAliases(m, names, id).1 == None
    ensures RegisterAliases(m, names, id).0.Keys == m.Keys + Elems(names)
    ensures forall a :: a in names ==> RegisterAliases(m, names, id).0[a] == id
    decreases |names|
  {
    if names != [] {
      NoCollisionTail(m, names, id);
      RegisterSucceeds(m[names[0] := id], names[1..], id);
      assert names == [names[0]] + names[1..];
      assert Elems(names) == {names[0]} + Elems(names[1..]);
    }
  }

  /** At the first alias that is already registered, or repeats an earlier
      one, registration stops and reports it; the aliases before it stay
      registered. */
  lemma {:induction false} RegisterCollides(m: map<string, nat>, names: seq<string>, id: nat, k: nat)
    requires k < |names| && (names[k] in m || names[k] in names[..k]) && NoCollision(m, names[..k])
    ensures RegisterAliases(m, names, id).1 == Some(names[k])
    ensures RegisterAliases(m, names, id).0.Keys == m.Keys + Elems(names[..k])
    decreases k
  {
    if k == 0 {
      assert names[0] in m;
    } else {
      var pre := names[..k];
      var tail := names[1..];
      var m' := m[names[0] := id];
      assert pre[0] == names[0] && pre[1..] == tail[..k - 1];
      assert names[0] !in m;
      assert RegisterAliases(m, names, id) == RegisterAliases(m', tail, id);
      NoCollisionTail(m, pre, id);
      assert tail[k - 1] == names[k];
      InEarlier(names, k);
      assert tail[k - 1] in m' || tail[k - 1] in tail[..k - 1];
      RegisterCollides(m', tail, id, k - 1);
      assert pre == [names[0]] + tail[..k - 1];
      assert Elems(pre) == {names[0]} + Elems(tail[..k - 1]);
    }
  }

  /** An alias repeating an earlier one is the first alias or repeats one
      of the others. */
  lemma InEarlier(names: seq<string>, k: nat)
    requires 0 < k < |names|
    ensures names[k] in names[..k] ==> names[k] == names[0] || names[k] in names[1..][..k - 1]
  {
    if names[k] in names[..k] && names[k] != names[0] {
      var i :| 0 <= i < k && names[..k][i] == names[k];
      assert names[1..][..k - 1][i - 1] == names[k];
    }
  }

  /** The aliases are distinct and none is registered yet. */
  predicate NoCollision(m: map<string, nat>, names: seq<string>)
  {
    (forall i :: 0 <= i < |names| ==> names[i] !in m) &&
    (forall i, j :: 0 <= i < j < |names| ==> names[i] != names[j])
  }

  function Elems(names: seq<string>): set<string>
  {
    set a | a in names
  }

  function CollisionMessage(alias: string): string
  {
    "attempted to re-register command(s) " + alias
  }

  /** The dispatch `trigger` performs. */
  datatype Dispatch =
    /** `words_eol[0]` is empty: nothing happens. */
    | EmptyMessage
    | RunCommand(id: nat)
    /** Not a registered command: the rules are consulted (not modelled). */
    | ConsultRules(prefixless: bool)
    /** The context's word lists were empty. */
    | ContextIndexError

  /** A message as the context presents it: its words, the rest of the line
      from each word on, and whether it started with the command prefix. */
  datatype Context = Context(words: seq<string>, wordsEol: seq<string>, prefixed: bool)

  /** `trigger` up to calling the command: the case-folded first word
      selects a registered command. */
  function Lookup(commands: map<string, nat>, ctx: Context): (r: Dispatch)
    ensures r.RunCommand? <==>
      (|ctx.wordsEol| > 0 && ctx.wordsEol[0] != "" && ctx.prefixed && |ctx.words| > 0 && CaseFold(ctx.words[0]) in commands)
    ensures r.RunCommand? ==> r.id == commands[CaseFold(ctx.words[0])]
  {
    if |ctx.wordsEol| == 0 then ContextIndexError
    else if ctx.wordsEol[0] == "" then EmptyMessage
    else if ctx.prefixed then
      if |ctx.words| == 0 then ContextIndexError
      else if CaseFold(ctx.words[0]) in commands then RunCommand(commands[CaseFold(ctx.words[0])])
      else ConsultRules(false)
    else ConsultRules(true)
  }

  /** `_registered_commands` and the functions on it. */
  class CommandRegistry {
    var commands: map<string, nat>

    constructor ()
      ensures commands == map[]
    {
      commands := map[];
    }

    /** `_register`: False for a non-callable; otherwise every folded alias is
        stored, or NameCollisionException for the first one already present. */
    method Register(func: Handler, names: seq<string>) returns (r: Result<bool, CommandError>)
      modifies this
      ensures func.NotCallable? ==> r == Ok(false) && commands == old(commands)
      ensures func.Callable? ==>
        var (m, collided) := RegisterAliases(old(commands), FoldAll(names), func.id);
        commands == m &&
        r == (if collided.None? then Ok(true) else Err(NameCollisionException(CollisionMessage(collided.value))))
    {
      var folded := FoldAll(names);
      if func.NotCallable? {
        return Ok(false);
      }
      var i := 0;
      while i < |folded|
        invariant 0 <= i <= |folded|
        invariant RegisterAliases(old(commands), folded, func.id) == RegisterAliases(commands, folded[i..], func.id)
      {
        assert folded[i..][0] == folded[i] && folded[i..][1..] == folded[i + 1..];
        if folded[i] in commands {
          return Err(NameCollisionException(CollisionMessage(folded[i])));
        }
        commands := commands[folded[i] := func.id];
        i := i + 1;
      }
      r := Ok(true);
    }

    /** `_register` given a single name rather than a list. */
    method RegisterOne(func: Handler, name: string) returns (r: Result<bool, CommandError>)
      modifies this
      ensures func.NotCallable? ==> r == Ok(false) && commands == old(commands)
      ensures func.Callable? ==>
        var (m, collided) := RegisterAliases(old(commands), [CaseFold(name)], func.id);
        commands == m &&
        r == (if collided.None? then Ok(true) else Err(NameCollisionException(CollisionMessage(collided.value))))
    {
      assert FoldAll([name]) == [CaseFold(name)];
      r := Register(func, [name]);
    }

    /** The `command(*aliases)` decorator: registers `func` or raises. */
    method Command(aliases: seq<string>, func: Handler) returns (r: Result<Handler, CommandError>)
      modifies this
      ensures func.NotCallable? ==>
        r == Err(InvalidCommandException("unable to register commands.")) && commands == old(commands)
      ensures func.Callable? ==>
        var (m, collided) := RegisterAliases(old(commands), FoldAll(aliases), func.id);
        commands == m &&
        r == (if collided.None? then Ok(func) else Err(NameCollisionException(CollisionMessage(collided.value))))
    {
      var registered := Register(func, aliases);
      match registered {
        case Err(e) =>
          return Err(e);
        case Ok(b) =>
          if !b {
            return Err(InvalidCommandException("unable to register commands."));
          }
          return Ok(func);
      }
    }

    /** `_flush` (the rules it also clears are not modelled). */
    method Flush()
      modifies this
      ensures commands == map[]
    {
      commands := map[];
    }

    /** `trigger`'s choice of what to run. */
    function Trigger(ctx: Context): (r: Dispatch)
      reads this
      ensures r == Lookup(commands, ctx)
    {
      Lookup(commands, ctx)
    }
  }

  /** After a registration without collision, a prefixed message whose
      first word folds to any of the aliases runs the registered function,
      whatever the case of either. */
  lemma RegisteredAliasTriggers(m: map<string, nat>, names: seq<string>, id: nat, alias: string, ctx: Context)
    requires NoCollision(m, FoldAll(names))
    requires alias in names
    requires ctx.prefixed && |ctx.words| > 0 && |ctx.wordsEol| > 0 && ctx.wordsEol[0] != ""
    requires CaseFold(ctx.words[0]) == CaseFold(alias)
    ensures Lookup(RegisterAliases(m, FoldAll(names), id).0, ctx) == RunCommand(id)
  {
    var i :| 0 <= i < |names| && names[i] == alias;
    assert FoldAll(names)[i] == CaseFold(alias);
    RegisterSucceeds(m, FoldAll(names), id);
  }

  /** Registering the same name twice, in any case, collides on the second
      alias and leaves the first registered. */
  lemma DuplicateAliasCollides(m: map<string, nat>, name: string, other: string, id: nat)
    requires CaseFold(name) !in m && CaseFold(other) == CaseFold(name)
    ensures RegisterAliases(m, FoldAll([name, other]), id) == (m[CaseFold(name) := id], Some(CaseFold(name)))
  {
    assert FoldAll([name, other]) == [CaseFold(name), CaseFold(other)];
    assert [CaseFold(name), CaseFold(other)][1..] == [CaseFold(other)];
  }

  // --- the "cCfFrw?" parameter strings -------------------------------------

  datatype ParamKind = Case | Find | Rat | Word

  /** `_Param`. */
  datatype Param = Param(kind: ParamKind, create: bool, optional: bool)

  function KindOf(c: char): Option<ParamKind>
  {
    if c == 'c' || c == 'C' then Some(Case)
    else if c == 'f' || c == 'F' then Some(Find)
    else if c == 'r' then Some(Rat)
    else if c == 'w' then Some(Word)
    else None
  }

  predicate Recognised(c: char)
  {
    c == '?' || KindOf(c).Some?
  }

  /** The parameter the letter at `i` stands for: upper case creates, a
      following '?' makes it optional. */
  function ParamAt(params: string, i: nat): Param
    requires i < |params| && KindOf(params[i]).Some?
  {
    Param(KindOf(params[i]).value, params[i] == 'C' || params[i] == 'F',
          i < |params| - 1 && params[i + 1] == '?')
  }

  /** The parameters the first `n` characters produce. */
  function Prettified(params: string, n: nat): seq<Param>
    requires n <= |params| && forall i :: 0 <= i < n ==> Recognised(params[i])
  {
    if n == 0 then []
    else
      assert Recognised(params[n - 1]);
      Prettified(params, n - 1) + (if params[n - 1] == '?' then [] else [ParamAt(params, n - 1)])
  }

  /** Characters other than '?'. */
  function CountLetters(s: string): nat
  {
    if s == [] then 0 else CountLetters(s[..|s| - 1]) + (if s[|s| - 1] == '?' then 0 else 1)
  }

  /** Fewer characters give a prefix of the parameters. */
  lemma {:induction false} PrettifiedPrefix(params: string, i: nat, n: nat)
    requires i <= n <= |params| && forall k :: 0 <= k < n ==> Recognised(params[k])
    ensures Prettified(params, i) <= Prettified(params, n)
    decreases n
  {
    if i < n {
      PrettifiedPrefix(params, i, n - 1);
    }
  }

  /** One parameter per letter, '?' skipped: the parameter of the letter at
      `i` sits at the position given by the letters before it. */
  lemma {:induction false} PrettifiedLetters(params: string, n: nat)
    requires n <= |params| && forall i :: 0 <= i < n ==> Recognised(params[i])
    ensures |Prettified(params, n)| == CountLetters(params[..n])
    ensures forall i :: 0 <= i < n && params[i] != '?' ==>
      |Prettified(params, i)| < |Prettified(params, n)| &&
      Prettified(params, n)[|Prettified(params, i)|] == ParamAt(params, i)
    decreases n
  {
    if n > 0 {
      PrettifiedLetters(params, n - 1);
      assert params[..n][..n - 1] == params[..n - 1];
      forall i | 0 <= i < n && params[i] != '?'
        ensures |Prettified(params, i)| < |Prettified(params, n)|
        ensures Prettified(params, n)[|Prettified(params, i)|] == ParamAt(params, i)
      {
        PrettifiedPrefix(params, i + 1, n);
      }
    }
  }

  function UnrecognisedMessage(c: char): string
  {
    "unrecognized command parameter: " + [c]
  }

  /** `_prettify_params`. */
  method PrettifyParams(params: string) returns (r: Result<seq<Param>, Exc>)
    ensures (forall i :: 0 <= i < |params| ==> Recognised(params[i])) ==> r == Ok(Prettified(params, |params|))
    ensures (exists i :: 0 <= i < |params| && !Recognised(params[i])) ==> r.Err?
    ensures r.Err? ==> exists i :: (0 <= i < |params| && !Recognised(params[i]) &&
                                   (forall k :: 0 <= k < i ==> Recognised(params[k])) &&
                                   r.error == ValueError(UnrecognisedMessage(params[i])))
  {
    var pretty: seq<Param> := [];
    var i := 0;
    while i < |params|
      invariant 0 <= i <= |params|
      invariant forall k :: 0 <= k < i ==> Recognised(params[k])
      invariant pretty == Prettified(params, i)
    {
      var c := params[i];
      if c == 'c' || c == 'C' {
        pretty := pretty + [Param(Case, false, false)];
      } else if c == 'f' || c == 'F' {
        pretty := pretty + [Param(Find, false, false)];
      } else if c == 'r' {
        pretty := pretty + [Param(Rat, false, false)];
      } else if c == 'w' {
        pretty := pretty + [Param(Word, false, false)];
      } else if c == '?' {
        i := i + 1;
        continue;
      } else {
        return Err(ValueError(UnrecognisedMessage(c)));
      }
      if c == 'C' || c == 'F' {
        pretty := pretty[..|pretty| - 1] + [pretty[|pretty| - 1].(create := true)];
      }
      if i < |params| - 1 && params[i + 1] == '?' {
        pretty := pretty[..|pretty| - 1] + [pretty[|pretty| - 1].(optional := true)];
      }
      i := i + 1;
    }
    r := Ok(pretty);
  }

  lemma PrettifiedExample()
    ensures Prettified("cC?w", 4) == [Param(Case, false, false), Param(Case, true, true), Param(Word, false, false)]
  {
    assert Prettified("cC?w", 1) == [Param(Case, false, false)];
    assert Prettified("cC?w", 2) == [Param(Case, false, false), Param(Case, true, true)];
  }

  // --- binding arguments: the older parametrize ----------------------------

  /** What the wrapped command does: replies with its usage, raises, or calls
      the command with its arguments (None for an omitted optional one). */
  datatype Invocation = UsageReply(message: string) | Raised(exc: Exc) | Called(args: seq<Option<string>>)

  function UsageMessage(prefix: string, command: string, usage: string): string
  {
    "usage: " + prefix + command + " " + usage
  }

  /** The usage reply for a message with these words; naming the command
      raises IndexError when there are no words at all. */
  function UsageReplyFor(prefix: string, words: seq<string>, usage: string): Invocation
  {
    if |words| == 0 then Raised(IndexError) else UsageReply(UsageMessage(prefix, words[0], usage))
  }

  /** `words[1:]`, empty for an empty list as in Python. */
  function Arguments(words: seq<string>): seq<string>
  {
    if |words| == 0 then [] else words[1..]
  }

  const RescueNotImplemented := NotImplementedError("Rescue parameters are not implemented yet")
  const RatNotImplemented := NotImplementedError("Rat parameters are not implemented yet")

  /** The `zip_longest(params, words[1:])` loop from position `j` on, with the
      arguments bound so far; `reply` is what a usage error leads to. */
  function ZipBind(params: seq<Param>, args: seq<string>, j: nat, acc: seq<Option<string>>, reply: Invocation): (r: Invocation)
    ensures !reply.Called? && r.Called? && j <= |params| ==> |args| <= |params| && |r.args| == |acc| + |params| - j
    decreases |params| + |args| - j
  {
    if j >= |params| && j >= |args| then Called(acc)
    else if j >= |params| then reply
    else if j >= |args| then
      if params[j].optional then ZipBind(params, args, j + 1, acc + [None], reply) else reply
    else if params[j].kind == Case || params[j].kind == Find then Raised(RescueNotImplemented)
    else if params[j].kind == Rat then Raised(RatNotImplemented)
    else ZipBind(params, args, j + 1, acc + [Some(args[j])], reply)
  }

  /** The wrapper `parametrize` puts around a command. */
  method Parametrized(params: seq<Param>, words: seq<string>, prefix: string, usage: string) returns (r: Invocation)
    ensures r == ZipBind(params, Arguments(words), 0, [], UsageReplyFor(prefix, words, usage))
  {
    var args := Arguments(words);
    var reply := UsageReplyFor(prefix, words, usage);
    var bound: seq<Option<string>> := [];
    var j := 0;
    while j < |params| || j < |args|
      invariant ZipBind(params, args, 0, [], reply) == ZipBind(params, args, j, bound, reply)
      decreases |params| + |args| - j
    {
      if j >= |params| {
        return reply;
      } else if j >= |args| {
        if params[j].optional {
          bound := bound + [None];
        } else {
          return reply;
        }
      } else if params[j].kind == Case || params[j].kind == Find {
        return Raised(RescueNotImplemented);
      } else if params[j].kind == Rat {
        return Raised(RatNotImplemented);
      } else {
        bound := bound + [Some(args[j])];
      }
      j := j + 1;
    }
    r := Called(bound);
  }

  predicate AllWords(params: seq<Param>)
  {
    forall j :: 0 <= j < |params| ==> params[j].kind == Word
  }

  function Somes(args: seq<string>): (r: seq<Option<string>>)
    ensures |r| == |args| && forall i :: 0 <= i < |args| ==> r[i] == Some(args[i])
  {
    seq(|args|, i requires 0 <= i < |args| => Some(args[i]))
  }

  function Nones(n: nat): (r: seq<Option<string>>)
    ensures |r| == n && forall i :: 0 <= i < n ==> r[i] == None
  {
    seq(n, i => None)
  }

  /** With WORD parameters only: more arguments than parameters, or an
      omitted mandatory parameter, gives the usage reply; otherwise the
      arguments are passed verbatim and in order, then None for each omitted
      optional parameter. */
  lemma {:induction false} ZipBindWords(params: seq<Param>, args: seq<string>, j: nat, acc: seq<Option<string>>, reply: Invocation)
    requires AllWords(params) && j <= |args| && j <= |params|
    ensures |args| > |params| ==> ZipBind(params, args, j, acc, reply) == reply
    ensures |args| <= |params| && (exists k :: |args| <= k < |params| && k >= j && !params[k].optional) ==>
      ZipBind(params, args, j, acc, reply) == reply
    ensures |args| <= |params| && (forall k :: |args| <= k < |params| ==> params[k].optional) ==>
      ZipBind(params, args, j, acc, reply) == Called(acc + Somes(args[j..]) + Nones(|params| - |args|))
    decreases |params| + |args| - j
  {
    if j < |args| && j < |params| {
      ZipBindWords(params, args, j + 1, acc + [Some(args[j])], reply);
      assert [Some(args[j])] + Somes(args[j + 1..]) == Somes(args[j..]);
    } else if j == |args| {
      ZipBindOptional(params, args, j, acc, reply);
      assert acc + Somes(args[j..]) == acc;
    }
  }

  /** Past the last argument: the remaining parameters are optional ones,
      bound to None, up to the first mandatory one. */
  lemma {:induction false} ZipBindOptional(params: seq<Param>, args: seq<string>, j: nat, acc: seq<Option<string>>, reply: Invocation)
    requires |args| <= j <= |params|
    ensures (exists k :: j <= k < |params| && !params[k].optional) ==> ZipBind(params, args, j, acc, reply) == reply
    ensures (forall k :: j <= k < |params| ==> params[k].optional) ==>
      ZipBind(params, args, j, acc, reply) == Called(acc + Nones(|params| - j))
    decreases |params| - j
  {
    if j < |params| {
      ZipBindOptional(params, args, j + 1, acc + [None], reply);
      assert acc + [None] + Nones(|params| - (j + 1)) == acc + Nones(|params| - j);
    } else {
      assert acc + Nones(0) == acc;
    }
  }

  /** "ww?" on "!cmd arg" binds the argument and None; two mandatory words
      with one or three arguments give the usage reply. */
  lemma ParametrizedExamples()
    ensures ZipBind([Param(Word, false, false), Param(Word, false, true)], ["arg"], 0, [], UsageReply("u")) ==
      Called([Some("arg"), None])
    ensures ZipBind([Param(Word, false, false), Param(Word, false, false)], ["wobbly"], 0, [], UsageReply("u")) == UsageReply("u")
    ensures ZipBind([Param(Word, false, false), Param(Word, false, false)], ["wobbly", "timey", "wimey"], 0, [], UsageReply("u")) ==
      UsageReply("u")
  {
  }
}
