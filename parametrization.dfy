/** The `parametrize` decorator of Modules/parametrization.py: a cursor over
    a message's words (`_ArgumentProvider`) and the loop that binds WORD and
    TEXT parameters to arguments or answers with the usage text. */
module Parametrization {
  import opened Values
  import opened RatCommand

  // --- the argument cursor --------------------------------------------------

  /** The cursor's position: the next word to hand out and whether the
      arguments are exhausted. */
  datatype ProviderState = ProviderState(index: nat, atEnd: bool)

  /** A fresh cursor starts after the command word and is not at the end,
      even when the message has no arguments. */
  const Initial := ProviderState(1, false)

  const NoArgumentsLeft := ValueError("no arguments are left")

  /** `next_arg`: the word at the cursor, which then advances and is at the
      end once it has passed the last word. */
  function NextArgStep(words: seq<string>, st: ProviderState): (r: (Result<string, Exc>, ProviderState))
    ensures r.0.Ok? <==> !st.atEnd && st.index < |words|
    ensures r.0.Err? ==> r.1 == st
    ensures r.0.Ok? ==> r.0.value == words[st.index] && r.1.index == st.index + 1 && (r.1.atEnd <==> r.1.index >= |words|)
  {
    if st.atEnd then (Err(NoArgumentsLeft), st)
    else if st.index >= |words| then (Err(IndexError), st)
    else (Ok(words[st.index]), ProviderState(st.index + 1, st.index + 1 >= |words|))
  }

  /** `next_arg_eol`: the rest of the line from the cursor on; the cursor is
      marked exhausted (before the lookup) and does not advance. */
  function NextArgEolStep(wordsEol: seq<string>, st: ProviderState): (r: (Result<string, Exc>, ProviderState))
    ensures r.0.Ok? <==> !st.atEnd && st.index < |wordsEol|
    ensures r.0.Ok? ==> r.0.value == wordsEol[st.index]
    ensures r.1.atEnd && r.1.index == st.index
  {
    if st.atEnd then (Err(NoArgumentsLeft), st)
    else if st.index >= |wordsEol| then (Err(IndexError), st.(atEnd := true))
    else (Ok(wordsEol[st.index]), st.(atEnd := true))
  }

  /** A cursor whose end flag agrees with its index. */
  predicate Consistent(words: seq<string>, st: ProviderState)
  {
    1 <= st.index <= |words| && (st.atEnd <==> st.index == |words|)
  }

  /** A fresh cursor is consistent exactly when there is an argument. */
  lemma InitialConsistent(words: seq<string>)
    ensures Consistent(words, Initial) <==> |words| >= 2
  {
  }

  /** On a consistent cursor `next_arg` fails exactly at the end, and
      otherwise hands out the next word and stays consistent. */
  lemma NextArgConsistent(words: seq<string>, st: ProviderState)
    requires Consistent(words, st)
    ensures NextArgStep(words, st).0.Err? <==> st.atEnd
    ensures st.atEnd ==> NextArgStep(words, st) == (Err(NoArgumentsLeft), st)
    ensures !st.atEnd ==> (NextArgStep(words, st).0 == Ok(words[st.index]) &&
                           NextArgStep(words, st).1.index == st.index + 1 &&
                           Consistent(words, NextArgStep(words, st).1))
  {
  }

  /** `k` successive `next_arg` calls. */
  function Drain(words: seq<string>, st: ProviderState, k: nat): (seq<Result<string, Exc>>, ProviderState)
    decreases k
  {
    if k == 0 then ([], st)
    else
      var (r, st') := NextArgStep(words, st);
      var (rest, last) := Drain(words, st', k - 1);
      ([r] + rest, last)
  }

  function Oks(args: seq<string>): (r: seq<Result<string, Exc>>)
    ensures |r| == |args| && forall i :: 0 <= i < |args| ==> r[i] == Ok(args[i])
  {
    seq(|args|, i requires 0 <= i < |args| => Ok(args[i]))
  }

  /** From a consistent cursor, the remaining words come out in order and
      leave the cursor at the end. */
  lemma {:induction false} DrainRemaining(words: seq<string>, st: ProviderState)
    requires Consistent(words, st)
    ensures Drain(words, st, |words| - st.index) == (Oks(words[st.index..]), ProviderState(|words|, true))
    decreases |words| - st.index
  {
    if st.index < |words| {
      var st' := ProviderState(st.index + 1, st.index + 1 >= |words|);
      DrainRemaining(words, st');
      assert [Ok(words[st.index])] + Oks(words[st.index + 1..]) == Oks(words[st.index..]);
    }
  }

  /** A message with arguments: `next_arg` returns `words[1]`, `words[2]`, …
      in order, and one call more raises ValueError. */
  lemma ArgumentsInOrder(words: seq<string>)
    requires |words| >= 2
    ensures Drain(words, Initial, |words| - 1) == (Oks(words[1..]), ProviderState(|words|, true))
    ensures NextArgStep(words, ProviderState(|words|, true)).0 == Err(NoArgumentsLeft)
  {
    DrainRemaining(words, Initial);
  }

  /** A message without arguments: the cursor does not start at the end,
      so the first `next_arg` indexes past the words. */
  lemma NoArgumentsIndexError(words: seq<string>)
    requires |words| <= 1
    ensures !Initial.atEnd
    ensures NextArgStep(words, Initial) == (Err(IndexError), Initial)
  {
  }

  /** `_ArgumentProvider` over a context's `words` and `words_eol`. */
  class ArgumentProvider {
    const words: seq<string>
    const wordsEol: seq<string>
    var index: nat
    var atEnd: bool

    function State(): ProviderState
      reads this
    {
      ProviderState(index, atEnd)
    }

    constructor (words: seq<string>, wordsEol: seq<string>)
      ensures this.words == words && this.wordsEol == wordsEol
      ensures State() == Initial
    {
      this.words := words;
      this.wordsEol := wordsEol;
      index := 1;
      atEnd := false;
    }

    method NextArg() returns (r: Result<string, Exc>)
      modifies this
      ensures (r, State()) == NextArgStep(words, old(State()))
    {
      if atEnd {
        return Err(NoArgumentsLeft);
      }
      if index >= |words| {
        return Err(IndexError);
      }
      r := Ok(words[index]);
      index := index + 1;
      if index >= |words| {
        atEnd := true;
      }
    }

    method NextArgEol() returns (r: Result<string, Exc>)
      modifies this
      ensures (r, State()) == NextArgEolStep(wordsEol, old(State()))
    {
      if atEnd {
        return Err(NoArgumentsLeft);
      }
      atEnd := true;
      if index >= |wordsEol| {
        return Err(IndexError);
      }
      r := Ok(wordsEol[index]);
    }

    /** `__next__`: None stands for StopIteration. */
    method Next() returns (r: Option<Result<string, Exc>>)
      modifies this
      ensures old(atEnd) ==> r == None && State() == old(State())
      ensures !old(atEnd) ==> r.Some? && (r.value, State()) == NextArgStep(words, old(State()))
    {
      if atEnd {
        return None;
      }
      var a := NextArg();
      r := Some(a);
    }
  }

  // --- parameters ----------------------------------------------------------

  datatype ParamKind = WordParam | TextParam

  datatype AbstractParam = AbstractParam(kind: ParamKind, optional: bool)

  function UsageName(kind: ParamKind): string
  {
    match kind
    case WordParam => "word"
    case TextParam => "text"
  }

  /** `_AbstractParam.__str__`: the usage name in square brackets when
      optional, in angle brackets otherwise. */
  function ParamStr(p: AbstractParam): (r: string)
    ensures |r| == |UsageName(p.kind)| + 2 && r[1..|r| - 1] == UsageName(p.kind)
    ensures r[0] == '[' <==> p.optional
    ensures r[|r| - 1] == ']' <==> p.optional
    ensures r[0] == '<' <==> !p.optional
    ensures r[|r| - 1] == '>' <==> !p.optional
  {
    if p.optional then "[" + UsageName(p.kind) + "]" else "<" + UsageName(p.kind) + ">"
  }

  // --- the wrapper loop ----------------------------------------------------

  /** Where the loop over the parameters ends: it runs out of parameters or
      breaks on DONE (with the cursor and the arguments bound so far), or
      returns early. */
  datatype LoopEnd = Finished(st: ProviderState, acc: seq<Option<string>>) | Returned(inv: Invocation)

  /** The loop from the `i`-th parameter on. */
  function BindFrom(params: seq<AbstractParam>, i: nat, st: ProviderState, acc: seq<Option<string>>,
                    words: seq<string>, wordsEol: seq<string>, reply: Invocation): (r: LoopEnd)
    ensures r.Returned? ==> r.inv == reply || r.inv.Raised?
    decreases |params| - i
  {
    if i >= |params| then Finished(st, acc)
    else if st.atEnd then
      if params[i].optional then BindFrom(params, i + 1, st, acc + [None], words, wordsEol, reply)
      else Returned(reply)
    else if params[i].kind == WordParam then
      var (a, st') := NextArgStep(words, st);
      if a.Err? then Returned(Raised(a.error))
      else BindFrom(params, i + 1, st', acc + [Some(a.value)], words, wordsEol, reply)
    else
      var (a, st') := NextArgEolStep(wordsEol, st);
      if a.Err? then Returned(Raised(a.error)) else Finished(st', acc + [Some(a.value)])
  }

  /** The loop binds at most one argument per remaining parameter, after
      the ones already bound, and exactly one each when all are words. */
  lemma {:induction false} BindFromArgs(params: seq<AbstractParam>, i: nat, st: ProviderState, acc: seq<Option<string>>,
                                        words: seq<string>, wordsEol: seq<string>, reply: Invocation)
    requires i <= |params|
    ensures var r := BindFrom(params, i, st, acc, words, wordsEol, reply);
      r.Finished? ==> |acc| <= |r.acc| <= |acc| + |params| - i && r.acc[..|acc|] == acc
    ensures var r := BindFrom(params, i, st, acc, words, wordsEol, reply);
      r.Finished? && (forall k :: i <= k < |params| ==> params[k].kind == WordParam) ==> |r.acc| == |acc| + |params| - i
    decreases |params| - i
  {
    if i < |params| {
      if st.atEnd {
        if params[i].optional {
          BindFromArgs(params, i + 1, st, acc + [None], words, wordsEol, reply);
          assert (acc + [None])[..|acc|] == acc;
        }
      } else if params[i].kind == WordParam {
        var (a, st') := NextArgStep(words, st);
        if a.Ok? {
          BindFromArgs(params, i + 1, st', acc + [Some(a.value)], words, wordsEol, reply);
          assert (acc + [Some(a.value)])[..|acc|] == acc;
        }
      }
    }
  }

  /** The text of `usage`, which defaults to None. */
  function UsageText(usage: Option<string>): string
  {
    if usage.Some? then usage.value else "None"
  }

  /** What the wrapped command does with a message. */
  function Bind(params: seq<AbstractParam>, words: seq<string>, wordsEol: seq<string>, prefix: string, usage: Option<string>): (r: Invocation)
    ensures r.Called? ==> |r.args| <= |params|
    ensures r.Called? && (forall k :: 0 <= k < |params| ==> params[k].kind == WordParam) ==> |r.args| == |params|
  {
    var reply := UsageReplyFor(prefix, words, UsageText(usage));
    BindFromArgs(params, 0, Initial, [], words, wordsEol, reply);
    match BindFrom(params, 0, Initial, [], words, wordsEol, reply)
    case Returned(inv) => inv
    case Finished(st, acc) => if st.atEnd then Called(acc) else reply
  }

  /** The `wrapper` coroutine `parametrize` builds. */
  method Wrapper(params: seq<AbstractParam>, words: seq<string>, wordsEol: seq<string>, prefix: string, usage: Option<string>)
    returns (r: Invocation)
    ensures r == Bind(params, words, wordsEol, prefix, usage)
  {
    var reply := UsageReplyFor(prefix, words, UsageText(usage));
    var state := new ArgumentProvider(words, wordsEol);
    var targetArgs: seq<Option<string>> := [];
    ghost var spec := BindFrom(params, 0, Initial, [], words, wordsEol, reply);
    var i := 0;
    while i < |params|
      invariant 0 <= i <= |params|
      invariant state.words == words && state.wordsEol == wordsEol
      invariant spec == BindFrom(params, i, state.State(), targetArgs, words, wordsEol, reply)
    {
      var param := params[i];
      if state.atEnd {
        if param.optional {
          targetArgs := targetArgs + [None];
          i := i + 1;
          continue;
        } else {
          return reply;
        }
      }
      if param.kind == WordParam {
        var a := state.NextArg();
        if a.Err? {
          return Raised(a.error);
        }
        targetArgs := targetArgs + [Some(a.value)];
        i := i + 1;
      } else {
        var a := state.NextArgEol();
        if a.Err? {
          return Raised(a.error);
        }
        targetArgs := targetArgs + [Some(a.value)];
        assert spec == Finished(state.State(), targetArgs);
        break;
      }
    }
    assert spec == Finished(state.State(), targetArgs);
    if !state.atEnd {
      return reply;
    }
    r := Called(targetArgs);
  }

  predicate AllWordParams(params: seq<AbstractParam>)
  {
    forall j :: 0 <= j < |params| ==> params[j].kind == WordParam
  }

  /** An exhausted cursor: the remaining parameters bind None up to the
      first mandatory one, which gives the usage reply. */
  lemma {:induction false} BindAtEnd(params: seq<AbstractParam>, i: nat, st: ProviderState, acc: seq<Option<string>>,
                                     words: seq<string>, wordsEol: seq<string>, reply: Invocation)
    requires i <= |params| && st.atEnd
    ensures (exists k :: i <= k < |params| && !params[k].optional) ==>
      BindFrom(params, i, st, acc, words, wordsEol, reply) == Returned(reply)
    ensures (forall k :: i <= k < |params| ==> params[k].optional) ==>
      BindFrom(params, i, st, acc, words, wordsEol, reply) == Finished(st, acc + Nones(|params| - i))
    decreases |params| - i
  {
    if i < |params| {
      BindAtEnd(params, i + 1, st, acc + [None], words, wordsEol, reply);
      assert acc + [None] + Nones(|params| - (i + 1)) == acc + Nones(|params| - i);
    } else {
      assert acc + Nones(0) == acc;
    }
  }

  /** A WORD parameter on a cursor with words left takes the next one. */
  lemma BindWordStep(params: seq<AbstractParam>, i: nat, st: ProviderState, acc: seq<Option<string>>,
                     words: seq<string>, wordsEol: seq<string>, reply: Invocation)
    requires i < |params| && params[i].kind == WordParam && Consistent(words, st) && !st.atEnd
    ensures BindFrom(params, i, st, acc, words, wordsEol, reply) ==
      BindFrom(params, i + 1, ProviderState(st.index + 1, st.index + 1 == |words|), acc + [Some(words[st.index])], words, wordsEol, reply)
  {
  }

  /** More words than WORD parameters: each parameter takes one, and the
      cursor is left before the surplus. */
  lemma {:induction false} BindWordsSurplus(params: seq<AbstractParam>, i: nat, st: ProviderState, acc: seq<Option<string>>,
                                            words: seq<string>, wordsEol: seq<string>, reply: Invocation)
    requires AllWordParams(params) && i <= |params| && Consistent(words, st)
    requires |words| - st.index > |params| - i
    ensures BindFrom(params, i, st, acc, words, wordsEol, reply) ==
      Finished(ProviderState(st.index + |params| - i, false), acc + Somes(words[st.index..st.index + |params| - i]))
    decreases |params| - i
  {
    if i < |params| {
      var st' := ProviderState(st.index + 1, st.index + 1 == |words|);
      var x := Some(words[st.index]);
      BindWordStep(params, i, st, acc, words, wordsEol, reply);
      BindWordsSurplus(params, i + 1, st', acc + [x], words, wordsEol, reply);
      assert [x] + Somes(words[st.index + 1..st.index + |params| - i]) == Somes(words[st.index..st.index + |params| - i]);
      assert acc + [x] + Somes(words[st.index + 1..st.index + |params| - i]) == acc + Somes(words[st.index..st.index + |params| - i]);
    } else {
      assert acc + Somes([]) == acc;
    }
  }

  /** At most as many words as WORD parameters: the first parameters take
      all the words, and the cursor ends exhausted. */
  lemma {:induction false} BindWordsConsumed(params: seq<AbstractParam>, i: nat, st: ProviderState, acc: seq<Option<string>>,
                                             words: seq<string>, wordsEol: seq<string>, reply: Invocation)
    requires AllWordParams(params) && i <= |params| && Consistent(words, st)
    requires |words| - st.index <= |params| - i
    ensures BindFrom(params, i, st, acc, words, wordsEol, reply) ==
      BindFrom(params, i + |words| - st.index, ProviderState(|words|, true), acc + Somes(words[st.index..]), words, wordsEol, reply)
    decreases |params| - i
  {
    if st.atEnd {
      assert acc + Somes(words[st.index..]) == acc;
    } else {
      var st' := ProviderState(st.index + 1, st.index + 1 == |words|);
      var x := Some(words[st.index]);
      BindWordStep(params, i, st, acc, words, wordsEol, reply);
      BindWordsConsumed(params, i + 1, st', acc + [x], words, wordsEol, reply);
      assert [x] + Somes(words[st.index + 1..]) == Somes(words[st.index..]);
      assert acc + [x] + Somes(words[st.index + 1..]) == acc + Somes(words[st.index..]);
    }
  }

  /** A message with arguments and WORD parameters only: surplus arguments
      or an omitted mandatory parameter give the usage reply and the command
      is not called; otherwise it receives the arguments verbatim, in order,
      followed by None for each omitted optional parameter. */
  lemma BindWords(params: seq<AbstractParam>, words: seq<string>, wordsEol: seq<string>, prefix: string, usage: Option<string>)
    requires AllWordParams(params) && |words| >= 2
    ensures |words| - 1 > |params| ==>
      Bind(params, words, wordsEol, prefix, usage) == UsageReply(UsageMessage(prefix, words[0], UsageText(usage)))
    ensures |words| - 1 <= |params| && (exists k :: |words| - 1 <= k < |params| && !params[k].optional) ==>
      Bind(params, words, wordsEol, prefix, usage) == UsageReply(UsageMessage(prefix, words[0], UsageText(usage)))
    ensures |words| - 1 <= |params| && (forall k :: |words| - 1 <= k < |params| ==> params[k].optional) ==>
      Bind(params, words, wordsEol, prefix, usage) == Called(Somes(words[1..]) + Nones(|params| - (|words| - 1)))
  {
    var reply := UsageReplyFor(prefix, words, UsageText(usage));
    assert [] + Somes(words[1..]) == Somes(words[1..]);
    if |words| - 1 > |params| {
      BindWordsSurplus(params, 0, Initial, [], words, wordsEol, reply);
    } else {
      BindWordsConsumed(params, 0, Initial, [], words, wordsEol, reply);
      BindAtEnd(params, |words| - 1, ProviderState(|words|, true), Somes(words[1..]), words, wordsEol, reply);
    }
  }

  /** A TEXT parameter reached with arguments left takes the rest of the
      line and ends the binding: later parameters receive nothing. */
  lemma TextEndsBinding(params: seq<AbstractParam>, words: seq<string>, wordsEol: seq<string>, prefix: string, usage: Option<string>)
    requires |params| > 0 && params[0].kind == TextParam && |wordsEol| >= 2
    ensures Bind(params, words, wordsEol, prefix, usage) == Called([Some(wordsEol[1])])
  {
  }

  /** A message without arguments: any parameter, optional or not, raises
      IndexError, and a command without parameters gets the usage reply. */
  lemma NoArguments(params: seq<AbstractParam>, words: seq<string>, wordsEol: seq<string>, prefix: string, usage: Option<string>)
    requires |words| == 1 && |wordsEol| == 1
    ensures params != [] ==> Bind(params, words, wordsEol, prefix, usage) == Raised(IndexError)
    ensures params == [] ==> Bind(params, words, wordsEol, prefix, usage) == UsageReply(UsageMessage(prefix, words[0], UsageText(usage)))
  {
  }

  /** `(WordParam(), TextParam())` on "!test wibbly wobbly timey wimey". */
  lemma WordThenTextExample()
    ensures Bind([AbstractParam(WordParam, false), AbstractParam(TextParam, false)],
                 ["test", "wibbly", "wobbly", "timey", "wimey"],
                 ["test wibbly wobbly timey wimey", "wibbly wobbly timey wimey", "wobbly timey wimey", "timey wimey", "wimey"],
                 "!", None) == Called([Some("wibbly"), Some("wobbly timey wimey")])
  {
  }

  /** `(TextParam(), WordParam())` on "!test one two": the command receives
      only the text, not a second word. */
  lemma TextThenWordExample()
    ensures Bind([AbstractParam(TextParam, false), AbstractParam(WordParam, false)],
                 ["test", "one", "two"], ["test one two", "one two", "two"], "!", None) == Called([Some("one two")])
  {
  }
}
