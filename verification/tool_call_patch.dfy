/** The patched client's post-processing: every tool call's `arguments` string
    is replaced by what the JSON parser makes of it, when it parses.  The
    parser is a parameter; `None` stands for a decoding error. */
module ToolCallPatch {
  import opened Wrappers
  import opened Json
  import opened Generations
  import opened Rewrite
  import opened RewriteLemmas

  /** The rule for one `arguments` value: a string that parses becomes the
      parsed value; anything else, including a string that fails to parse,
      stays as it is. */
  function NormaliseArguments(parse: string -> Option<JVal>, args: JVal): (r: JVal)
    ensures !args.JStr? ==> r == args
    ensures args.JStr? ==> Some(r) == parse(args.s) || (parse(args.s).None? && r == args)
    ensures Settled(parse, args) <==> r == args
  {
    if args.JStr? && parse(args.s).Some? then parse(args.s).value else args
  }

  function NormaliseSlot(parse: string -> Option<JVal>, slot: Option<JVal>): Option<JVal>
  {
    match slot
    case None => None
    case Some(v) => Some(NormaliseArguments(parse, v))
  }

  /** Every `arguments` position of `after` holds the normalised value of the
      same position of `before`, and the positions are the same. */
  ghost predicate SlotsNormalised(parse: string -> Option<JVal>, before: ChatResult, after: ChatResult)
  {
    forall b: nat, g: nat, k: nat ::
      ArgumentsAt(after, b, g, k) == NormaliseSlot(parse, ArgumentsAt(before, b, g, k))
  }

  /** An `arguments` value the pass does not change. */
  predicate Settled(parse: string -> Option<JVal>, v: JVal)
  {
    !v.JStr? || parse(v.s).None? || parse(v.s) == Some(v)
  }

  ghost predicate AllSettled(parse: string -> Option<JVal>, res: ChatResult)
  {
    forall b: nat, g: nat, k: nat ::
      ArgumentsAt(res, b, g, k).Some? ==> Settled(parse, ArgumentsAt(res, b, g, k).value)
  }

  /** The pass over the delegate's result.  It changes the arguments values
      only, each according to `NormaliseArguments`. */
  function Normalise(parse: string -> Option<JVal>, res: ChatResult): (r: ChatResult)
    ensures r.llmOutput == res.llmOutput && |r.generations| == |res.generations|
    ensures Erase(r) == Erase(res)
    ensures SlotsNormalised(parse, res, r)
  {
    var f := (a: JVal) => NormaliseArguments(parse, a);
    ResultComposes(f, Blank, Blank, res);
    RewriteResult(f, res)
  }

  /** The blocking entry point, applied to what the delegated call returned. */
  function Generate(parse: string -> Option<JVal>, delegated: ChatResult): (r: ChatResult)
    ensures r.llmOutput == delegated.llmOutput && |r.generations| == |delegated.generations|
    ensures Erase(r) == Erase(delegated)
    ensures SlotsNormalised(parse, delegated, r)
  {
    Normalise(parse, delegated)
  }

  /** The suspending entry point: the same pass over its delegate's result. */
  function AGenerate(parse: string -> Option<JVal>, delegated: ChatResult): (r: ChatResult)
    ensures r.llmOutput == delegated.llmOutput && |r.generations| == |delegated.generations|
    ensures Erase(r) == Erase(delegated)
    ensures SlotsNormalised(parse, delegated, r)
  {
    Normalise(parse, delegated)
  }

  /** The two properties of `Normalise` characterise it: any result with the
      same erasure and normalised arguments is the one `Normalise` returns. */
  lemma NormaliseCharacterised(parse: string -> Option<JVal>, res: ChatResult, out: ChatResult)
    ensures out == Normalise(parse, res) <==> (Erase(out) == Erase(res) && SlotsNormalised(parse, res, out))
  {
    if Erase(out) == Erase(res) && SlotsNormalised(parse, res, out) {
      var n := Normalise(parse, res);
      forall b: nat, g: nat, k: nat
        ensures ArgumentsAt(out, b, g, k) == ArgumentsAt(n, b, g, k)
      {
      }
      ResultDetermined(out, n);
    }
  }

  /** A string that parses is replaced by exactly the parsed value. */
  lemma ParsedStringReplaced(parse: string -> Option<JVal>, res: ChatResult, b: nat, g: nat, k: nat, s: string, v: JVal)
    requires ArgumentsAt(res, b, g, k) == Some(JStr(s))
    requires parse(s) == Some(v)
    ensures ArgumentsAt(Normalise(parse, res), b, g, k) == Some(v)
  {
  }

  /** A string that fails to parse stays the identical string. */
  lemma UnparsableStringKept(parse: string -> Option<JVal>, res: ChatResult, b: nat, g: nat, k: nat, s: string)
    requires ArgumentsAt(res, b, g, k) == Some(JStr(s))
    requires parse(s).None?
    ensures ArgumentsAt(Normalise(parse, res), b, g, k) == Some(JStr(s))
  {
  }

  /** An arguments value that is already structured is left alone. */
  lemma NonStringKept(parse: string -> Option<JVal>, res: ChatResult, b: nat, g: nat, k: nat, v: JVal)
    requires ArgumentsAt(res, b, g, k) == Some(v)
    requires !v.JStr?
    ensures ArgumentsAt(Normalise(parse, res), b, g, k) == Some(v)
  {
  }

  /** A generation the pass has nothing to visit in (no message, no
      additional fields, no `tool_calls`, or an empty list) comes back whole. */
  lemma GenerationWithoutToolCallsKept(parse: string -> Option<JVal>, res: ChatResult, b: nat, g: nat)
    requires b < |res.generations| && g < |res.generations[b]|
    requires ToolCallsOf(res.generations[b][g]) == []
    ensures Normalise(parse, res).generations[b][g] == res.generations[b][g]
  {
    var f := (a: JVal) => NormaliseArguments(parse, a);
    assert Normalise(parse, res).generations[b][g] == RewriteGeneration(f, res.generations[b][g]);
  }

  /** A tool call without a `function` mapping holding `arguments` comes back
      whole, and it keeps its position. */
  lemma ToolCallWithoutArgumentsKept(parse: string -> Option<JVal>, res: ChatResult, b: nat, g: nat, k: nat)
    requires b < |res.generations| && g < |res.generations[b]|
    requires k < |ToolCallsOf(res.generations[b][g])|
    requires CallArguments(ToolCallsOf(res.generations[b][g])[k]).None?
    ensures k < |ToolCallsOf(Normalise(parse, res).generations[b][g])|
    ensures ToolCallsOf(Normalise(parse, res).generations[b][g])[k] == ToolCallsOf(res.generations[b][g])[k]
  {
    var f := (a: JVal) => NormaliseArguments(parse, a);
    var gen := res.generations[b][g];
    assert Normalise(parse, res).generations[b][g] == RewriteGeneration(f, gen);
    var kw := gen.message.value.additionalKwargs.value;
    if |kw[ToolCallsKey].items| > 0 {
      assert ToolCallsOf(RewriteGeneration(f, gen)) == RewriteToolCalls(f, ToolCallsOf(gen));
    }
  }

  /** The number and order of batches, generations and tool calls, and every
      field outside the arguments values, are preserved. */
  lemma ShapePreserved(parse: string -> Option<JVal>, res: ChatResult)
    ensures var out := Normalise(parse, res);
      && out.llmOutput == res.llmOutput
      && |out.generations| == |res.generations|
      && (forall b :: 0 <= b < |res.generations| ==>
            |out.generations[b]| == |res.generations[b]|
            && forall i :: 0 <= i < |res.generations[b]| ==>
                 out.generations[b][i].text == res.generations[b][i].text
                 && out.generations[b][i].generationInfo == res.generations[b][i].generationInfo
                 && |ToolCallsOf(out.generations[b][i])| == |ToolCallsOf(res.generations[b][i])|
                 && forall k :: 0 <= k < |ToolCallsOf(res.generations[b][i])| ==>
                      RewriteToolCall(Blank, ToolCallsOf(out.generations[b][i])[k])
                      == RewriteToolCall(Blank, ToolCallsOf(res.generations[b][i])[k]))
  {
    var f := (a: JVal) => NormaliseArguments(parse, a);
    var out := Normalise(parse, res);
    forall b, i, k | 0 <= b < |res.generations| && 0 <= i < |res.generations[b]|
                     && 0 <= k < |ToolCallsOf(res.generations[b][i])|
      ensures RewriteToolCall(Blank, ToolCallsOf(out.generations[b][i])[k])
              == RewriteToolCall(Blank, ToolCallsOf(res.generations[b][i])[k])
    {
      assert out.generations[b][i] == RewriteGeneration(f, res.generations[b][i]);
      ToolCallComposes(f, Blank, Blank, ToolCallsOf(res.generations[b][i])[k]);
    }
  }

  /** The pass is the identity exactly when every arguments value is settled:
      not a string, a string that fails to parse, or (for a parser that can
      return its own input) a string that parses to itself. */
  lemma FixedPointIff(parse: string -> Option<JVal>, res: ChatResult)
    ensures Normalise(parse, res) == res <==> AllSettled(parse, res)
  {
    var out := Normalise(parse, res);
    if AllSettled(parse, res) {
      forall b: nat, g: nat, k: nat
        ensures ArgumentsAt(out, b, g, k) == ArgumentsAt(res, b, g, k)
      {
      }
      ResultDetermined(out, res);
    }
    if out == res {
      forall b: nat, g: nat, k: nat | ArgumentsAt(res, b, g, k).Some?
        ensures Settled(parse, ArgumentsAt(res, b, g, k).value)
      {
        assert ArgumentsAt(out, b, g, k) == NormaliseSlot(parse, ArgumentsAt(res, b, g, k));
      }
    }
  }

  /** When the parser never returns a bare string, a second pass changes nothing. */
  lemma IdempotentWithoutStringResults(parse: string -> Option<JVal>, res: ChatResult)
    requires forall s :: parse(s).Some? ==> !parse(s).value.JStr?
    ensures Normalise(parse, Normalise(parse, res)) == Normalise(parse, res)
  {
    var f := (a: JVal) => NormaliseArguments(parse, a);
    ResultComposes(f, f, f, res);
    ResultComposes(f, Blank, Blank, res);
    ResultComposes(f, Blank, Blank, RewriteResult(f, res));
  }

  /** A parser standing in for `json.loads` on two inputs: the JSON text of a
      string literal decodes to that string, and `{}` to an empty mapping. */
  function QuotedBracesParser(s: string): Option<JVal>
  {
    if s == "\"{}\"" then Some(JStr("{}"))
    else if s == "{}" then Some(JObj(map[]))
    else None
  }

  /** A result with one tool call whose arguments are the given value. */
  function SingleCallResult(args: JVal): ChatResult
  {
    var call := JObj(map[FunctionKey := JObj(map[ArgumentsKey := args])]);
    var kwargs := map[ToolCallsKey := JArr([call])];
    ChatResult([[Generation("", Some(Message("", Some(kwargs))), map[])]], map[])
  }

  /** The pass is not idempotent in general: arguments that decode to a
      string are decoded again by a second pass. */
  lemma SecondPassCanDiffer()
    ensures var once := Normalise(QuotedBracesParser, SingleCallResult(JStr("\"{}\"")));
      && ArgumentsAt(once, 0, 0, 0) == Some(JStr("{}"))
      && ArgumentsAt(Normalise(QuotedBracesParser, once), 0, 0, 0) == Some(JObj(map[]))
      && Normalise(QuotedBracesParser, once) != once
  {
    var res := SingleCallResult(JStr("\"{}\""));
    assert ArgumentsAt(res, 0, 0, 0) == Some(JStr("\"{}\""));
    var once := Normalise(QuotedBracesParser, res);
    assert ArgumentsAt(once, 0, 0, 0) == Some(JStr("{}"));
  }

  /** The blocking and suspending entry points transform a result alike. */
  lemma SyncAsyncAgree(parse: string -> Option<JVal>, delegated: ChatResult)
    ensures Generate(parse, delegated) == AGenerate(parse, delegated)
  {
    NormaliseCharacterised(parse, delegated, Generate(parse, delegated));
    NormaliseCharacterised(parse, delegated, AGenerate(parse, delegated));
  }
}
