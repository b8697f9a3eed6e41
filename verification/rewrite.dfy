/** The walk the patcher performs over a generation result, parameterised by
    what it does to each `arguments` value it reaches.  The patch itself is one
    instance; `Erase`, which blanks every such value, is another and serves to
    say "everything except the arguments". */
module Rewrite {
  import opened Wrappers
  import opened Json
  import opened Generations

  /** One tool call: rewrites `function.arguments` when both keys are present. */
  function RewriteToolCall(f: JVal -> JVal, tc: JVal): (r: JVal)
    ensures CallArguments(r) == CallArguments(tc).Map(f)
    ensures CallArguments(tc).None? ==> r == tc
  {
    if CallArguments(tc).Some? then
      var fn := tc.fields[FunctionKey].fields;
      JObj(tc.fields[FunctionKey := JObj(fn[ArgumentsKey := f(fn[ArgumentsKey])])])
    else tc
  }

  /** Every tool call of a list, in order. */
  function RewriteToolCalls(f: JVal -> JVal, calls: seq<JVal>): (r: seq<JVal>)
    ensures |r| == |calls|
    ensures forall k :: 0 <= k < |calls| ==> CallArguments(r[k]) == CallArguments(calls[k]).Map(f)
    ensures forall k :: 0 <= k < |calls| ==> r[k] == RewriteToolCall(f, calls[k])
  {
    seq(|calls|, k requires 0 <= k < |calls| => RewriteToolCall(f, calls[k]))
  }

  /** The additional fields: only a truthy `tool_calls` list is visited. */
  function RewriteKwargs(f: JVal -> JVal, kw: map<string, JVal>): (r: map<string, JVal>)
    ensures r.Keys == kw.Keys
    ensures forall key :: key in kw && key != ToolCallsKey ==> r[key] == kw[key]
    ensures ToolCallsKey in kw && kw[ToolCallsKey].JArr? && |kw[ToolCallsKey].items| > 0
            ==> r[ToolCallsKey] == JArr(RewriteToolCalls(f, kw[ToolCallsKey].items))
    ensures !(ToolCallsKey in kw && kw[ToolCallsKey].JArr? && |kw[ToolCallsKey].items| > 0) ==> r == kw
  {
    if ToolCallsKey in kw && kw[ToolCallsKey].JArr? && |kw[ToolCallsKey].items| > 0
    then kw[ToolCallsKey := JArr(RewriteToolCalls(f, kw[ToolCallsKey].items))]
    else kw
  }

  function RewriteMessage(f: JVal -> JVal, m: Message): (r: Message)
    ensures r.content == m.content
    ensures r.additionalKwargs.Some? <==> m.additionalKwargs.Some?
    ensures m.additionalKwargs.Some? ==> r.additionalKwargs.value == RewriteKwargs(f, m.additionalKwargs.value)
  {
    if m.additionalKwargs.Some?
    then m.(additionalKwargs := Some(RewriteKwargs(f, m.additionalKwargs.value)))
    else m
  }

  /** One generation: only one that carries a message is visited. */
  function RewriteGeneration(f: JVal -> JVal, g: Generation): (r: Generation)
    ensures r.text == g.text && r.generationInfo == g.generationInfo
    ensures r.message.Some? <==> g.message.Some?
    ensures |ToolCallsOf(r)| == |ToolCallsOf(g)|
    ensures forall k :: 0 <= k < |ToolCallsOf(g)| ==> ToolCallsOf(r)[k] == RewriteToolCall(f, ToolCallsOf(g)[k])
    ensures forall k: nat :: GenerationArguments(r, k) == GenerationArguments(g, k).Map(f)
    ensures ToolCallsOf(g) == [] ==> r == g
  {
    if g.message.Some? then g.(message := Some(RewriteMessage(f, g.message.value))) else g
  }

  function RewriteBatch(f: JVal -> JVal, batch: seq<Generation>): (r: seq<Generation>)
    ensures |r| == |batch|
  {
    seq(|batch|, i requires 0 <= i < |batch| => RewriteGeneration(f, batch[i]))
  }

  /** The whole result: every batch and every generation, in order. */
  function RewriteResult(f: JVal -> JVal, res: ChatResult): (r: ChatResult)
    ensures r.llmOutput == res.llmOutput
    ensures |r.generations| == |res.generations|
    ensures forall b :: 0 <= b < |res.generations| ==> |r.generations[b]| == |res.generations[b]|
    ensures forall b: nat, g: nat, k: nat :: ArgumentsAt(r, b, g, k) == ArgumentsAt(res, b, g, k).Map(f)
  {
    res.(generations := seq(|res.generations|, b requires 0 <= b < |res.generations| =>
                              RewriteBatch(f, res.generations[b])))
  }

  function Blank(v: JVal): JVal
  {
    JNull
  }

  /** The result with every `arguments` value replaced by null: what the
      patcher must leave alone. */
  function Erase(res: ChatResult): ChatResult
  {
    RewriteResult(Blank, res)
  }
}
