/** The generation result a chat call returns, and the places in it where a
    tool call's `function.arguments` value lives. */
module Generations {
  import opened Wrappers
  import opened Json

  const ToolCallsKey: string := "tool_calls"
  const FunctionKey: string := "function"
  const ArgumentsKey: string := "arguments"

  /** A message: its text and, when the object has them, its additional fields. */
  datatype Message = Message(content: string, additionalKwargs: Option<map<string, JVal>>)

  /** One candidate generation; `message` is absent for plain-text generations. */
  datatype Generation = Generation(text: string, message: Option<Message>, generationInfo: map<string, JVal>)

  /** The delegate's result: batches of generations plus provider output. */
  datatype ChatResult = ChatResult(generations: seq<seq<Generation>>, llmOutput: map<string, JVal>)

  /** The `arguments` value of a tool call, when the call is a mapping with a
      `function` mapping that has an `arguments` key. */
  function CallArguments(tc: JVal): (r: Option<JVal>)
    ensures !tc.JObj? || FunctionKey !in tc.fields ==> r.None?
    ensures r.Some? ==> tc.fields[FunctionKey].JObj? && ArgumentsKey in tc.fields[FunctionKey].fields
    ensures r.Some? ==> r.value == tc.fields[FunctionKey].fields[ArgumentsKey]
    ensures (tc.JObj? && FunctionKey in tc.fields && tc.fields[FunctionKey].JObj?
             && ArgumentsKey in tc.fields[FunctionKey].fields) ==> r.Some?
  {
    if tc.JObj? && FunctionKey in tc.fields && tc.fields[FunctionKey].JObj?
       && ArgumentsKey in tc.fields[FunctionKey].fields
    then Some(tc.fields[FunctionKey].fields[ArgumentsKey])
    else None
  }

  /** The tool calls the pass visits in one generation: the non-empty list
      under `tool_calls` of a present message's additional fields, else none. */
  function ToolCallsOf(g: Generation): (r: seq<JVal>)
    ensures g.message.None? ==> r == []
    ensures g.message.Some? && g.message.value.additionalKwargs.None? ==> r == []
    ensures r != [] ==> ToolCallsKey in g.message.value.additionalKwargs.value
                        && g.message.value.additionalKwargs.value[ToolCallsKey] == JArr(r)
    ensures (g.message.Some? && g.message.value.additionalKwargs.Some?
             && ToolCallsKey in g.message.value.additionalKwargs.value
             && g.message.value.additionalKwargs.value[ToolCallsKey].JArr?)
            ==> r == g.message.value.additionalKwargs.value[ToolCallsKey].items
  {
    if g.message.Some? && g.message.value.additionalKwargs.Some?
       && ToolCallsKey in g.message.value.additionalKwargs.value
       && g.message.value.additionalKwargs.value[ToolCallsKey].JArr?
    then g.message.value.additionalKwargs.value[ToolCallsKey].items
    else []
  }

  /** The `arguments` value of tool call `k` of a generation, if it has one. */
  function GenerationArguments(g: Generation, k: nat): Option<JVal>
  {
    if k < |ToolCallsOf(g)| then CallArguments(ToolCallsOf(g)[k]) else None
  }

  /** The `arguments` value at batch `b`, generation `g`, tool call `k`. */
  function ArgumentsAt(r: ChatResult, b: nat, g: nat, k: nat): Option<JVal>
  {
    if b < |r.generations| && g < |r.generations[b]|
    then GenerationArguments(r.generations[b][g], k)
    else None
  }
}
