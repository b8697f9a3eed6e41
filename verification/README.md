# Chat-model factory: routing and tool-call argument patching

A Dafny model of `tools/model_factory.py`, a helper that builds an
OpenAI-compatible chat client. It has two pieces of logic.

- **Model selector.** `create_chat_model` and its companion predicate
  `is_deepseek_official_api` decide from the base URL whether the endpoint is
  the vendor's official API. That is the case when the URL is present and its
  lower-cased form contains `deepseek.com`. For the official API the factory
  returns the patched client class, otherwise the plain one. The model
  (`routing.dfy`) reduces the factory's result to the tag `Patched | Plain`.
- **Response patcher.** The patched client's `_generate` and `_agenerate` call
  the library, then walk the result: batches, generations, the message's
  `additional_kwargs["tool_calls"]`, and each tool call's `function.arguments`.
  A string there is replaced by `json.loads` of it. A string that fails to
  decode is left alone. The model turns this walk into pure functions over
  immutable values. `rewrite.dfy` holds the walk, parameterised by what it does
  to each arguments value. `tool_call_patch.dfy` holds the patch itself,
  `Normalise`, and both entry points.

The JSON decoder is a parameter, `parse: string -> Option<JVal>`. `None`
stands for a decoding error. Every property holds for every decoder.

"Nothing else changes" is stated with `Erase`. `Erase` is the same walk, but it
blanks every arguments value. `Normalise(parse, r)` has the same erasure as `r`.
Each of its arguments values is the normalised value from the same position of
`r`. `ResultDetermined` shows that erasure and arguments values together fix a
result. So these two facts characterise the pass completely
(`NormaliseCharacterised`).

The pass is not idempotent in general. `json.loads` can return a string: the
text `"{}"` with its quotes decodes to the two-character string `{}`. A second
pass then decodes that string again (`SecondPassCanDiffer`). Only settled
arguments values are fixed points (`FixedPointIff`). A value is settled when it
is not a string, is a string that fails to decode, or is a string the decoder
maps to itself. Idempotence is proved
only for decoders that never return a bare string.

Files: `wrappers.dfy` (Option), `json.dfy` (JSON values), `routing.dfy`,
`generations.dfy` (result types and positions of arguments values),
`rewrite.dfy`, `rewrite_lemmas.dfy`, `tool_call_patch.dfy`.

## Model

| member | source | states |
|---|---|---|
| Routing.CreateChatModel | tools/model_factory.py:103-125 | the factory picks the patched client exactly when `is_deepseek_official_api` holds for the same URL, although its own inline test uses truthiness; an absent or empty URL gets the plain client |
| Routing.IsDeepSeekOfficialApi | tools/model_factory.py:128-138 | an absent URL is never the official API; a present one is exactly when `deepseek.com` occurs at some position of its lower-cased form |
| Routing.Lower | tools/model_factory.py:105 | lower-casing keeps the length, leaves no upper-case ASCII letter, and changes a character only by mapping an upper-case ASCII letter to its lower-case form |
| Routing.Contains | tools/model_factory.py:138 | the substring test fails when the needle is longer than the haystack, and when it succeeds the needle occurs at some position |
| Routing.ContainsSpec | tools/model_factory.py:138 | the substring search behind `in` succeeds exactly when the needle occurs at some position of the haystack |
| Routing.CaseInsensitive | tools/model_factory.py:138 | two URLs that differ only in the letter case of ASCII letters are routed alike |
| Routing.UpperCaseRoutesAlike | tools/model_factory.py:138 | the upper-cased spelling of a URL is routed like the URL itself |
| Routing.Unanchored | tools/model_factory.py:103-106 | the match is unanchored: any text before or after an official URL keeps it official |
| Routing.OfficialEndpointExample | tools/model_factory.py:88-93 | `https://api.deepseek.com/v1` gets the patched client |
| Routing.ProxyEndpointExample | tools/model_factory.py:95-100 | `https://your-proxy.com/v1` gets the plain client |
| Generations.CallArguments | tools/model_factory.py:34-35 | a tool call has an arguments value exactly when it is a mapping with a `function` mapping that holds `arguments`, and the value is the one stored there |
| Generations.ToolCallsOf | tools/model_factory.py:30-33 | a generation without a message, or whose message has no additional fields, has no tool calls to visit; when `tool_calls` holds a list, the tool calls visited are exactly that list |
| Rewrite.RewriteToolCall | tools/model_factory.py:34-38 | the tool call's arguments value, if it has one, is the rewritten old value; a tool call without `function` or without `arguments` in it is unchanged |
| Rewrite.RewriteToolCalls | tools/model_factory.py:33 | the list keeps its length and order, and each call is rewritten on its own at its position, so each call's arguments value is rewritten in place |
| Rewrite.RewriteKwargs | tools/model_factory.py:31-32 | the additional fields keep their keys and every field other than `tool_calls` is unchanged; a non-empty `tool_calls` list is replaced by its rewritten list, and otherwise the fields are returned as they were |
| Rewrite.RewriteMessage | tools/model_factory.py:30 | a message keeps its content, keeps or lacks additional fields as before, and its additional fields are the rewritten old ones |
| Rewrite.RewriteGeneration | tools/model_factory.py:29-32 | a generation keeps its text, info, message presence and tool-call count; its arguments values are rewritten position by position; one with no tool calls to visit is unchanged |
| Rewrite.RewriteResult | tools/model_factory.py:28-40 | batch count, batch lengths and provider output are preserved, and the arguments value at every position is the rewritten old value |
| RewriteLemmas.ResultComposes | tools/model_factory.py:28-40 | walking twice, first with `f` then with `g`, equals one walk with `g` after `f` |
| RewriteLemmas.ResultDetermined | tools/model_factory.py:26-42 | two results with the same erasure and the same arguments value at every position are equal |
| ToolCallPatch.NormaliseArguments | tools/model_factory.py:35-40 | a non-string value is kept; a string becomes the decoder's value when it decodes and stays as it is otherwise; the value is unchanged exactly when it is settled |
| ToolCallPatch.Normalise | tools/model_factory.py:28-40 | the pass keeps the provider output, the batch count and the erasure of the result, and every arguments value is the normalised value from the same position |
| ToolCallPatch.Generate | tools/model_factory.py:24-42 | the blocking entry point returns the delegate's result with the same batches and provider output, changed only at arguments values, each normalised |
| ToolCallPatch.AGenerate | tools/model_factory.py:44-62 | the suspending entry point returns the delegate's result with the same batches and provider output, changed only at arguments values, each normalised |
| ToolCallPatch.SyncAsyncAgree | tools/model_factory.py:48-60 | both entry points transform a result alike, which follows from their two contracts |
| ToolCallPatch.NormaliseCharacterised | tools/model_factory.py:26-42 | a result is the output of the pass exactly when it has the same erasure as the input and normalised arguments values |
| ToolCallPatch.ParsedStringReplaced | tools/model_factory.py:36-38 | an arguments string that decodes ends up holding exactly the decoded value |
| ToolCallPatch.UnparsableStringKept | tools/model_factory.py:37-40 | an arguments string that fails to decode stays the identical string; siblings are unaffected because every position is treated on its own |
| ToolCallPatch.NonStringKept | tools/model_factory.py:36 | an arguments value that is not a string is left as it is |
| ToolCallPatch.GenerationWithoutToolCallsKept | tools/model_factory.py:30-32 | a generation without a message, without additional fields, or with an absent or empty `tool_calls` comes back unchanged |
| ToolCallPatch.ToolCallWithoutArgumentsKept | tools/model_factory.py:34 | a tool call missing `function`, or missing `arguments` inside it, comes back unchanged at the same position |
| ToolCallPatch.ShapePreserved | tools/model_factory.py:28-42 | the number and order of batches, generations and tool calls are preserved: each tool call keeps its position and differs from its original only in its arguments value; generation texts, generation info and provider output are kept |
| ToolCallPatch.FixedPointIff | tools/model_factory.py:30-40 | the pass leaves a result unchanged exactly when every arguments value is settled: not a string, a string that fails to decode, or a string the decoder maps to itself |
| ToolCallPatch.IdempotentWithoutStringResults | tools/model_factory.py:36-38 | if the decoder never returns a bare string, a second pass changes nothing |
| ToolCallPatch.SecondPassCanDiffer | tools/model_factory.py:36-38 | with a decoder that turns a quoted `{}` into the string `{}`, a second pass changes the result again, so the pass is not idempotent in general |

## Left out

- `json.loads` is a parameter of the model. Its decoding rules, and the other exceptions it can raise (a recursion error on deep nesting), are not modelled. A failed decode is `None`.
- The construction of the client objects, and the pass-through parameters `model`, `api_key`, `max_retries` and `timeout`, are left out. These are objects of the client library. The factory is modelled only as the `Patched | Plain` tag it chooses.
- The verbose diagnostic `print` before building the patched client is I/O and is left out.
- The delegated `super()._generate` and `super()._agenerate` calls are foreign calls. Networking, retries and async/await are left out with them. Their result is an input to `Normalise`.
- `_create_message_dicts` only delegates to the base class and is left out.
- Routing.Lower: models ASCII lower-casing only. Python's `str.lower()` also folds non-ASCII letters, but none of them lower-cases into the ASCII marker `deepseek.com` except the Kelvin sign U+212A, which becomes `k`. So a URL spelling the marker with that sign is official in Python and not in the model.
- Rewrite.RewriteToolCall: a tool call that is not a mapping, or whose `function` is not a mapping, is left unchanged. In Python such a value may instead raise `TypeError` or be skipped by a substring or membership test. The client library always produces mappings there.
- Rewrite.RewriteKwargs: a truthy `tool_calls` that is not a list is left unchanged. The client library always stores a list there. Python behaves in three ways. A number or `true` is not iterable, so the loop raises `TypeError`. A string is iterated one character at a time and `"function" in c` is always false, so it is skipped, as in the model. A mapping is iterated by key, and a key containing `function` makes the loop raise `TypeError`.
- The result is modelled as a tree. In Python the patch mutates shared dictionaries in place, so two tool calls that alias one dictionary would not be patched independently. This aliasing is not modelled.
- Mappings are modelled as Dafny maps, which have no key order. Assigning to an existing key keeps its position in Python, so no order is lost.
- JSON numbers are integers only. The pass never inspects numbers.
- The model takes the result to be batches of generations, because that is the shape the two nested loops iterate over. The client library is not part of this model, and this reading of the library is not checked by the model. In that library a chat result's `generations` is a flat list of chat generations, not a list of batches. If so, the inner loop walks the fields of one pydantic chat generation, which come as `(name, value)` pairs. `hasattr(gen, "message")` is then false for every pair, and the patch as written never changes anything. The model states what the loops evidently intend: the nested walk in `Normalise`.
