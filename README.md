# llm-bedrock-mistral, modelled in Dafny

This project models the logic of the `llm` plugin that serves Mistral-7B-Instruct
and Mixtral-8x7B-Instruct (and a disabled Mistral Large variant) through a hosted
inference service. It covers four pieces:

- **Option schemas** (`option_schemas.dfy`, module `OptionSchemas`). Each variant
  declares inclusive integer bounds and a default for `max_tokens` and `top_k`.
  The large variant has no `top_k`. `temperature` and `top_p` are carried as reals
  with a 0..1 range. `Validate` constructs options from supplied values. It
  refuses out-of-range values, listing every refused field, and fills omitted
  fields with their defaults.
- **Prompt formatter** (`prompt_format.dfy`, module `PromptFormat`). This is
  `build_messages`. The method `BuildMessages` appends the pieces turn by turn,
  joins them and strips trailing whitespace. It is proved equal to the function
  `Messages`. The lemmas establish the shape, the delimiters and the length of
  the result.
- **Request payload** (`payloads.dfy`, module `Payloads`). This is the dictionary
  sent to the service: the formatted prompt, the option values, and `top_k`
  only for a variant that defines it.
- **Reply unwrapping** (`replies.dfy`, module `Replies`). This works on decoded
  data. A complete reply yields every output's `text`. A stream yields the first
  output's `text` of every event that carries a chunk. Both are specified as
  functions and implemented as loops proved against them.
- **Execution** (`adapter.dfy`, module `Adapter`). `Execute` ties these together.
  It stores the payload on the `Prompt` object and, for a complete reply, the
  decoded body on the `Response` object. The remote service is a parameter: a
  pair of functions from a model id and payload to the decoded reply.
- `wrappers.dfy` holds `Option` and `Result`.

The formatter reproduces the code as written: prior reply texts are not included
in the formatted prompt (`RepliesIgnored`). Whether that was intended is an open
question, so it is stated rather than changed.

## Model

| member | source | states |
|---|---|---|
| OptionSchemas.Validate | llm_bedrock_mistral.py:28-122 | construction succeeds iff no supplied value is outside its inclusive bounds (and no `top_k` is supplied to a schema without it); on failure the error lists exactly the violated fields; on success each field is the supplied value or the default, and the options are valid for a well-formed schema |
| OptionSchemas.Defaults | llm_bedrock_mistral.py:36-121 | the all-defaults options are valid under any schema whose defaults lie within their bounds |
| OptionSchemas.SchemasWellFormed | llm_bedrock_mistral.py:28-122 | every default of every variant lies within its own bounds |
| OptionSchemas.ValidateNothingSupplied | llm_bedrock_mistral.py:28-122 | constructing with no values succeeds and yields the defaults |
| OptionSchemas.Mistral7Ranges | llm_bedrock_mistral.py:28-60 | 7B: `max_tokens` accepted iff 1..8192, default 512; `top_k` accepted iff 1..200, default 50 |
| OptionSchemas.Mixtral8Ranges | llm_bedrock_mistral.py:63-95 | 8x7B: `max_tokens` accepted iff 1..4096, default 512; `top_k` accepted iff 1..200, default 50 |
| OptionSchemas.MistralLargeRanges | llm_bedrock_mistral.py:98-122 | large: `max_tokens` accepted iff 1..8192 with the default 8192 at the upper bound; no `top_k`, so supplying one is refused |
| PromptFormat.RStrip | llm_bedrock_mistral.py:155 | `rstrip` returns the longest prefix not ending in whitespace; only whitespace is removed |
| PromptFormat.PriorPrompts | llm_bedrock_mistral.py:140-145 | no conversation gives no prior texts; otherwise one prompt text per prior turn, in conversation order |
| PromptFormat.Messages | llm_bedrock_mistral.py:136-155 | the formatted prompt never ends in whitespace; its full shape is stated by `MessagesShape` |
| PromptFormat.BuildMessages | llm_bedrock_mistral.py:136-155 | the loop that appends an opener and a closed text per prior turn, then the current turn, joins and strips, computes exactly `Messages` |
| PromptFormat.MessagesShape | llm_bedrock_mistral.py:140-155 | the result is each prior prompt wrapped as `<s>[INST] p [/INST] `, in order, then `<s>[INST] ` + current + ` [/INST]` (strip removes only the final space; both branches of the `if not prompt_bits` test append the same opener) |
| PromptFormat.EmptyConversation | llm_bedrock_mistral.py:140-155 | with no conversation or no prior turns the result is exactly `<s>[INST] ` + prompt + ` [/INST]` |
| PromptFormat.MessagesExtend | llm_bedrock_mistral.py:141-145 | adding a prior turn inserts exactly its wrapped prompt text after the earlier turns, before the current one |
| PromptFormat.RepliesIgnored | llm_bedrock_mistral.py:141-145 | the result depends only on the prior prompt texts; prior reply texts never affect it |
| PromptFormat.MessagesDelimited | llm_bedrock_mistral.py:148-155 | the result always starts with `<s>[INST] ` and ends with ` [/INST]` |
| PromptFormat.MessagesLength | llm_bedrock_mistral.py:141-155 | the length is 19 + length of text per prior turn, plus 18 + length of the current text |
| PromptFormat.HelloExample | llm_bedrock_mistral.py:148-155 | prompt `Hello` with no conversation formats as `<s>[INST] Hello [/INST]` |
| PromptFormat.TwoTurnExample | llm_bedrock_mistral.py:141-155 | prior prompt `A`, whatever its reply, then `B` formats as `<s>[INST] A [/INST] <s>[INST] B [/INST]` |
| Payloads.RequestPayload | llm_bedrock_mistral.py:163-172 | the payload's keys are `prompt`, `max_tokens`, `temperature`, `top_p`, plus `top_k` exactly when the options define it |
| Payloads.PayloadRoundTrip | llm_bedrock_mistral.py:163-172 | the prompt and every option value can be read back unchanged from the payload |
| Payloads.PayloadFollowsSchema | llm_bedrock_mistral.py:170-172 | for options valid under a schema, `top_k` is sent iff the schema declares it, and every sent option value (`max_tokens`, `temperature`, `top_p`, `top_k`) is within the schema's bounds |
| Payloads.VariantsTopK | llm_bedrock_mistral.py:170-172 | 7B and 8x7B payloads carry `top_k`; large-variant payloads do not |
| Payloads.PayloadAsWritten | llm_bedrock_mistral.py:163-172 | the payload as written agrees with the corrected one on the four fixed fields; `TopKNeverSentAsWritten` states that it has no other key |
| Payloads.TopKNeverSentAsWritten | llm_bedrock_mistral.py:171-172 | as written, the membership test never matches, so the payload's keys are only the four fixed ones |
| Payloads.AsWrittenDropsMistral7TopK | llm_bedrock_mistral.py:171-172 | for the valid 7B defaults, with `top_k` = 50, the payload as written lacks `top_k` while the corrected one has it |
| Replies.Texts | llm_bedrock_mistral.py:207 | succeeds iff every output has a `text`; then one text per output, in order |
| Replies.Completions | llm_bedrock_mistral.py:205-207 | fails with a missing-outputs error iff `outputs` is absent; when `outputs` is present it fails with a missing-text error iff some output lacks `text`, and otherwise yields exactly every output's `text`, in order, one per output |
| Replies.FirstText | llm_bedrock_mistral.py:187 | a chunk yields the first output's `text`; which error arises when `outputs` is absent, empty or its first element lacks `text` |
| Replies.StreamTexts | llm_bedrock_mistral.py:183-188 | a stream yields at most one fragment per chunk-carrying event, and exactly one per such event when it does not fail; `StreamWellFormed` and `StreamConcat` state which fragments |
| Replies.StreamConcat | llm_bedrock_mistral.py:183-188 | a stream read in two parts yields the first part's fragments, then the second's only if the first did not fail |
| Replies.StreamWellFormed | llm_bedrock_mistral.py:183-188 | when every chunk has a first text, the stream does not fail and yields one fragment per chunk-carrying event, in event order |
| Replies.ChunklessEventIgnored | llm_bedrock_mistral.py:184-185 | an event without a chunk changes nothing, wherever it occurs |
| Replies.StreamStopsAtBadChunk | llm_bedrock_mistral.py:186-188 | a chunk without a first text ends the stream with that failure, after the fragments already yielded |
| Replies.EmptyStream | llm_bedrock_mistral.py:183 | zero events yield nothing and no failure |
| Replies.TwoOutputsExample | llm_bedrock_mistral.py:205-210 | outputs `x` and `y` yield exactly `x` then `y` |
| Replies.CollectCompletions | llm_bedrock_mistral.py:205-210 | the loop over the outputs computes exactly `Completions` |
| Replies.StreamFragments | llm_bedrock_mistral.py:183-188 | the loop over the events computes exactly `StreamTexts` |
| Adapter.Execute | llm_bedrock_mistral.py:158-210 | for options built by the model's own schema, the payload of the formatted prompt and the options is stored on the prompt, and it carries `top_k` iff that schema declares it. Streaming yields the stream's fragments and leaves the response object unchanged. Otherwise the decoded body is stored on the response, and the fragments are its outputs' texts or nothing with a failure |

## Findings

| source | as written | input that shows it | evidently intended | confidence | as-written member | corrected member |
|---|---|---|---|---|---|---|
| llm_bedrock_mistral.py:171-172 | `"top_k" in prompt.options` tests a string against what iterating the options object yields. That is `(name, value)` tuples, since the options class defines no `__contains__`. So the test is always false and `top_k` is never sent | 7B default options (`top_k` = 50): the payload has only `prompt`, `max_tokens`, `temperature`, `top_p` | send `top_k` whenever the variant defines it, as the comment on line 170 says | not executed; medium, since it rests on the iteration behaviour of the options base class, which is outside this repository | Payloads.AsWrittenDropsMistral7TopK | Payloads.PayloadFollowsSchema |

The corrected `Payloads.RequestPayload` is the one `Adapter.Execute` uses. The as-written
`Payloads.PayloadAsWritten` is kept for the lemmas that exhibit the discrepancy.

## Left out

- Model registration (`register_models`, lines 7-21) is framework glue. The model ids and aliases
  are constants of the host registry, so `Adapter.Model` takes the id as a parameter.
- The boto3 client and the two remote calls (lines 159, 177-181, 194-197) are network I/O. They are
  replaced by the `Adapter.Service` parameter, which gives the decoded replies.
- JSON encoding and decoding, `.read()` and `.decode()` (lines 178, 186, 196, 201, 203) are library
  calls. The model works on decoded `Replies.Body` values, and a body's keys other than `outputs`
  are not represented. Malformed JSON is therefore not modelled.
- The `try/except` around the non-streaming call (lines 193-199) is not modelled. Any failure of
  the remote call propagates as an exception. The model has the call always return a body.
- Generator laziness: fragments are returned as a finite sequence. A stream failure is returned
  beside the fragments yielded before it (`Replies.Streamed`).
- Pydantic coercion: values are taken to be of the field's type already, and an explicit `None`
  for an optional field is not modelled. Refusing `top_k` for a schema that does not declare it
  follows the host `Options` base class, which forbids undeclared fields. That class is not part
  of this model.
- `temperature` and `top_p` are exact reals. Floating-point rounding is not modelled.
- A chunk whose value is falsy but present (an empty mapping) is treated like a missing chunk.
  `Replies.Event` does not distinguish the two.
- `default_system_prompt` (line 130) is set but never used, so it is not modelled. The same goes
  for `can_stream` (line 126), which is always true.
- The plugin-loading test (test/test_bedrock_mistral.py) has no logic to model.
