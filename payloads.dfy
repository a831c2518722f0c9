/**
 * The request payload sent to the inference service: the formatted prompt and
 * the option values, with `top_k` only for a variant that declares it.
 */
module Payloads {
  import opened Wrappers
  import opened OptionSchemas

  /** The Python values that occur in a payload or when iterating an options object. */
  datatype Value = Str(s: string) | Int(i: int) | Num(r: real) | Tuple(items: seq<Value>)

  type Payload = map<string, Value>

  /** The keys every payload carries. */
  const FixedKeys: set<string> := {"prompt", "max_tokens", "temperature", "top_p"}

  /**
   * Iterating an options object yields one `(name, value)` tuple per declared
   * field, in declaration order; `top_k` only where the schema declares it.
   */
  function Items(o: Options): (items: seq<Value>)
    ensures forall i :: 0 <= i < |items| ==> items[i].Tuple?
  {
    [Tuple([Str("max_tokens"), Int(o.maxTokens)]), Tuple([Str("temperature"), Num(o.temperature)]),
     Tuple([Str("top_p"), Num(o.topP)])]
    + match o.topK
      case None => []
      case Some(k) => [Tuple([Str("top_k"), Int(k)])]
  }

  /** Python's `x in obj` for an object without `__contains__`: some item its iteration yields equals `x`. */
  predicate Contains(items: seq<Value>, x: Value) {
    exists i :: 0 <= i < |items| && items[i] == x
  }

  /** The four fields every payload carries. */
  function BasePayload(prompt: string, o: Options): Payload {
    map["prompt" := Str(prompt), "max_tokens" := Int(o.maxTokens), "temperature" := Num(o.temperature),
        "top_p" := Num(o.topP)]
  }

  /** The payload as the source builds it: `top_k` is added when the string `"top_k"` is `in` the options object. */
  function PayloadAsWritten(prompt: string, o: Options): (p: Payload)
    ensures forall k :: k in FixedKeys ==> k in p && p[k] == RequestPayload(prompt, o)[k]
  {
    var base := BasePayload(prompt, o);
    if Contains(Items(o), Str("top_k")) then
      match o.topK
      case Some(k) => base["top_k" := Int(k)]
      case None => base
    else base
  }

  /** As written, the membership test compares a string with `(name, value)` tuples, so `top_k` is never sent. */
  lemma TopKNeverSentAsWritten(prompt: string, o: Options)
    ensures PayloadAsWritten(prompt, o).Keys == FixedKeys
  {
  }

  /** For the 7B defaults, which do define `top_k`, the payload as written still omits it. */
  lemma AsWrittenDropsMistral7TopK(prompt: string)
    ensures var o := Defaults(Mistral7Schema);
      Valid(Mistral7Schema, o) && o.topK == Some(50)
      && "top_k" !in PayloadAsWritten(prompt, o) && "top_k" in RequestPayload(prompt, o)
  {
  }

  /** The payload with `top_k` present exactly when the options define it. */
  function RequestPayload(prompt: string, o: Options): (p: Payload)
    ensures p.Keys == FixedKeys + (if o.topK.Some? then {"top_k"} else {})
  {
    var base := BasePayload(prompt, o);
    match o.topK
    case Some(k) => base["top_k" := Int(k)]
    case None => base
  }

  /** Reads the prompt and options back out of a payload; `None` if a field is missing or of the wrong kind. */
  function ReadBack(p: Payload): Option<(string, Options)> {
    if "prompt" in p && "max_tokens" in p && "temperature" in p && "top_p" in p
       && p["prompt"].Str? && p["max_tokens"].Int? && p["temperature"].Num? && p["top_p"].Num?
       && ("top_k" in p ==> p["top_k"].Int?)
    then
      var topK := if "top_k" in p then Some(p["top_k"].i) else None;
      Some((p["prompt"].s, Options(p["max_tokens"].i, p["temperature"].r, p["top_p"].r, topK)))
    else None
  }

  /** Every option value and the prompt are copied into the payload unchanged. */
  lemma PayloadRoundTrip(prompt: string, o: Options)
    ensures ReadBack(RequestPayload(prompt, o)) == Some((prompt, o))
  {
  }

  /** For options valid under a schema, the payload carries `top_k` exactly when the schema declares it, within its bounds. */
  lemma PayloadFollowsSchema(s: Schema, prompt: string, o: Options)
    requires Valid(s, o)
    ensures var p := RequestPayload(prompt, o);
      ("top_k" in p <==> s.topK.Some?)
      && (s.topK.Some? ==> p["top_k"].Int? && IntWithin(s.topK.value, p["top_k"].i))
      && p["max_tokens"].Int? && IntWithin(s.maxTokens, p["max_tokens"].i)
      && p["temperature"].Num? && RealWithin(s.temperature, p["temperature"].r)
      && p["top_p"].Num? && RealWithin(s.topP, p["top_p"].r)
  {
  }

  /** The 7B and Mixtral variants send `top_k`; the large variant does not. */
  lemma VariantsTopK(prompt: string, o7: Options, o8: Options, oL: Options)
    requires Valid(Mistral7Schema, o7) && Valid(Mixtral8Schema, o8) && Valid(MistralLargeSchema, oL)
    ensures "top_k" in RequestPayload(prompt, o7) && "top_k" in RequestPayload(prompt, o8)
    ensures "top_k" !in RequestPayload(prompt, oL)
  {
  }
}
