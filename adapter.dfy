/**
 * The execution entry point of a Mistral model: builds the formatted prompt and
 * the request payload, records the payload on the prompt, calls the inference
 * service (streaming or not) and unwraps its reply into text fragments.
 */
module Adapter {
  import opened Wrappers
  import opened OptionSchemas
  import opened PromptFormat
  import opened Payloads
  import opened Replies

  /** A model as registered: its service identifier and the option schema of its variant. */
  datatype Model = Model(modelId: string, schema: Schema)

  /**
   * The remote inference service, seen through the decoded replies it gives for
   * a model identifier and request payload: a complete body, or a sequence of events.
   */
  datatype Service = Service(invoke: (string, Payload) -> Body, invokeStream: (string, Payload) -> seq<Event>)

  /** A prompt: its text and constructed options, and the payload last built for it. */
  class Prompt {
    const text: string
    const options: Options
    var promptJson: Option<Payload>

    constructor (text: string, options: Options)
      ensures this.text == text && this.options == options && promptJson == None
    {
      this.text := text;
      this.options := options;
      promptJson := None;
    }
  }

  /** The caller's response object; a complete reply's decoded body is stored on it. */
  class Response {
    var responseJson: Option<Body>

    constructor ()
      ensures responseJson == None
    {
      responseJson := None;
    }
  }

  /**
   * Runs the prompt against the model. The payload carries the formatted prompt
   * and the prompt's options and is stored on the prompt. When streaming, the
   * fragments are the stream's chunk texts and the response object is left
   * alone; otherwise the decoded body is stored on the response and the fragments
   * are the texts of all its outputs. A failure to unwrap is returned beside the
   * fragments yielded before it. The prompt's options are constructed by the
   * model's own schema, so the payload carries `top_k` exactly when that schema declares it.
   */
  method Execute(model: Model, prompt: Prompt, stream: bool, response: Response,
                 conversation: Option<seq<PriorTurn>>, service: Service)
    returns (fragments: seq<string>, failure: Option<Failure>)
    requires Valid(model.schema, prompt.options)
    modifies prompt, response
    ensures prompt.promptJson == Some(RequestPayload(Messages(conversation, prompt.text), prompt.options))
    ensures "top_k" in prompt.promptJson.value <==> model.schema.topK.Some?
    ensures stream ==>
      && response.responseJson == old(response.responseJson)
      && Streamed(fragments, failure) == StreamTexts(service.invokeStream(model.modelId, prompt.promptJson.value))
    ensures !stream ==>
      var body := service.invoke(model.modelId, prompt.promptJson.value);
      && response.responseJson == Some(body)
      && match Completions(body)
         case Success(texts) => fragments == texts && failure.None?
         case Failure(e) => fragments == [] && failure == Some(e)
  {
    var promptStr := BuildMessages(conversation, prompt.text);
    var payload := RequestPayload(promptStr, prompt.options);
    prompt.promptJson := Some(payload);
    PayloadFollowsSchema(model.schema, promptStr, prompt.options);
    if stream {
      var events := service.invokeStream(model.modelId, payload);
      fragments, failure := StreamFragments(events);
    } else {
      var body := service.invoke(model.modelId, payload);
      response.responseJson := Some(body);
      var completions := CollectCompletions(body);
      match completions
      case Success(texts) =>
        fragments, failure := texts, None;
      case Failure(e) =>
        fragments, failure := [], Some(e);
    }
  }
}
