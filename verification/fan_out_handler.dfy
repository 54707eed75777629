/**
 * The `POST /api/ai` handler: validate the prompt, settle both adapters,
 * and assemble the unified response. The two upstream calls are inputs
 * (functions from the prompt to how the call settled). `Promise.all`
 * rejects when either adapter rejects and otherwise yields both results;
 * the adapters share no state, so settling one after the other gives the
 * same pair.
 */
module FanOutHandler {
  import opened Options
  import opened JsValue
  import opened Provider
  import ErrorClassifier
  import OpenAIAdapter
  import ClaudeAdapter

  /** The request body as `request.json()` sees it. */
  datatype Request = Unparsable | Parsed(body: Value)

  datatype ResponseBody =
    | ErrorBody(error: string)
      /** `{openai, claude, debug: {openaiError, claudeError}}`; a `None` error is left out of the JSON. */
    | Unified(openai: Value, claude: Value, openaiError: Option<string>, claudeError: Option<string>)

  datatype Response = Response(status: int, body: ResponseBody)

  const InvalidPrompt: string := "Invalid prompt type"
  const InternalError: string := "Internal server error"

  /** The body parses to a value whose `prompt` is a string, so both adapters are dispatched. */
  predicate StringPrompt(request: Request) {
    request.Parsed? && Get(request.body, "prompt").Str?
  }

  /** `POST(request)`. */
  function Post(request: Request,
                callOpenAI: string -> Outcome,
                callClaude: string -> Outcome,
                stringify: Value -> string): (r: Response)
    ensures r.status == 200 || r.status == 400 || r.status == 500
    ensures r.status == 200 <==> r.body.Unified?
    ensures r.status == 400 <==> request.Parsed? && !Nullish(request.body) && !StringPrompt(request)
    ensures r.status == 200 <==>
              && StringPrompt(request)
              && !Rejects(callOpenAI(Get(request.body, "prompt").s))
              && !Rejects(callClaude(Get(request.body, "prompt").s))
    ensures r.status == 200 ==> !r.body.openai.Undefined? && !r.body.claude.Undefined?
    ensures r.status == 200 ==> (r.body.claude == Null <==> r.body.claudeError.Some?)
    ensures r.status == 200 && r.body.openaiError.Some? ==> r.body.openai == Null
  {
    match request
    case Unparsable => Response(500, ErrorBody(InternalError))
    case Parsed(body) =>
      if Nullish(body) then
        // destructuring `const { prompt } = body` throws on null and undefined
        Response(500, ErrorBody(InternalError))
      else
        var prompt := Get(body, "prompt");
        if !prompt.Str? then
          Response(400, ErrorBody(InvalidPrompt))
        else
          var openai := OpenAIAdapter.Respond(callOpenAI(prompt.s));
          var claude := ClaudeAdapter.Respond(callClaude(prompt.s), stringify);
          if openai.Rejected? || claude.Rejected? then
            // `Promise.all` rejects as soon as either adapter does
            Response(500, ErrorBody(InternalError))
          else
            Response(200, Unified(openai.result.text, claude.result.text, openai.result.error, claude.result.error))
  }

  /** A non-string prompt is rejected with 400 before either provider is consulted. */
  lemma NonStringPromptRejected(body: Value,
                                callOpenAI: string -> Outcome, callClaude: string -> Outcome,
                                stringify: Value -> string)
    requires !Nullish(body) && !Get(body, "prompt").Str?
    ensures Post(Parsed(body), callOpenAI, callClaude, stringify)
         == Response(400, ErrorBody("Invalid prompt type"))
  {
  }

  /** A request turned away before dispatch gets the same reply whatever the providers would answer. */
  lemma RejectionIgnoresProviders(request: Request,
                                  callOpenAI: string -> Outcome, callClaude: string -> Outcome,
                                  otherOpenAI: string -> Outcome, otherClaude: string -> Outcome,
                                  stringify: Value -> string, otherStringify: Value -> string)
    requires !StringPrompt(request)
    ensures Post(request, callOpenAI, callClaude, stringify)
         == Post(request, otherOpenAI, otherClaude, otherStringify)
    ensures Post(request, callOpenAI, callClaude, stringify).status != 200
  {
  }

  /** A body that cannot be parsed, or parses to `null`, yields 500. */
  lemma UnreadableBodyIsInternalError(request: Request,
                                      callOpenAI: string -> Outcome, callClaude: string -> Outcome,
                                      stringify: Value -> string)
    requires request.Unparsable? || Nullish(request.body)
    ensures Post(request, callOpenAI, callClaude, stringify)
         == Response(500, ErrorBody("Internal server error"))
  {
  }

  /**
   * Any string prompt, the empty one included, gets 200 with each
   * adapter's `text` and `error` copied unchanged when both adapters
   * resolve, and 500 when either rejects.
   */
  lemma StringPromptCopiesAdapters(body: Value, prompt: string,
                                   callOpenAI: string -> Outcome, callClaude: string -> Outcome,
                                   stringify: Value -> string)
    requires Get(body, "prompt") == Str(prompt)
    ensures
      var openai := OpenAIAdapter.Respond(callOpenAI(prompt));
      var claude := ClaudeAdapter.Respond(callClaude(prompt), stringify);
      && (openai.Resolved? && claude.Resolved? ==>
            Post(Parsed(body), callOpenAI, callClaude, stringify)
            == Response(200, Unified(openai.result.text, claude.result.text,
                                     openai.result.error, claude.result.error)))
      && (openai.Rejected? || claude.Rejected? ==>
            Post(Parsed(body), callOpenAI, callClaude, stringify)
            == Response(500, ErrorBody("Internal server error")))
  {
  }

  /**
   * Provider failures do not change the status: both calls failing still
   * yields 200 with both texts null and both classified errors, unless
   * classifying one of the failures throws, which yields 500.
   */
  lemma BothProvidersFailing(body: Value, prompt: string,
                             callOpenAI: string -> Outcome, callClaude: string -> Outcome,
                             stringify: Value -> string)
    requires Get(body, "prompt") == Str(prompt)
    requires callOpenAI(prompt).Fail? && callClaude(prompt).Fail?
    ensures
      var r := Post(Parsed(body), callOpenAI, callClaude, stringify);
      var openaiError := ErrorClassifier.Classify(callOpenAI(prompt).failure, "OpenAI");
      var claudeError := ErrorClassifier.Classify(callClaude(prompt).failure, "Claude");
      && (openaiError.Some? && claudeError.Some? ==>
            r == Response(200, Unified(Null, Null, openaiError, claudeError)))
      && (openaiError.None? || claudeError.None? ==>
            r == Response(500, ErrorBody("Internal server error")))
  {
  }

  /**
   * An upstream error body `{"error": {"message": {"toString": 1}}}` makes
   * the classifier throw inside the adapter's `catch`, so a valid prompt
   * gets 500.
   */
  lemma ClassifierThrowIsInternalError(body: Value, prompt: string, status: Option<int>, message: string,
                                       callOpenAI: string -> Outcome, callClaude: string -> Outcome,
                                       stringify: Value -> string)
    requires Get(body, "prompt") == Str(prompt)
    requires callOpenAI(prompt)
          == Fail(ErrorClassifier.HttpError(status, Obj(map["error" := Obj(map["message" := Obj(map["toString" := Num(1)])])]),
                                            message))
    ensures Post(Parsed(body), callOpenAI, callClaude, stringify)
         == Response(500, ErrorBody("Internal server error"))
  {
  }
}
