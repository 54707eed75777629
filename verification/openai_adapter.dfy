/**
 * `fetchOpenAIResponse` once its POST has settled: the text sits at
 * `choices[0].message.content`, and any missing step yields `null` with no
 * error.
 */
module OpenAIAdapter {
  import opened Options
  import opened JsValue
  import opened ErrorClassifier
  import opened Provider

  const Service: string := "OpenAI"

  /** `data?.choices?.[0]?.message?.content`. */
  function Content(data: Value): Value {
    Get(Get(At0(Get(data, "choices")), "message"), "content")
  }

  /** The adapter's result for the settled call. */
  function Respond(outcome: Outcome): (r: Settled)
    ensures r.Rejected? <==> Rejects(outcome)
    ensures outcome.Ok? ==> r.Resolved? && r.result.error.None?
    ensures outcome.Fail? && r.Resolved? ==>
              r.result.text == Null && r.result.error == Classify(outcome.failure, "OpenAI")
    ensures r.Resolved? ==> !r.result.text.Undefined?
    ensures r.Resolved? && r.result.error.Some? ==> r.result.text == Null
  {
    match outcome
    case Ok(data) => Resolved(ProviderResult(Coalesce(Content(data), Null), None))
    case Fail(failure) => Caught(failure, Service)
  }

  /** The body of a completion whose single choice carries `content`. */
  function CompletionBody(content: Value): Value {
    Obj(map["choices" := Arr([Obj(map["message" := Obj(map["content" := content])])])])
  }

  /** Text put into a well-formed completion body comes back verbatim, the empty string included. */
  lemma CompletionRoundTrip(s: string)
    ensures Respond(Ok(CompletionBody(Str(s)))) == Resolved(ProviderResult(Str(s), None))
  {
  }

  /** A response without `choices`, or with an empty list, is a silent `null`. */
  lemma NoChoicesIsSilentNull(data: Value)
    requires Nullish(Get(data, "choices")) || Get(data, "choices") == Arr([])
    ensures Respond(Ok(data)) == Resolved(ProviderResult(Null, None))
  {
  }

  /** A first choice without `message`, or a message without `content`, is a silent `null`. */
  lemma NoMessageContentIsSilentNull(data: Value, items: seq<Value>)
    requires Get(data, "choices") == Arr(items) && |items| > 0
    requires Nullish(Get(items[0], "message")) || Nullish(Get(Get(items[0], "message"), "content"))
    ensures Respond(Ok(data)) == Resolved(ProviderResult(Null, None))
  {
  }

  /** Any present `content` of the first choice is the text, whatever its value. */
  lemma PresentContentIsReturned(data: Value, items: seq<Value>, c: Value)
    requires Get(data, "choices") == Arr(items) && |items| > 0
    requires Get(Get(items[0], "message"), "content") == c && !Nullish(c)
    ensures Respond(Ok(data)) == Resolved(ProviderResult(c, None))
  {
  }

  /**
   * The adapter resolves with a `null` text exactly when the call failed
   * without the classifier throwing, or some step of the path is missing.
   */
  lemma TextNullIffPathBroken(outcome: Outcome)
    ensures Respond(outcome).Resolved? && Respond(outcome).result.text == Null
        <==> (outcome.Fail? && !Rejects(outcome)) || (outcome.Ok? && Nullish(Content(outcome.data)))
  {
  }
}
