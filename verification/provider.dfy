/**
 * What the two provider adapters share: the outcome of the upstream call,
 * taken as an input in place of the HTTP request, and the `{text, error}`
 * record each adapter resolves with, or its rejection.
 */
module Provider {
  import opened Options
  import opened JsValue
  import opened ErrorClassifier

  /** How the upstream POST settled: a response body, or what it threw. */
  datatype Outcome = Ok(data: Value) | Fail(failure: Failure)

  /**
   * `{ text, error? }`. `text` is `Null` for JavaScript `null`; an absent
   * `error` is `None`, which the JSON response leaves out.
   */
  datatype ProviderResult = ProviderResult(text: Value, error: Option<string>)

  /**
   * How an adapter's promise settles: it resolves with its result, or it
   * rejects because `handleAPIError`, called inside its `catch`, threw.
   */
  datatype Settled = Resolved(result: ProviderResult) | Rejected

  /** The upstream call failed in a way that makes the classifier throw, so the adapter rejects. */
  predicate Rejects(outcome: Outcome) {
    outcome.Fail? && ClassifyThrows(outcome.failure)
  }

  /** The `catch` branch: no text and the classified message as the error, unless classifying throws. */
  function Caught(failure: Failure, service: string): (r: Settled)
    ensures r.Rejected? <==> ClassifyThrows(failure)
    ensures r.Resolved? ==> r.result.text == Null && r.result.error.Some?
    ensures r.Resolved? ==> Prefix(service) <= r.result.error.value
  {
    match Classify(failure, service)
    case None => Rejected
    case Some(message) => Resolved(ProviderResult(Null, Some(message)))
  }
}
