/**
 * `fetchClaudeResponse` once its POST has settled: the text of the first
 * `type == "text"` content block, else of the first block, else an
 * explicit extraction error carrying the serialised response.
 */
module ClaudeAdapter {
  import opened Options
  import opened JsValue
  import opened ErrorClassifier
  import opened Provider

  const Service: string := "Claude"

  /** The head of the explicit extraction error; the serialised response follows it. */
  const ExtractionFailure: string := "Failed to extract text " + "from Claude response. " + "Response structure: "

  /** The `TypeError` message of `Object.keys(null)` / `Object.keys(undefined)` in V8. */
  const KeysOfNullish: string := "Cannot convert undefined or null to object"

  /** The `TypeError` message of reading property `name` of a nullish value in V8. */
  function ReadOfNullish(v: Value, name: string): string
    requires Nullish(v)
  {
    "Cannot read properties of " + (if v.Null? then "null" else "undefined") + " (reading '" + name + "')"
  }

  /** The predicate `item.type === "text"` handed to `find`, for an item it can read. */
  predicate IsTextBlock(item: Value) {
    Get(item, "type") == Str("text")
  }

  /** `find` has read the items in `[from, to)` without throwing and without a match. */
  predicate PassedOver(items: seq<Value>, from: nat, to: nat)
    requires from <= to <= |items|
  {
    forall j :: from <= j < to ==> !Nullish(items[j]) && !IsTextBlock(items[j])
  }

  /** How `content.find(item => item.type === "text")` ends. */
  datatype Search =
      /** It returned the block at `index`. */
    | Found(index: nat)
      /** It returned `undefined`. */
    | Missing
      /** Reading `.type` of the nullish item at `index` threw. */
    | Threw(index: nat)

  /** `find` over `items[from..]`, stopping at the first match or at the first item it cannot read. */
  function FindTextBlock(items: seq<Value>, from: nat): (r: Search)
    requires from <= |items|
    ensures r.Found? ==> from <= r.index < |items| && PassedOver(items, from, r.index)
                         && !Nullish(items[r.index]) && IsTextBlock(items[r.index])
    ensures r.Threw? ==> from <= r.index < |items| && PassedOver(items, from, r.index)
                         && Nullish(items[r.index])
    ensures r.Missing? <==> PassedOver(items, from, |items|)
    decreases |items| - from
  {
    if from == |items| then Missing
    else if Nullish(items[from]) then Threw(from)
    else if IsTextBlock(items[from]) then Found(from)
    else FindTextBlock(items, from + 1)
  }

  /** What the selection at lines 115-137 leaves in `result`, or the `TypeError` it threw. */
  datatype Selection = Picked(result: Value) | Thrown(message: string)

  /** `content[0]?.text` if truthy, else `null`. */
  function FirstBlockText(items: seq<Value>): Value
    requires |items| > 0
  {
    var text := Get(items[0], "text");
    if Truthy(text) then text else Null
  }

  /** The text selection over a non-empty content list. */
  function Select(items: seq<Value>): (s: Selection)
    requires |items| > 0
  {
    match FindTextBlock(items, 0)
    case Threw(k) => Thrown(ReadOfNullish(items[k], "type"))
    case Found(k) =>
      var text := Get(items[k], "text");
      if Truthy(text) then Picked(text) else Picked(FirstBlockText(items))
    case Missing => Picked(FirstBlockText(items))
  }

  /** The `try` body after a successful POST with response body `data`. */
  function Extract(data: Value, stringify: Value -> string): Settled {
    if Nullish(data) then
      Caught(PlainError(KeysOfNullish), Service)
    else
      var content := Get(data, "content");
      var selection :=
        if Truthy(content) && content.Arr? && |content.items| > 0 then Select(content.items)
        else Picked(Null);
      match selection
      case Thrown(message) => Caught(PlainError(message), Service)
      case Picked(result) =>
        if Truthy(result) then Resolved(ProviderResult(result, None))
        else Resolved(ProviderResult(Null, Some(ExtractionFailure + stringify(data))))
  }

  /** The adapter's result for the settled call; `stringify` is `JSON.stringify`. */
  function Respond(outcome: Outcome, stringify: Value -> string): (r: Settled)
    ensures r.Rejected? <==> Rejects(outcome)
    ensures r.Resolved? ==> (r.result.text == Null <==> r.result.error.Some?)
    ensures r.Resolved? && r.result.text != Null ==> Truthy(r.result.text)
    ensures outcome.Fail? && r.Resolved? ==>
              r.result.text == Null && r.result.error == Classify(outcome.failure, "Claude")
    ensures r.Resolved? && r.result.error.Some? && ExtractionFailure <= r.result.error.value ==> outcome.Ok?
  {
    match outcome
    case Ok(data) => Extract(data, stringify)
    case Fail(failure) =>
      var r := Caught(failure, Service);
      ServicePrefix();
      ExtractionFailureHead();
      r
  }

  lemma ServicePrefix()
    ensures Prefix(Service) == "Claude API error: "
  {
  }

  /** The extraction error starts with `F`, where every classified Claude message starts with `C`. */
  lemma ExtractionFailureHead()
    ensures |ExtractionFailure| > 0 && ExtractionFailure[0] == 'F'
  {
  }

  /** `find` stops at `k`: every earlier block is readable and not text-typed, and `k` is nullish or text-typed. */
  predicate StopsAt(items: seq<Value>, k: int)
  {
    0 <= k < |items| && PassedOver(items, 0, k) && (Nullish(items[k]) || IsTextBlock(items[k]))
  }

  /** The extraction error, or `content[0].text` when it is truthy. */
  function FallbackResult(data: Value, items: seq<Value>, stringify: Value -> string): Settled
    requires |items| > 0
  {
    var first := Get(items[0], "text");
    if Truthy(first) then Resolved(ProviderResult(first, None))
    else Resolved(ProviderResult(Null, Some(ExtractionFailure + stringify(data))))
  }

  /**
   * The adapter's result on a successful call, defined by cases on where
   * `find` stops rather than by running it.
   */
  ghost function Reference(data: Value, stringify: Value -> string): Settled {
    if Nullish(data) then
      Caught(PlainError(KeysOfNullish), Service)
    else if !(Get(data, "content").Arr? && |Get(data, "content").items| > 0) then
      Resolved(ProviderResult(Null, Some(ExtractionFailure + stringify(data))))
    else
      var items := Get(data, "content").items;
      if exists k :: StopsAt(items, k) then
        var k :| StopsAt(items, k);
        if Nullish(items[k]) then Caught(PlainError(ReadOfNullish(items[k], "type")), Service)
        else if Truthy(Get(items[k], "text")) then Resolved(ProviderResult(Get(items[k], "text"), None))
        else FallbackResult(data, items, stringify)
      else
        FallbackResult(data, items, stringify)
  }

  /** `find` stops at most once. */
  lemma StopIsUnique(items: seq<Value>, k: int, k': int)
    requires StopsAt(items, k) && StopsAt(items, k')
    ensures k == k'
  {
  }

  /** The search stops exactly where the reference says it does. */
  lemma SearchAgreesWithStop(items: seq<Value>)
    ensures FindTextBlock(items, 0).Missing? <==> !exists k :: StopsAt(items, k)
    ensures !FindTextBlock(items, 0).Missing? ==> StopsAt(items, FindTextBlock(items, 0).index)
  {
  }

  /** On every successful call the adapter gives what the reference prescribes. */
  lemma {:induction false} RespondMatchesReference(data: Value, stringify: Value -> string)
    ensures Respond(Ok(data), stringify) == Reference(data, stringify)
  {
    if !Nullish(data) && Get(data, "content").Arr? && |Get(data, "content").items| > 0 {
      var items := Get(data, "content").items;
      SearchAgreesWithStop(items);
      var r := FindTextBlock(items, 0);
      if !r.Missing? {
        var k :| StopsAt(items, k);
        StopIsUnique(items, k, r.index);
      }
    }
  }

  /** A response carrying one text block with text `s`. */
  function MessageBody(s: string): Value {
    Obj(map["content" := Arr([Obj(map["type" := Str("text"), "text" := Str(s)])])])
  }

  /** Non-empty text put into a well-formed message body comes back unchanged. */
  lemma MessageRoundTrip(s: string, stringify: Value -> string)
    requires s != ""
    ensures Respond(Ok(MessageBody(s)), stringify) == Resolved(ProviderResult(Str(s), None))
  {
  }

  /** The first text-typed block with truthy `text` supplies the text, and no error is set. */
  lemma FirstTextBlockWins(data: Value, items: seq<Value>, k: nat, stringify: Value -> string)
    requires !Nullish(data) && Get(data, "content") == Arr(items)
    requires k < |items| && PassedOver(items, 0, k)
    requires !Nullish(items[k]) && IsTextBlock(items[k]) && Truthy(Get(items[k], "text"))
    ensures Respond(Ok(data), stringify) == Resolved(ProviderResult(Get(items[k], "text"), None))
  {
    assert FindTextBlock(items, 0) == Found(k);
  }

  /**
   * When the first text-typed block has falsy `text`, or there is none,
   * the first block's `text` is used if truthy; otherwise the explicit
   * extraction error is returned.
   */
  lemma FallbackToFirstBlock(data: Value, items: seq<Value>, stringify: Value -> string)
    requires !Nullish(data) && Get(data, "content") == Arr(items) && |items| > 0
    requires forall k :: StopsAt(items, k) ==> !Nullish(items[k]) && !Truthy(Get(items[k], "text"))
    ensures Truthy(Get(items[0], "text")) ==>
              Respond(Ok(data), stringify) == Resolved(ProviderResult(Get(items[0], "text"), None))
    ensures !Truthy(Get(items[0], "text")) ==>
              Respond(Ok(data), stringify) == Resolved(ProviderResult(Null, Some(ExtractionFailure + stringify(data))))
  {
    RespondMatchesReference(data, stringify);
  }

  /** An absent, non-array or empty content list takes the explicit extraction-error path. */
  lemma NoContentIsExplicitError(data: Value, stringify: Value -> string)
    requires !Nullish(data)
    requires !(Get(data, "content").Arr? && |Get(data, "content").items| > 0)
    ensures Respond(Ok(data), stringify) == Resolved(ProviderResult(Null, Some(ExtractionFailure + stringify(data))))
  {
  }

  /** A `null` or `undefined` block reached by `find` throws, and the classifier reports the `TypeError`. */
  lemma NullishBlockThrows(data: Value, items: seq<Value>, k: nat, stringify: Value -> string)
    requires !Nullish(data) && Get(data, "content") == Arr(items)
    requires k < |items| && PassedOver(items, 0, k) && Nullish(items[k])
    ensures Respond(Ok(data), stringify)
         == Resolved(ProviderResult(Null, Some("Claude API error: " + ReadOfNullish(items[k], "type"))))
  {
    assert FindTextBlock(items, 0) == Threw(k);
    ServicePrefix();
  }

  /** A `null` or absent body makes the diagnostic `Object.keys` throw before any extraction. */
  lemma NullishBodyThrows(data: Value, stringify: Value -> string)
    requires Nullish(data)
    ensures Respond(Ok(data), stringify)
         == Resolved(ProviderResult(Null, Some("Claude API error: " + KeysOfNullish)))
  {
    ServicePrefix();
  }
}
