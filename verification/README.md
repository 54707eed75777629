# AI comparison relay — Dafny model of the `/api/ai` route

The relay takes one prompt, sends it to two language-model providers
(OpenAI-style chat completions and Claude-style messages), and answers with
both texts side by side plus a `debug` object holding each provider's error.
This project models the decision logic of `src/app/api/ai/route.ts` with the
HTTP calls taken out:

- **OpenAI extraction** (`OpenAIAdapter`): `choices[0].message.content ?? null`,
  a silent `null` whenever a step of the path is missing.
- **Claude extraction** (`ClaudeAdapter`): the first `type === "text"` block,
  falling back to the first block, and an explicit error carrying the
  serialised response when neither yields truthy text.
- **Error classification** (`ErrorClassifier`): `handleAPIError`, mapping an
  axios error, a plain `Error` or anything else to one
  `"<service> API error: …"` message, plus a parser that reads the status and
  detail back out of an HTTP-error message.
- **Request handling** (`FanOutHandler`): `POST` with its 400 and 500 paths
  and the 200 assembly of the unified response.

The upstream call is an input value: `Provider.Outcome` is `Ok(data)` with
the response body, or `Fail(failure)` with what the call threw
(`HttpError(status?, data, message)`, `PlainError(message)`, `Unknown`).
Response bodies are dynamic JavaScript values (`JsValue.Value`), so the
route's truthiness tests, `typeof` checks, `?.` reads, `in`, `??` and
`String(...)` are written out in `JsValue`. `JSON.stringify` is a function
parameter `stringify`. The two provider calls are function parameters of
`Post` (prompt to outcome).

Behaviour the code has that is easy to miss, all modelled:

- `"message" in errorObj` holds for any value; the value goes through
  `String(...)`, so `{error: {message: null}}` gives the detail `"null"`,
  and a message that prints empty (`""`, `[]`) falls through to the axios
  error's own message.
- On success, `debug.openaiError` / `debug.claudeError` are `undefined`, so
  the keys are left out of the JSON rather than set to `null`.
- Claude falls back to `content[0].text` not only when no block is
  text-typed but also when the first text-typed block has falsy `text`.
- Lines 106-109 call `Object.keys(response.data)` before extraction, so a
  `null` Claude body throws a `TypeError`, which the `catch` classifies as a
  plain `Error`. Likewise `find` reads `item.type` without `?.`, so a
  `null` block reached before any text block throws.
- `const { prompt } = body` throws on a `null` body, which gives 500, not 400.
- `String(errorObj.message)` at line 183 throws a `TypeError` when the
  message is an object with its own `toString` key (or an array holding
  one): a parsed JSON value is never callable, and the fallback `valueOf`
  returns the object itself. The throw happens inside the adapter's
  `catch`, so the adapter's promise rejects, `Promise.all` rejects, and
  `POST` answers 500 even though the prompt was valid. The model carries
  this as `None` from `ToJsString` up through `Classify`, as a `Rejected`
  adapter (`Provider.Settled`), and as a 500 from `Post`.

## Model

| member | source | states |
|---|---|---|
| `ErrorClassifier.Classify` | src/app/api/ai/route.ts:167-200 | `handleAPIError` throws exactly when the failure is an HTTP error whose body's `error.message` cannot be printed; otherwise every message starts with `"<service> API error: "`, and an HTTP-error message has more after that prefix |
| `ErrorClassifier.BodyDetail` | src/app/api/ai/route.ts:176-188 | reading the error body throws exactly when the body has an `error` object with a `message` key whose value cannot be printed |
| `ErrorClassifier.HttpDetail` | src/app/api/ai/route.ts:176-192 | the detail throws exactly when reading the body does; otherwise the detail after `" - "` is never empty, because the chain ends in the literal `"Unknown error"` |
| `ErrorClassifier.ClassifyUnknown` | src/app/api/ai/route.ts:168-200 | a failure that is neither an axios error nor an `Error` gives exactly `"<service> API error: Unknown error occurred"` |
| `ErrorClassifier.ClassifyPlainError` | src/app/api/ai/route.ts:193-195 | a plain `Error` gives `"<service> API error: "` followed by its message |
| `ErrorClassifier.DetailFromErrorMessage` | src/app/api/ai/route.ts:179-192 | a body `{error: {message: m}}` with non-empty `m` gives `"<service> API error: <status> - m"`, and a missing status prints as `unknown status` |
| `ErrorClassifier.DetailFromAnyMessageValue` | src/app/api/ai/route.ts:182-192 | any `message` value counts: an unprintable one makes classification throw; a printable one that does not print empty (`""`, `[]`, a one-element array of such) is the detail; one that prints empty falls through to the axios message, and then to `"Unknown error"` |
| `ErrorClassifier.UnprintableMessageThrows` | src/app/api/ai/route.ts:182-183 | the body `{"error": {"message": {"toString": 1}}}` makes `handleAPIError` throw, whatever the status and axios message |
| `ErrorClassifier.DetailFromErrorString` | src/app/api/ai/route.ts:184-185 | a body `{error: s}` with non-empty string `s` gives the detail `s` |
| `ErrorClassifier.DetailWithoutUsableError` | src/app/api/ai/route.ts:177-188 | a body without an `error` object holding `message` and without a non-empty `error` string gives the detail `"Unknown error"`, whatever the axios message |
| `ErrorClassifier.StatusTextRoundTrip` | src/app/api/ai/route.ts:191 | the printed status, a decimal number or `unknown status`, reads back to the same optional status and never contains `" - "` |
| `ErrorClassifier.ClassifyHttpRoundTrip` | src/app/api/ai/route.ts:190-192 | whenever the detail can be read, the HTTP-error message is `<prefix><status> - <detail>` with non-empty detail, and the status and detail can be recovered from it unambiguously |
| `Decimal.IntToString` | src/app/api/ai/route.ts:191 | a status number prints as an optional minus sign and digits, ending in a digit |
| `Decimal.ParseIntToString` | src/app/api/ai/route.ts:191 | the printed number reads back to the same integer |
| `JsValue.ToJsString` | src/app/api/ai/route.ts:183 | `String(v)` succeeds exactly when no object reachable from `v` through arrays has an own `toString` key |
| `JsValue.PrintsEmptyExactly` | src/app/api/ai/route.ts:183-192 | `String(v)` is `""` exactly for `""`, `[]`, and a one-element array whose element is `null`, `undefined` or prints empty |
| `Provider.Caught` | src/app/api/ai/route.ts:77-79 | the `catch` rejects exactly when classification throws; otherwise it gives `text` null and an error carrying the service prefix |
| `OpenAIAdapter.Respond` | src/app/api/ai/route.ts:70-80 | the adapter rejects exactly when the call failed and classifying the failure throws; a successful call resolves without `error`; a failed one that resolves gives `text` null with the classified error; `text` is never `undefined`; `text` and `error` are never both set |
| `OpenAIAdapter.CompletionRoundTrip` | src/app/api/ai/route.ts:70-76 | text placed in `{choices: [{message: {content: s}}]}` comes back verbatim, `""` included |
| `OpenAIAdapter.NoChoicesIsSilentNull` | src/app/api/ai/route.ts:70-76 | missing or empty `choices` gives `text` null and no error |
| `OpenAIAdapter.NoMessageContentIsSilentNull` | src/app/api/ai/route.ts:70-76 | a first choice without `message`, or a message without `content`, gives `text` null and no error |
| `OpenAIAdapter.PresentContentIsReturned` | src/app/api/ai/route.ts:70-76 | any present `content` of the first choice is returned unchanged, with no error |
| `OpenAIAdapter.TextNullIffPathBroken` | src/app/api/ai/route.ts:70-79 | the adapter resolves with `text` null exactly when the call failed without classification throwing, or the call succeeded and a step of the path is missing |
| `ClaudeAdapter.FindTextBlock` | src/app/api/ai/route.ts:124-126 | `find` returns the first text-typed block, all earlier blocks being readable and not text-typed; or throws at the first null/undefined block met before a match; or finds nothing exactly when every block is readable and not text-typed |
| `ClaudeAdapter.Respond` | src/app/api/ai/route.ts:84-163 | the adapter rejects exactly when the call failed and classifying the failure throws; when it resolves, exactly one of `text` and `error` is set, a set `text` is truthy, a failed call gives the classified error, and an error starting with the extraction-failure text only comes from a call that succeeded |
| `ClaudeAdapter.RespondMatchesReference` | src/app/api/ai/route.ts:105-155 | on every successful call the adapter agrees with a reference defined by cases on the first index where `find` stops (a null/undefined block or a text-typed one): a null body throws, an absent or empty content list is the extraction error, a nullish stop throws, a text-typed stop with truthy `text` wins, and everything else falls back to `content[0].text` or the extraction error |
| `ClaudeAdapter.MessageRoundTrip` | src/app/api/ai/route.ts:115-155 | non-empty text placed in `{content: [{type: "text", text: s}]}` comes back unchanged, with no error |
| `ClaudeAdapter.FirstTextBlockWins` | src/app/api/ai/route.ts:124-129 | the first text-typed block with truthy `text` supplies the text, and `error` is absent |
| `ClaudeAdapter.FallbackToFirstBlock` | src/app/api/ai/route.ts:130-152 | when `find` throws on no block and returns no text-typed block with truthy `text`, `content[0].text` is the text when truthy, and otherwise the result is the extraction error with the serialised response |
| `ClaudeAdapter.NoContentIsExplicitError` | src/app/api/ai/route.ts:117-152 | an absent, non-array or empty content list gives `text` null and the error `"Failed to extract text from Claude response. Response structure: "` followed by the serialised response |
| `ClaudeAdapter.NullishBlockThrows` | src/app/api/ai/route.ts:124-161 | a null/undefined block reached by `find` makes the adapter report `"Claude API error: Cannot read properties of null (reading 'type')"` (or `undefined`) |
| `ClaudeAdapter.NullishBodyThrows` | src/app/api/ai/route.ts:106-161 | a null/undefined response body makes the adapter report `"Claude API error: Cannot convert undefined or null to object"` |
| `FanOutHandler.Post` | src/app/api/ai/route.ts:203-242 | the status is 200, 400 or 500; 400 exactly when the body parses to a non-null value whose `prompt` is not a string; 200 exactly when `prompt` is a string and neither provider's failure makes classification throw, and then the body is the unified shape; in it neither text is `undefined`, `claude` is null exactly when `claudeError` is set, and a set `openaiError` comes with a null `openai` |
| `FanOutHandler.NonStringPromptRejected` | src/app/api/ai/route.ts:206-213 | a non-string `prompt` gives 400 with `{error: "Invalid prompt type"}` |
| `FanOutHandler.RejectionIgnoresProviders` | src/app/api/ai/route.ts:203-241 | a request without a string prompt gets a non-200 reply that is the same whatever the providers would answer, so neither provider is consulted |
| `FanOutHandler.UnreadableBodyIsInternalError` | src/app/api/ai/route.ts:205-241 | an unparsable body, or one that parses to null, gives 500 with `{error: "Internal server error"}` |
| `FanOutHandler.StringPromptCopiesAdapters` | src/app/api/ai/route.ts:218-240 | any string prompt, `""` included, gives 200 with both adapters' `text` and `error` copied unchanged when both adapters resolve, and 500 when either rejects |
| `FanOutHandler.BothProvidersFailing` | src/app/api/ai/route.ts:218-240 | when both calls fail the reply is still 200, with both texts null and both classified errors in `debug`, unless classifying one of the failures throws, which gives 500 |
| `FanOutHandler.ClassifierThrowIsInternalError` | src/app/api/ai/route.ts:176-240 | an OpenAI error body `{"error": {"message": {"toString": 1}}}` turns a valid prompt into a 500 reply |

## Left out

- The axios POSTs, request bodies, headers, credentials read from `process.env`, URLs and model names (lines 53-67, 88-103): network I/O and configuration, replaced by the `Outcome` input.
- `Promise.all` (lines 218-221): it rejects when either adapter rejects and otherwise yields both results; the adapters share no state, so settling one after the other gives the same reply. Which rejection reason reaches the log is not modelled.
- Every `console.log` / `console.error`: logging only. The one logging call with an effect, `Object.keys(response.data)` at line 108, is modelled by the `TypeError` it throws.
- `JSON.stringify` is the parameter `stringify`; `NextResponse.json` is the `Response` record. Key omission for `undefined` errors is represented by `None`.
- The client page `src/app/components/AIComparisonPage.tsx`: UI state and rendering; its only check is a `trim()` emptiness test.
- JavaScript numbers are integers here: fractions, `NaN`, and the exponent form `String` uses from `1e21` on are not modelled.
- `JsValue.Get`: reads only named properties of objects, because no name this route reads (`choices`, `message`, `content`, `type`, `text`, `error`, `prompt`) is an array index or `length`, and strings and other primitives have none of them.
- `ClaudeAdapter.ReadOfNullish` and `ClaudeAdapter.KeysOfNullish`: the `TypeError` texts are those of the V8 engine; other engines word them differently.
- The `String(...)` of a character indexes Unicode scalar values, where JavaScript indexes UTF-16 code units (only `At0` on a string is affected, and its result is never used as text).
