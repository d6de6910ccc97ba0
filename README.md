# Message orchestrator of the conversation/discovery chat app, in Dafny

This project models the decision logic of `app.js`, the server of a chat
application. `POST /api/message` forwards a chat turn to a conversation
service. When the service's `output.action` asks for it, the handler queries a
document-search service (Discovery) and replaces `output.text` with up to
three passages. The file also holds `updateMessage`, which no caller uses. It
gives a response without `output` a text chosen by the top intent's
confidence.

Modules:

- `Js` (`js.dfy`): JavaScript values as the server sees them. `Json` has the
  cases undefined, null, boolean, number (a real), string, array and object.
  The module also defines truthiness, `||` (`Or`), property reads (`Get`,
  which requires a non-null, non-undefined receiver, because reading a
  property of one throws), `v[0]`, `String(v)` and `indexOf`. `JsObject` is
  the one object the source mutates in place: the conversation response.
- `MessageEndpoint` (`message_endpoint.dfy`): the handler as a function,
  `Respond`. Its inputs are the environment, the request body, the outcome of
  the conversation call, the outcome of the search call and the serialiser
  used for `JSON.stringify`. It returns the reply (status and body) and the
  payloads sent to each service; `None` means that service was not called.
  The lemmas about `Respond` state the endpoint's behaviour case by case.
- `MessageHandler` (`message_handler.dfy`): the handler as the source runs
  it. It makes early returns, and a `for` loop rewrites `output.text` of the
  conversation response in place. It is proved equal to `Respond`.
- `IntentMessage` (`intent_message.dfy`): `updateMessage`, an in-place method
  proved against the function `Updated`, with lemmas about the confidence
  bands.

The two service calls are inputs, not effects: a call's outcome is
`Ok(response)` or `Err(errorObject)`. Everything runs sequentially. The model
is a deterministic function of its inputs, so sending the same request twice
against the same service outcomes gives the same reply.

Three behaviours of the code that are easy to misread:

- The search query's `natural_language_query` is `data.input.text`. This is
  the utterance echoed by the conversation service's response, not the
  request's input.
- The search-configuration guard can never fire. Both ids default to
  non-empty placeholders, so placeholder ids reach the query.
- `updateMessage` sets `output.text` to `null` when there is no top intent.

## Model

| member | source | states |
|---|---|---|
| `Js.Or` | app.js:49 | The JavaScript logical or of `a` and `b` is the left operand when that is truthy and the right operand otherwise, so it is truthy iff either operand is. |
| `Js.IndexOf` | app.js:83 | `s.indexOf(sub)` is -1 exactly when `sub` does not occur in `s`. Otherwise it is an index where `sub` occurs and no earlier index is a match. |
| `MessageEndpoint.Setting` | app.js:65-66 | `process.env[name]`, or the placeholder when that is falsy, is always a non-empty string. It is the configured value when that is set and non-empty, and the placeholder otherwise. |
| `MessageEndpoint.WorkspaceGuardExactly` | app.js:49-50 | The workspace guard fires exactly when `WORKSPACE_ID` is unset, empty, or equal to `<workspace-id>`. |
| `MessageEndpoint.DiscoveryGuardNeverFires` | app.js:65-74 | The search-configuration guard is false for every environment. Unset or empty ids resolve to their placeholders, which then pass on unchanged. |
| `MessageEndpoint.ConversationPayloadShape` | app.js:57-62 | The conversation payload has exactly four fields. `workspace_id` is the resolved workspace. `context` and `input` are the request's values, or `{}` when those are falsy, so they are never null. `alternate_intents` is `true`. |
| `MessageEndpoint.ErrorReply` | app.js:78-80 | An upstream error is passed through with the error object verbatim as the body. The status is `err.code` when that is truthy and 500 otherwise. |
| `MessageEndpoint.Shown` | app.js:143-149 | The passages shown are a prefix of the result of length min(3, N). |
| `MessageEndpoint.WithOutputText` | app.js:150-152 | Setting `output.text` changes that one property. All other fields of the response and of `output` keep their values. |
| `MessageEndpoint.Respond` | app.js:48-169 | Search is called only after the conversation service. The reply body is always a JSON object. |
| `MessageEndpoint.RespondWorkspaceGuard` | app.js:49-62 | The conversation service is called iff the workspace guard does not fire, and then with the payload built from the resolved workspace. When the guard fires, the reply is the fixed instruction with status 200 and no service is called. |
| `MessageEndpoint.RespondConversationError` | app.js:77-80 | A conversation error becomes the reply (status `err.code`, or 500 when that is falsy, body the error) and search is not called. |
| `MessageEndpoint.ShouldEnrichExactly` | app.js:81-83 | Enrichment triggers exactly when `output` and `output.action` are truthy and the serialised action contains `call_discovery`. |
| `MessageEndpoint.RespondPassesThrough` | app.js:158-166 | If `output` is missing, `output.action` is missing, or the serialised action lacks the marker, the reply is the conversation response unchanged (status 200) and search is not called. |
| `MessageEndpoint.RespondQueriesDiscovery` | app.js:85-95 | When enrichment triggers, the search query holds the configured (or placeholder) environment and collection ids. Its `natural_language_query` is the response's `input.text`, and `passages` is true. |
| `MessageEndpoint.RespondDiscoveryError` | app.js:119-122 | A search error becomes the whole reply (status `error.code`, or 500 when that is falsy, body the error). The conversation response is discarded. |
| `MessageEndpoint.RespondEnriched` | app.js:124-156 | On search success the reply has status 200 and is the conversation response with only `output.text` replaced, by the text of the first min(3, N) passages. Every other field of the response and of `output` is unchanged. |
| `MessageEndpoint.PassageTextSnoc` | app.js:150-153 | Adding one passage to the end appends its text followed by `<br></br><br></br>`. This is the step the loop takes. |
| `MessageEndpoint.PassageTextSplit` | app.js:150-153 | The composed text of a sequence of passages is the text of any prefix followed by the text of the rest. |
| `MessageEndpoint.PassageTextAt` | app.js:150-153 | Order is preserved: passage i's text and suffix come right after those of passages 0..i-1. |
| `MessageEndpoint.ShownText` | app.js:143-153 | With no passages the text is `""`. With three or more it is exactly passages 0, 1 and 2, each followed by the suffix. |
| `MessageEndpoint.ShownIgnoresLater` | app.js:143-149 | Passages after the third never affect what is shown. |
| `MessageHandler.ComposePassageText` | app.js:143-153 | The loop leaves the response equal to the original with `output.text` set to the composed text of the first min(3, N) passages. |
| `MessageHandler.HandleMessage` | app.js:48-169 | The handler's reply and the payloads it sends equal `Respond` on the response as received. The response object changes only when search succeeds, and then it becomes the reply body. |
| `IntentMessage.ConfidenceText` | app.js:184-198 | The text is `null` exactly when there is no truthy `intents[0]`. Otherwise it is a string: the not-understood message, or one of the two prefixes followed by `String(intents[0].intent)`. |
| `IntentMessage.UpdateMessage` | app.js:177-201 | `response` is returned and mutated in place into `Updated` of its old value. |
| `IntentMessage.UpdatedChangesOnlyOutput` | app.js:179-183 | A response that already has a truthy `output` is unchanged. Otherwise only `output` changes, and it becomes `{text: <chosen text>}`. |
| `IntentMessage.UpdatedIdempotent` | app.js:179-199 | Applying `updateMessage` twice is the same as applying it once. |
| `IntentMessage.ConfidenceBands` | app.js:191-197 | For a numeric confidence c: c ≥ 0.75 gives "I understood your intent was " + intent, 0.5 ≤ c < 0.75 gives "I think your intent was " + intent, and c < 0.5 gives "I did not understand your intent". |
| `IntentMessage.ConfidenceMonotone` | app.js:191-197 | In any response, raising the confidence of the same top intent, with the same later intents, never yields a less assured message. |
| `IntentMessage.OnlyTopIntentConsulted` | app.js:184-185 | Intents after `intents[0]` do not affect the text. |

## Left out

- Express bootstrap, static file serving, JSON body parsing and
  `module.exports` (app.js:19-28, 203): these are server plumbing. The parsed
  request body is an input.
- The conversation and Discovery clients and their credentials (app.js:31-44):
  the calls' outcomes are inputs, and the payloads sent are outputs. The SDKs'
  callback structure becomes two sequential steps.
- `console.log` (app.js:159, 164): output only.
- `JSON.stringify`'s exact output: it is a function parameter (`stringify`).
  The model captures only the substring test on its result.
- `DISCOVERY_QUERY_FIELDS` and `qclass` (app.js:67, 86) are read but unused.
  The model reads `context.qclass` only so that its precondition is kept.
- The commented-out query-language payload and whole-document composition
  (app.js:97-118, 128-141): they are not active code.
- `HandleMessage` requires what the source needs in order not to throw. The
  request body must not be null. When enrichment triggers, the conversation
  response must carry `input` and `context`, because reading `.text` and
  `.qclass` of a missing value throws. A thrown exception is not modelled as
  an outcome.
- Passages are modelled by their `passage_text` strings. A non-string
  `passage_text`, which JavaScript would convert to a string, and a
  `passages` value that is not an array are not modelled.
- The instructional texts of the two configuration guards are shortened to
  their first sentence. Their HTML wording is irrelevant to the model; only
  the fact that they are fixed matters.
- Property reads see only an object's own properties. Inherited properties,
  `length` of strings and arrays, and numeric-string keys beyond `v[0]` are
  not modelled.
- Only the top-level conversation response is an object with identity.
  Nested objects (`output`, `intents`) are values, so aliasing between them is
  not modelled.
- `IntentMessage.AtLeast` is the `>=` comparison with a confidence. Numbers,
  booleans and null are compared as numbers. Strings, arrays and objects are
  compared as NaN (never at least the threshold). JavaScript would convert a
  numeric string such as "0.8" to a number instead. Floating-point rounding is
  not modelled, and NaN is not a value of the model.
- `Js.ToJsString` renders a number through a function parameter
  (`showNumber`). JavaScript's shortest round-trip decimal rendering is not
  modelled.
- `Js.IndexOf` counts positions in Unicode scalar values, where JavaScript
  counts UTF-16 code units. The endpoint only tests whether the result is
  greater than -1, and that test does not depend on how positions are counted.
