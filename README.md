# plus-facile in Dafny

plus-facile is a browser extension that simplifies French text for learners.
When the user selects text and asks for a simplification, the extension's
content script decides whether the selection is French enough. If it is, the
script shows a tooltip under the selection and asks a local service for a
simplified version at the chosen CEFR level (A1, A2, B1 or B2). It caches the
answers by exact text and renders either the simplified text with the original
or an error with a Retry button. The service wraps a language model: it checks
the request, builds a level-specific prompt, asks the model and echoes its
answer. A second endpoint reports whether the model server is reachable.

This project models those two components and proves what they promise:

- `content.dfy` (module `Content`) models the content script.
  - The value-level functions over `PageState` specify every handler.
  - They cover the settings, the cache, the tooltip, and the requests in flight.
  - The class `Page` holds the same state, updated in place. Its methods are proved to follow those functions, A ghost field records every completed request with its `fetch` outcome. The methods keep the invariant that every cached value is what `simplifyText` made of a successful outcome for a request for its text.
  - `simplifyText` is split at its `await`. A request is first sent and joins `inFlight`. It later completes with an outcome. Other messages, clicks and retries may run in between.
- `french.dfy` (module `FrenchText`) models `isFrenchText`. Each of the four word groups is searched as a whole word under the `\b` assertion without the `u` flag. Under section 22.2.2 of ECMA-262 (IsWordChar), only `[A-Za-z0-9_]` are word characters.
- `uri.dfy` (module `Uri`) models `encodeURIComponent` and `decodeURIComponent` (section 19.2.6 of ECMA-262, over UTF-8). The Retry button goes through these two functions.
- `backend.dfy` (module `Backend`) models the `/simplify` and `/health` handlers as pure functions.
  - The language model is a function parameter that either replies with content or raises.
  - A request body is an optional JSON object.
  - The handler `SimplifyEndpoint` takes the table of level prompts as a parameter, and its properties hold for any table. The service's own handler `SimplifyText` applies it to `LevelPrompts`, the literal table of the four prompts, whose shape is stated separately.
- `content_properties.dfy`, `scenarios.dfy` and `wire.dfy` hold the properties.
  - `scenarios.dfy` runs a fresh `Page` from its start.
  - `wire.dfy` connects the script's request and its reading of the reply to the service's handler.
- `basics.dfy` holds `Option`, `Result` and the decimal rendering of a status code.

The content script starts at level `'A1'` (extension/content.js:4), and the model follows it. The popup's own default of `'B1'` is not part of this model.

## Model

| member | source | states |
|---|---|---|
| Basics.NatToString | extension/content.js:79 | the decimal rendering of a status code is a digit string without leading zero whose value is the code |
| Uri.DecodeEncode | extension/content.js:169-170 | decodeURIComponent gives back every string encodeURIComponent produced |
| Uri.ApostropheSurvivesEncoding | extension/content.js:129 | an encoded text holds an apostrophe exactly when the text does, because encodeURIComponent leaves `'` unescaped |
| Uri.HexRoundTrip | extension/content.js:170 | each hexadecimal digit of an escape decodes back to its value |
| Uri.ContinuationOfEscapes | extension/content.js:170 | escaped continuation bytes are read back and their payload bits accumulated in order |
| Uri.DecodeEscapedChar | extension/content.js:170 | the escapes of one character's UTF-8 bytes decode to exactly that character and nothing more |
| FrenchText.FindWordFrom | extension/content.js:46-49 | the search reports a word exactly when it occurs with `\b` boundaries at or after the start position |
| FrenchText.TestGroup | extension/content.js:53 | `pattern.test` of a group's pattern holds exactly when some word of the group occurs as a whole word, case-insensitively |
| FrenchText.CountMatching | extension/content.js:53 | the count equals the number of distinct groups that match and never exceeds the number of groups |
| FrenchText.IsFrenchText | extension/content.js:44-55 | the text is taken for French exactly when at least two of the four groups match |
| FrenchText.EtreNeedsWordCharBefore | extension/content.js:48 | "être" can only match right after an ASCII word character, never after a space or at the start |
| FrenchText.LeFoundInsideIle | extension/content.js:46 | "le" matches inside "île", since `î` is no word character |
| FrenchText.TwoGroupsSuffice | extension/content.js:52-54 | one whole-word occurrence from each of two different groups makes the text French |
| Content.Utf16Length | extension/content.js:155 | `text.length` counts between one and two code units per character |
| Content.PlaceTooltip | extension/content.js:108-120 | the tooltip sits 10 px below the selection, at its left edge when it fits, otherwise clamped to 420 px from the viewport's right edge; it never overflows that edge and only ever moves left |
| Content.Settle | extension/content.js:63-89 | the request succeeds exactly for a 2xx status whose JSON has a falsy `error`, and then yields `simplified_text` |
| Content.ViewFor | extension/content.js:122-150 | a result starting with "Error:" or `undefined` gives an error view for the original text whose message starts with "Error:"; any other string gives the simplified view with the original |
| Content.RetryArgument | extension/content.js:129 | the Retry button carries a usable argument exactly for an error view whose text has no apostrophe, and that argument decodes to the original text |
| Content.TooltipElement.constructor | extension/content.js:34-41 | a new tooltip is hidden and empty |
| Content.Page.constructor | extension/content.js:2-8 | the page starts enabled at level A1 with an empty cache, no tooltip and nothing in flight |
| Content.Page.LoadStored | extension/content.js:11-13 | stored keys are merged over the current settings |
| Content.Page.ShowSimplifiedTooltip | extension/content.js:97-120 | with a selection, the tooltip is shown at its placement, then shows the cached result or the loading view with a new request at the current level |
| Content.Page.HandleTextSimplification | extension/content.js:154-158 | the tooltip is shown only for a text passing the gate, and the page follows the specification `Pipeline` |
| Content.Page.OnMessage | extension/content.js:16-31 | the three actions change the settings and cache as `Receive` specifies, and any other action changes nothing |
| Content.Page.Complete | extension/content.js:78-94 | a completed request leaves `inFlight`, a success is cached, the tooltip renders the result, the request and its outcome are recorded, and every cached value stays the settled value of a recorded successful outcome for its text |
| Content.Page.OnDocumentClick | extension/content.js:161-166 | a click outside the tooltip hides it; a click inside changes nothing |
| Content.Page.ClickRetryButton | extension/content.js:161-172 | a click on the Retry button runs the handler with the view's argument, and the document's listener then hides the tooltip exactly when the handler replaced its content |
| Content.Page.Retry | extension/content.js:169-172 | the argument is decoded and the gated pipeline rerun; a malformed argument changes nothing |
| ContentProperties.StoredKeysOverride | extension/content.js:11-13 | stored keys override, missing keys keep their value, and merging is idempotent |
| ContentProperties.EmptyStoreKeepsDefaults | extension/content.js:2-5 | with nothing stored the page is enabled at level A1 |
| ContentProperties.Utf16LengthOfBmp | extension/content.js:155 | without characters beyond U+FFFF the length equals the number of characters |
| ContentProperties.Utf16LengthAppend | extension/content.js:155 | the UTF-16 length is additive over concatenation |
| ContentProperties.GateIsLengthAndHeuristic | extension/content.js:155 | the emptiness test is implied by the length test |
| ContentProperties.GateRejectionIsSilent | extension/content.js:154-157 | a text failing the gate sends no request and changes neither state nor tooltip |
| ContentProperties.RequestExactlyWhenUncached | extension/content.js:59-76 | a request is sent exactly for a gated, uncached text with a selection; it carries the current level and joins the requests in flight, and settings and cache are untouched |
| ContentProperties.TooltipShownAtSelection | extension/content.js:117-120 | a gated selection shows the tooltip at its placement, loading while the request is pending and with the cached result otherwise |
| ContentProperties.CachedTextIsIdempotent | extension/content.js:59-61 | a cached text is answered without a request, and asking again changes nothing |
| ContentProperties.HandlersPreserveConsistency | extension/content.js:97-105 | every handler keeps the tooltip present while requests are in flight |
| ContentProperties.PipelineConsistent | extension/content.js:154-157 | the gated pipeline keeps the tooltip present while requests are in flight |
| ContentProperties.CompletionBookkeeping | extension/content.js:122-150 | a completion removes exactly its own request and renders its result without moving, showing or hiding the tooltip |
| ContentProperties.CompletionCachesOnlySuccess | extension/content.js:88 | a completion keeps every other cache entry, caches `simplified_text` on success and leaves the cache alone on failure |
| ContentProperties.FailureShowsCause | extension/content.js:90-93 | a failure leaves the cache alone and shows the error for the original text, beginning "Error: Could not simplify text." |
| ContentProperties.FailureTextNamesCause | extension/content.js:92 | the failure message starts with the fixed sentence and "Error:", and the cause can be read back from it |
| ContentProperties.FailureCauses | extension/content.js:78-86 | network failure, non-2xx status, unreadable JSON and a truthy `error` each give their own cause, checked in that order |
| ContentProperties.SuccessIsReused | extension/content.js:88-89 | after a success the same text is answered from the cache with the same view and no request |
| ContentProperties.UndefinedReplyIsPermanent | extension/content.js:88 | a reply without `simplified_text` caches `undefined`, and a retry shows the same error without a request |
| ContentProperties.LevelChangeForcesNewRequest | extension/content.js:21-24 | a level change empties the cache, so the same text is sent again at the new level |
| ContentProperties.StaleReplyIsCached | extension/content.js:74 | a reply completing after a level change is cached and then served at the new level |
| ContentProperties.ToggleOnlyChangesEnabled | extension/content.js:18-20 | toggling changes only `enabled` |
| ContentProperties.IgnoredMessages | extension/content.js:25-29 | a disabled page ignores selections, and unknown actions change nothing |
| ContentProperties.ClickVisibility | extension/content.js:161-166 | a click outside hides the tooltip and keeps its content and position; a click inside changes nothing |
| ContentProperties.RetryReappliesGate | extension/content.js:169-172 | retrying an error view reruns the gated pipeline on the original text, whether or not the page is enabled |
| ContentProperties.RetryButtonHidesTooltip | extension/content.js:161-172 | a Retry click reruns the pipeline on the original text and leaves the tooltip hidden exactly when the text has no apostrophe, passes the gate and a selection range exists; otherwise it changes nothing |
| ContentProperties.MalformedRetryIsIgnored | extension/content.js:170 | an argument that is not valid percent-encoding changes nothing |
| Scenarios.SentencePassesGate | extension/content.js:155 | "Je vais dans le magasin avec elle." passes the gate |
| Scenarios.ShortGreetingFailsGate | extension/content.js:155 | "Bonjour" is too short for the gate |
| Scenarios.HelloWorldBoundaries | extension/content.js:46-49 | `\b` holds in "Hello world" only at positions 0, 5, 6 and 11 |
| Scenarios.ExcludedWordAbsent | extension/content.js:46-49 | no word of two to four letters, and no five-letter word starting with a letter from a to g, occurs in "Hello world" |
| Scenarios.HelloWorldHasNoGroup | extension/content.js:45-50 | none of the four groups matches "Hello world" |
| Scenarios.HelloWorldFailsGate | extension/content.js:155 | "Hello world" is long enough but fails the heuristic |
| Scenarios.SimplifySentence | extension/content.js:25-28 | the French sentence is sent at level A1 and its reply shown with the original |
| Scenarios.SimplifySelection | extension/content.js:122-139 | a French selection is sent at level A1 and its reply shown as the simplified view |
| Scenarios.IgnoredSelection | extension/content.js:154-157 | a selection failing the gate sends nothing and creates no tooltip |
| Scenarios.RejectedSelections | extension/content.js:154-157 | short and English selections send nothing and create no tooltip |
| Scenarios.CacheThenLevelChange | extension/content.js:21-24 | a second selection is served from the cache; after a level change it is sent at the new level |
| Scenarios.ErrorThenRetry | extension/content.js:125-172 | with the service down the error names the cause; a click on Retry sends the same text again but hides the tooltip, and the next reply is rendered into the hidden tooltip |
| Scenarios.ApostropheBlocksRetry | extension/content.js:129 | a text with an apostrophe gets an error view whose Retry button cannot work: a click sends nothing and the error stays shown |
| Scenarios.StaleReplyAfterLevelChange | extension/content.js:74 | a reply landing after a level change is cached and shown for the same text |
| Scenarios.DisabledThenEnabled | extension/content.js:18-28 | a disabled page ignores selections until it is enabled again |
| Scenarios.ClicksAndLateReply | extension/content.js:161-166 | a click inside keeps the tooltip, a click outside hides it, and a later reply fills it without showing it |
| Backend.LookupLevel | backend/app.py:82 | for any table of level prompts, a prompt is found exactly for a level string among its keys, and it is that key's entry |
| Backend.BuildPrompt | backend/app.py:86 | the prompt starts with the level prompt and ends with the text; a non-string text raises TypeError |
| Backend.SimplifyEndpoint | backend/app.py:67-110 | for any table of level prompts (the service's own is `LevelPrompts`): a preflight gets `{status: ok}`; missing fields and unknown levels get 400 before the model is called; the model gets the level's prompt followed by the text exactly for valid requests; a reply gives 200 echoing text and level; every other answer is a 400 or 500 error body without `simplified_text` |
| Backend.HandlerFailures | backend/app.py:74-110 | past the field check, an unhashable level, a non-string text and a model failure each become 500 with the message Python gives them, and any other level outside the table becomes 400 |
| Backend.HealthCheck | backend/app.py:56-65 | 200 `healthy` with the models exactly when listing succeeds, otherwise 503 `unhealthy` with the message |
| Backend.LevelsOfTable | backend/app.py:18-54 | the table of level prompts has exactly the keys A1, A2, B1 and B2 |
| Backend.PromptShape | backend/app.py:18-54 | each level prompt is the shared first line, the line naming the level, that level's four guidance lines and the shared closing lines |
| Backend.PromptsEndWithTail | backend/app.py:18-54 | every level prompt ends with "Texte à simplifier: " |
| Backend.PromptDeterminesRequest | backend/app.py:86 | the prompt determines the level and the text it was built from |
| Backend.DistinctLevelsDistinctPrompts | backend/app.py:19-26 | prompts built for two different levels differ whatever guidance and text follow the level line |
| Backend.LevelLinesDiffer | backend/app.py:20-47 | the level lines of two different levels differ at some position |
| Wire.KnownLevelReachesModel | backend/app.py:86-106 | for any table, a page request at a level in the table reaches the model with that level's prompt, and its reply returns to the page as the simplified text |
| Wire.UnknownLevelIsRefused | backend/app.py:82-83 | for any table, a page request at a level outside it is refused with 400 before the model is called |
| Wire.ServiceErrorsReadAsStatus | backend/app.py:108-110 | for any table, the page succeeds exactly on a 200 answer and never shows the service's `error` text, only the status |
| Wire.PageAndService | backend/app.py:100-110 | for any table, a request in flight answered by the service ends in the simplified view and a cache entry, or in the error view naming the status with the cache unchanged |

## Left out

- popup.js and background.js are not part of this model. That includes the popup's settings UI, its inject-and-resend, its status polling and the context-menu overlay.
- The browser host is reduced to values.
  - `chrome.storage`, `chrome.runtime.onMessage` and `fetch` become parameters: the stored keys, the messages, and each request's outcome.
  - The DOM becomes parameters too: the selection's bounding box, the viewport, and whether a click landed inside the tooltip.
  - Console logging is left out.
- Rendered HTML is not modelled. The tooltip's content is a `View` value. The unescaped interpolation of texts into `innerHTML` is outside the model.
- Whether the page's own scripts can see `window.retrySimplification` from an inline handler is host behaviour. `Content.Page.Retry` models the function itself.
- The apostrophe defect of the Retry button is stated with `Content.RetryArgument` and `Scenarios.ApostropheBlocksRetry`. The model does not go on to parse the broken handler.
- Content.RetryArgument: a text with an apostrophe gets no argument. For some such texts the broken handler still parses, for example one ending in `')(`, which `encodeURIComponent` leaves as it is; that handler retries only the text before the apostrophe. The model does not follow this case, and `Content.Page.ClickRetryButton` treats every such click as doing nothing.
- Uri.EncodeURIComponent: model strings are sequences of Unicode scalar values. A JavaScript string may hold a lone surrogate, on which `encodeURIComponent` throws a URIError while the error view is rendered. That case is not modelled.
- Concurrency is reduced to a send step and a completion step in any order. Microtask ordering and the timers are not modelled.
- Pixel coordinates are integers. The browser uses floating-point values.
- Content.Settle: JSON values read from a reply are limited to what the service sends. `error` is a string or absent, and `simplified_text` is a string or absent. JavaScript truthiness of other values is not modelled.
- Content.Page.OnMessage: `enabled` and `level` are a boolean and a string. The script does not check their types.
- Backend.SimplifyEndpoint: the body is an optional JSON object. Non-object JSON bodies, `get_json` rejecting the content type, Flask's 405 for other methods, CORS headers, logging and `app.run` are not modelled.
- Backend.SimplifyEndpoint: a body that is not valid JSON makes `get_json` raise BadRequest inside the `try`, which the handler turns into a 500 carrying its message. The model has no such body.
- Backend.HealthCheck: the models listing is passed through as an opaque value.
- Backend.HealthCheck: `jsonify` of the listing runs inside the `try` and could raise on a value it cannot serialise, giving the 503 answer. The model takes serialisation to succeed.
- Wire.Deliver: the HTTP reason phrase comes from the server library and is a parameter.
