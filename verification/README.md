# Webs chat gateway — decision logic in Dafny

Webs is a small chat backend. It accepts a user message and answers it in one of three ways:

- with a fixed self-introduction when the message asks who the assistant is;
- with an error reply;
- with the text that a third-party text-generation provider (Gemini or OpenRouter) returns.

The repository has two variants of the server:

- `src/server.js` serves `/api/chat`. It sends one request to the provider named in its configuration.
- `server.js` serves `/chat`. It tries a fixed list of free OpenRouter models in order and stops at the first one that answers.

This project models what both routes decide once every outside effect is taken as an input:

- the similarity score of the `string-similarity` library;
- the outcome of each `fetch` and `response.json()`;
- the `PROVIDER` setting.

Modules:

- `Results`: `Option` stands for a JavaScript value that may be `undefined`, and `Result` for a computation that may throw.
- `Json`: parsed response bodies, JavaScript truthiness, and optional chains such as `data?.choices?.[0]?.message?.content`. An optional chain is `Walk` over a path of `Step`s. `Nest` is its inverse: it builds the smallest body that holds a value at a given path.
- `Text`: `toLowerCase`, `includes` and `trim`.
- `Intent`: the creator-question classifier. The fuzzy test `compareTwoStrings(msg, phrase) >= 0.7` is a parameter `similar` of type `Similarity`.
- `Exchange`: a provider attempt (`Threw` or `Answered(body)`), the HTTP answer (`Response(status, reply)`), and the number of provider requests a route issued (`Handled`).
- `ApiServer`: the `/api/chat` route, the Gemini and OpenRouter reply extraction, and the provider setting.
- `LegacyServer`: the `/chat` route and the `getAIResponse` fallback over the model list. `FallbackFrom`/`Chain` is a recursive reference definition. The loop in `GetAIResponse` is proved to agree with it.

`ApiServer.Chat` and `LegacyServer.Chat` take the phrase list as a parameter. `LegacyServer.Chat` also takes the model list. The lists deployed in the source are the constants `CreatorPhrases` (one per server) and `Models`.

Two differences between the routes show up in the contracts:

- `/api/chat` rejects an empty message with status 400. `/chat` has no such check, so an empty message that is not an identity question goes to the models.
- OpenRouter content is trimmed in `/api/chat`, and calling `trim` on content that is neither a string nor `null` throws, which gives status 500. `/chat` returns the content verbatim when it is truthy.

## Model

| member | source | states |
|---|---|---|
| Json.WalkNest | src/server.js:79 | reading an optional chain back along the path of a body built by `Nest` finds exactly the value nested there |
| Json.WalkStopsAtMissingPrefix | src/server.js:79 | once any prefix of an optional chain is `undefined`, the whole chain is `undefined` |
| Text.LowerChar | src/server.js:43 | the lowered character is never a capital, is unchanged exactly when the input is not a capital, and otherwise is the capital's code point plus 32 |
| Text.Lower | src/server.js:43 | lower-casing keeps the length, maps each character by `LowerChar` and leaves no capital |
| Text.LowerFixesExactlyLowerCase | src/server.js:43 | lower-casing leaves a string unchanged if and only if the string has no capitals |
| Text.LowerIdempotent | server.js:59 | lower-casing twice gives the same result as lower-casing once |
| Text.Includes | src/server.js:46 | `includes` is true if and only if the substring occurs at some index of the string |
| Text.NoCapitalInsideLowerCase | src/server.js:43-46 | a string with no capitals never includes a string that has a capital |
| Text.IncludesItself | src/server.js:46 | every string includes itself |
| Text.TrimStart | src/server.js:99 | the result is a suffix of the input, the dropped prefix is all white space, and the result does not start with white space |
| Text.TrimEnd | src/server.js:99 | the result is a prefix of the input, the dropped suffix is all white space, and the result does not end with white space |
| Text.Trim | src/server.js:99 | the result is a slice of the input between a white-space prefix and a white-space suffix, and it neither starts nor ends with white space |
| Text.TrimEmptyIffBlank | src/server.js:99-100 | trimming gives the empty string if and only if the input is all white space |
| Text.TrimIdempotent | src/server.js:99 | trimming a trimmed string changes nothing |
| Intent.AnyPhraseHits | src/server.js:45-49 | the classifier is true if and only if some phrase of the list occurs in the lower-cased message or is similar enough to it |
| Intent.PhraseOrderIrrelevant | src/server.js:45-49 | any reordering of the phrase list gives the same verdict |
| Intent.ContainedPhraseMatches | src/server.js:43-46 | a message whose lower-cased text contains a listed phrase is an identity question, whatever the similarity relation says |
| Intent.LowerCasePhraseMatchesItself | server.js:89-91 | a listed phrase with no capitals is classified as an identity question when it is sent verbatim |
| Intent.CapitalisedPhraseOnlyFuzzy | server.js:89-95 | a phrase with a capital never occurs in the lower-cased message, so it hits exactly when the similarity test holds |
| ApiServer.ProviderSetting | src/server.js:17 | the selected provider is never empty: it is the configured value, or "gemini" when the setting is unset or empty |
| ApiServer.GeminiReply | src/server.js:78-80 | the Gemini reply is always truthy, and it is either the value at `candidates[0].content.parts[0].text` or the fixed "No response from Gemini" text |
| ApiServer.GeminiReplyFound | src/server.js:79 | a present, truthy text is passed on unchanged |
| ApiServer.GeminiReplyMissing | src/server.js:79-80 | a missing or falsy text gives the fallback text |
| ApiServer.GeminiReplyOfWellFormedBody | src/server.js:78-80 | a well-formed Gemini body with a non-empty text yields exactly that text |
| ApiServer.GeminiReplyWithoutCandidates | src/server.js:79-80 | a body without `candidates` gives the fallback text, whatever else it holds |
| ApiServer.TrimmedOr | src/server.js:99-100 | trimming with a fallback never throws: it gives `Trim(s)` when `s` is not all white space and the fallback otherwise, so with a non-blank fallback the result is a non-empty string with no white space at either end |
| ApiServer.OpenRouterReply | src/server.js:98-100 | extraction throws if and only if the content is present and is neither a string nor `null`; otherwise the reply is a non-empty string that neither starts nor ends with white space |
| ApiServer.OpenRouterReplyTrimmed | src/server.js:99 | content that is not all white space is returned trimmed |
| ApiServer.OpenRouterReplyFallback | src/server.js:99-100 | missing content, `null` content or all-white-space content gives the fixed "No response from OpenRouter" text |
| ApiServer.Chat | src/server.js:41-113 | an identity question gets the fixed reply with status 200 and no provider request; status 400 with the fixed text occurs if and only if the message is empty and not an identity question; an unknown provider gets the fixed hint with status 200 and no request; only "gemini" and "openrouter" are contacted, once each; status 500 with the connection-error text occurs if and only if the provider path throws; every other provider answer gets status 200 with the reply its extraction gives |
| ApiServer.CapitalisedPhrasesNeedSimilarity | src/server.js:27-28 | "so its Edison Chazumbwa who made you", "who is Edison Chazumbwa" and "do you know Edison Chazumbwa" never occur in any lower-cased message |
| LegacyServer.ModelContent | server.js:36-43 | an attempt contributes content exactly when it answered with a truthy `choices[0].message.content`, and that content is returned verbatim |
| LegacyServer.FallbackFrom | server.js:20-50 | models are requested in list order and never beyond the list; the run returns the content of the first successful attempt, and every earlier attempt failed; it throws "All models failed" if and only if every attempt failed, and then every model was requested |
| LegacyServer.FirstSuccessWins | server.js:38-40 | when attempt k is the first success, the reply is its content and exactly models 0..k are requested |
| LegacyServer.GetAIResponse | server.js:20-50 | the loop returns the same value or error, and requests the same models, as the recursive fallback definition |
| LegacyServer.Chat | server.js:57-112 | an identity question gets the fixed reply with status 200 and no model request; otherwise status 500 with "All AI models failed" occurs if and only if every model failed, after requesting them all; any other reply is the content of the first successful model, with status 200 |
| LegacyServer.DeployedRouteCalls | server.js:14-18 | with the three deployed models, a non-identity message costs between one and three model requests |
| LegacyServer.CapitalisedPhrasesNeedSimilarity | server.js:79-81 | "so its Edison Chazumbwa who made you", "Who is Edison Chazumbwa" and "Do you know Edison Chazumbwa" never occur in any lower-cased message |

## Left out

- HTTP routing, CORS, dotenv, `app.listen`, the `/` status route and console logging are plumbing with no behaviour to state.
- Network requests are not modelled. Each `fetch` plus `response.json()` becomes an input `Attempt`: it either threw or answered with a JSON body. Timeouts, HTTP status codes and request bodies are outside the model. The request message and the API keys only shape those requests, so they do not appear.
- `string-similarity`'s `compareTwoStrings` and the 0.7 threshold are third-party floating-point code. The classifier takes the test as the `similar` relation instead.
- Text.Lower: only the ASCII capitals and the Latin-1 capitals U+00C0 to U+00DE are mapped. Other Unicode case mappings of `toLowerCase`, such as Greek, Cyrillic or the multi-character results, are not modelled. JavaScript strings are also UTF-16 code units, while the model uses Unicode scalar values.
- JSON numbers are integers in the model. Floating-point values and `NaN` are not modelled. Their only role here is truthiness, which `JNum(n)` gives as `n != 0`.
- Json.Select: property reads only find object fields. Reads of built-in properties such as `length` on strings and arrays are not modelled, and none of the property names the routes read are built in.
- A `message` that is not a string is not modelled. Both routes call `toLowerCase` on it before any check, so `undefined` crashes before the route logic runs.
- `src/providers.js` (`callGroq` and a stray fragment that does not parse) is not reachable from either route and is not part of this model. Neither is `test-openrouter.js`, which is a network smoke-test script.
- The session history, per-session quota and response cache that a fuller gateway would have do not exist in either server, so there is nothing to model.
- Concurrent requests are not modelled. Each request is a pure function of its inputs.
