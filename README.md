# Chat relay handlers, modelled in Dafny

The repository has two Netlify functions. Each one relays a browser chat request to Google's Gemini
`generateContent` endpoint and keeps the API key on the server:

- `netlify/functions/gemini.js` (module `GeminiProxy`). It answers the CORS preflight and reads the
  key from `GEMINI_API_KEY` or `GOOGLE_API_KEY`. It builds `contents` from a caller-supplied
  `contents` array or from `messages`, and it clamps `maxOutputTokens` and `temperature`. It attaches
  a `systemInstruction` when the system text is not blank. It passes the upstream document back
  unchanged, or relays the upstream's own error status.
- `netlify/functions/ai-chat.js` (module `AiChat`). It accepts POST only and reads `GEMINI_API_KEY`.
  It pushes the history turns and the current message into `contents`. It always sends temperature
  0.7 and 1000 output tokens. It answers with `{ text }`: the first candidate's part texts joined with
  `"\n"`, or a fixed apology when there is none.

The two handlers are modelled separately, as written. They differ in role mapping, defaults, response
shape and invalid-JSON status.

Each handler is a method `Handle` taking the HTTP method, the key(s), the outcome of parsing the body
and an abstract upstream outcome. It returns the response record and `sent`. `sent` is the request
handed to `fetch`, or `None` when the handler returned before calling upstream. The handler's
`ensures` state the dispatch order, which exits never reach upstream, what is sent and how the
upstream outcome is mapped. Pure pieces are functions with lemmas:

- role mapping, contents normalisation, parameter selection and clamping, system-instruction
  attachment, reply extraction;
- the JavaScript built-ins they use, in module `JsRuntime`: `trim`, `join`, and `Math.max`/`Math.min`
  clamping.

`ai-chat.js` grows `contents` with a loop that pushes. `AiChat.BuildContents` is that loop, proved
against `ExpectedContents`.

Inputs are the values the JavaScript reads after coercion:

- `Number(v)` is a `Num`: finite real or non-finite.
- A field read with `||` is `None` when it is falsy.
- A field read with `??` is `None` when it is nullish.
- `Array.isArray` decides whether `messages` and `contents` are `Some`.

Responses are `Http.Response(statusCode, headers, body)`. The body is a variant per serialised
object shape.

`ai-chat.js` has a preflight branch (lines 18-20) that can never run: the POST-only check on line 6
already answered OPTIONS with 405. `AiChat.Handle` keeps that branch with `assert false` in it, and
its first postcondition states that OPTIONS gets 405.

## Model

| member | source | states |
|---|---|---|
| `JsRuntime.Clamp` | netlify/functions/gemini.js:76-81 | `Math.max(lo, Math.min(hi, x))` lies in [lo, hi]: x inside the range is kept, below gives lo, above gives hi |
| `JsRuntime.TrimStart` | netlify/functions/gemini.js:85 | the result is a suffix of the input, every dropped character is whitespace, and it does not start with whitespace |
| `JsRuntime.TrimEnd` | netlify/functions/gemini.js:85 | the result is a prefix of the input, every dropped character is whitespace, and it does not end with whitespace |
| `JsRuntime.Trim` | netlify/functions/gemini.js:85 | `s.trim()` is no longer than `s`, neither starts nor ends with whitespace, and is non-empty whenever `s` has a visible character |
| `JsRuntime.TrimEmptyIff` | netlify/functions/gemini.js:85 | `s.trim()` is empty exactly when every character of `s` is ECMAScript whitespace or a line terminator |
| `JsRuntime.Join` | netlify/functions/ai-chat.js:85 | `join` of no pieces is ""; otherwise the result starts with the first piece and its length is the pieces' total length plus one separator between each pair of neighbours |
| `JsRuntime.JoinEmptyIff` | netlify/functions/ai-chat.js:85 | with a non-empty separator, a join is empty exactly when there are no parts, or one empty part |
| `JsRuntime.SplitJoin` | netlify/functions/ai-chat.js:85 | round trip: splitting a `join("\n")` of newline-free pieces on `"\n"` gives the pieces back |
| `GeminiProxy.JsonResponse` | netlify/functions/gemini.js:4-14 | keeps the status and body; `Content-Type` and `Cache-Control` are always present; the caller's extra headers override them; the other base headers are kept |
| `GeminiProxy.PayloadOf` | netlify/functions/gemini.js:42-47 | an absent or empty body reads as `{}`; only a body that fails to parse leaves no payload |
| `GeminiProxy.SelectKey` | netlify/functions/gemini.js:34-35 | no key exactly when neither variable is set non-empty; `GEMINI_API_KEY` is preferred when both are set; the key chosen is never empty |
| `GeminiProxy.MapRole` | netlify/functions/gemini.js:67-68 | "assistant" becomes "model", a missing or falsy role (the empty string included) becomes "user", any other role passes through unchanged; the result is never "assistant" and never empty |
| `GeminiProxy.ToTurn` | netlify/functions/gemini.js:66-70 | a mapped message is never an "assistant" turn; an "assistant" message becomes a "model" turn; its text is the content, or "" when the content is nullish |
| `GeminiProxy.NormaliseContents` | netlify/functions/gemini.js:60-71 | an array `contents` is forwarded verbatim and `messages` is ignored; otherwise one turn per message, in the same order; no messages give no turns |
| `GeminiProxy.MappedTurns` | netlify/functions/gemini.js:66-71 | each mapped turn keeps its message's content, with missing content as ""; assistant becomes model, a missing role becomes user, and no turn is "assistant" |
| `GeminiProxy.SelectMaxOutputTokens` | netlify/functions/gemini.js:54-56 | the first non-nullish of `max_output_tokens`, `maxOutputTokens`, `max_tokens`, else 1000 |
| `GeminiProxy.SelectTemperature` | netlify/functions/gemini.js:57-58 | the given temperature (0 included), or 0.4 when it is nullish |
| `GeminiProxy.ClampMaxOutputTokens` | netlify/functions/gemini.js:76-78 | the value lies in [1, 8192]; a non-finite value gives 1000; in-range values are kept and out-of-range ones go to the nearer bound |
| `GeminiProxy.ClampTemperature` | netlify/functions/gemini.js:79-81 | the value lies in [0, 2]; a non-finite value gives 0.4; in-range values are kept and out-of-range ones go to the nearer bound |
| `GeminiProxy.Config` | netlify/functions/gemini.js:75-82 | `generationConfig` has `maxOutputTokens` in [1, 8192] and `temperature` in [0, 2] for every payload |
| `GeminiProxy.ConfigInRange` | netlify/functions/gemini.js:54-58 | for every payload, tokens lie in [1, 8192] and temperature in [0, 2]; an explicit temperature 0 stays 0; absent fields give 1000 and 0.4 |
| `GeminiProxy.SystemText` | netlify/functions/gemini.js:53 | the system text is "" for a falsy `system`, and the given text otherwise |
| `GeminiProxy.SystemInstructionFor` | netlify/functions/gemini.js:85-91 | `systemInstruction` is present exactly when the system text has a non-whitespace character, and it then carries the untrimmed text with role "system" |
| `GeminiProxy.BuildRequest` | netlify/functions/gemini.js:73-91 | an array `contents` is sent verbatim, otherwise mapped turns; both knobs are in range; a system instruction carries the system text untrimmed, and there is none for a falsy `system` |
| `GeminiProxy.EmptyBodyRequest` | netlify/functions/gemini.js:44 | an absent body reads as `{}`: no turns, 1000 tokens, temperature 0.4, no system instruction |
| `GeminiProxy.UpstreamData` | netlify/functions/gemini.js:104-110 | `data` is the parsed upstream body, or `{ raw: text }` when the body is not JSON |
| `GeminiProxy.MapUpstream` | netlify/functions/gemini.js:112-129 | a non-ok status is relayed with `details` = data; an ok status gives 200 with data passed through; a thrown error gives 500 with its message; pass-through happens exactly for an ok status |
| `GeminiProxy.Handle` | netlify/functions/gemini.js:16-130 | OPTIONS gives 204 with an empty body; other non-POST methods give 405; a missing key gives 500; invalid JSON gives 400. None of these calls upstream. Otherwise exactly the key and `BuildRequest(payload)` are sent, and the response is `MapUpstream` of the outcome |
| `AiChat.MapRole` | netlify/functions/ai-chat.js:42 | the role is "model" exactly for "assistant", and every other value, missing included, is "user" |
| `AiChat.HistoryTurnsAt` | netlify/functions/ai-chat.js:39-46 | the history turns have the history's length, and turn i comes from entry i |
| `AiChat.HistoryTurns` | netlify/functions/ai-chat.js:39-46 | the loop pushes one turn per history entry, so the history turns have the history's length |
| `AiChat.ExpectedContents` | netlify/functions/ai-chat.js:36-52 | `contents` has one turn per history entry plus one (one with no history), and the last is a user turn holding `message` as given |
| `AiChat.ContentsShape` | netlify/functions/ai-chat.js:36-52 | `contents` has length history + 1 (1 with no history); the last turn is the user's message; turn i keeps entry i's content; its role is model exactly for "assistant" and user otherwise |
| `AiChat.BuildContents` | netlify/functions/ai-chat.js:36-52 | the pushing loop yields exactly `ExpectedContents`, and throws (with the TypeError message) exactly when a history entry is null |
| `AiChat.FirstParts` | netlify/functions/ai-chat.js:85 | `data.candidates?.[0]?.content?.parts` is present exactly when there is a first candidate whose content has parts, and it is those parts |
| `AiChat.Texts` | netlify/functions/ai-chat.js:85 | one text per part, in order; a missing text joins as "" |
| `AiChat.ExtractReply` | netlify/functions/ai-chat.js:84-86 | the reply is never empty. A missing candidate, content or parts gives the fallback. It throws exactly when a part is null. Otherwise the reply is the part texts joined with "\n", or the fallback when that join is empty |
| `AiChat.FallbackWhenNothingToJoin` | netlify/functions/ai-chat.js:84-86 | with null-free parts present, the join is empty (so the fallback is used) exactly when there are no parts, or one part with an empty or missing text |
| `AiChat.ReplyFromParts` | netlify/functions/ai-chat.js:84-86 | when no part text contains "\n": the reply is the fallback exactly when the join is empty or equals the fallback text, and otherwise the reply splits on "\n" back into the parts' texts |
| `AiChat.TwoPartsJoined` | netlify/functions/ai-chat.js:84-86 | parts "a" and "b" give the reply "a\nb" |
| `AiChat.MapReply` | netlify/functions/ai-chat.js:72-100 | status is 200 exactly for a `{ text }` reply, else 500. A truthy `data.error` gives its message or "Gemini API error". Every thrown error gives "Internal server error: " + its message: a failed fetch, a failed `response.json()`, a `null` document, and a null part. The upstream status is never read |
| `AiChat.Handle` | netlify/functions/ai-chat.js:4-101 | every non-POST method, OPTIONS included, gives 405. A missing key gives 500 before the body is read. A body or history that throws gives 500 with its message. None of these calls upstream. Otherwise the system text, `ExpectedContents`, temperature 0.7 and 1000 tokens are sent, and the response is `MapReply` of the outcome |

## Left out

- The `fetch` call and reading its body, `async`/`await`, and `JSON.parse`/`JSON.stringify`. They
  are inputs (the parse outcome, the upstream outcome) and record values (request and body datatypes).
- `process.env`: the keys are `Option<string>` parameters; an empty value counts as unset, as `||`
  and `!` treat it.
- URL construction, `encodeURIComponent`, and the model name (`payload.model` in gemini.js, fixed in
  ai-chat.js): the URL is not modelled, only the key that goes into it.
- `console.error` logging in ai-chat.js: a side channel with no effect on the response.
- JavaScript coercions in gemini.js: `Number(v)` and `toString()` of non-strings. Its fields hold
  the coerced values, and NaN/Infinity are a single non-finite case. In ai-chat.js, `system`,
  `message` and the history contents are sent as they are (any JSON value, `null` included), and
  the model keeps them as JSON values.
- AiChat.Texts: a part `text` that is not a string, `null` or undefined (a number, an object) is
  printed by `join` through `toString`. The model limits part texts to strings or missing.
- `JSON.stringify` dropping an undefined `text` or `system_instruction` text: these stay `None` in
  the outgoing records.
- GeminiProxy.Handle: a body that parses to the JSON literal `null` makes gemini.js throw at line 50,
  outside any `try`, and the platform then answers. A `RequestBody` cannot express that input.
- AiChat.Handle: a truthy `history` that is not an array (a string, an object with `length`) is not
  modelled. `history` is an array or falsy.
- AiChat.ExtractReply: `candidates` or `parts` values that are not arrays are not modelled (`.map`
  on them would throw). Both are arrays or absent.
- AiChat.NullEntryMessage and AiChat.NullPartMessage use V8's TypeError wording; other engines word
  the message differently.
- Hosting, concurrency and cold starts: every invocation is independent.
