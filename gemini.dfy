/** netlify/functions/gemini.js: a proxy that forwards a chat request to
    the Gemini `generateContent` endpoint and passes the upstream document
    back unchanged. */
module GeminiProxy {
  import opened Wrappers
  import opened JsRuntime
  import opened Http

  const DefaultMaxOutputTokens: real := 1000.0
  const MinOutputTokens: real := 1.0
  const MaxOutputTokensLimit: real := 8192.0
  const DefaultTemperature: real := 0.4
  const MinTemperature: real := 0.0
  const MaxTemperature: real := 2.0

  const MethodNotAllowed := "Method not allowed. Use POST."
  const MissingKey := "Missing GEMINI_API_KEY (or GOOGLE_API_KEY) environment variable in your Netlify site settings."
  const InvalidJson := "Invalid JSON body."
  const UpstreamError := "Gemini API error"
  const ServerError := "Server error calling Gemini API"

  /** Headers every `json(...)` response starts from. */
  const BaseHeaders: Headers :=
    map["Content-Type" := "application/json; charset=utf-8", "Cache-Control" := "no-store"]

  const PreflightHeaders: Headers :=
    map["Access-Control-Allow-Origin" := "*",
        "Access-Control-Allow-Headers" := "Content-Type",
        "Access-Control-Allow-Methods" := "POST, OPTIONS"]

  /** One element of `payload.messages`. `role` is the text of `m?.role`,
      None when that is a falsy non-string or `m` is nullish (the string ""
      is falsy as well); `content` is the text of `m?.content` and None
      when that is nullish. */
  datatype Message = Message(role: Option<string>, content: Option<string>)

  /** The parsed request body. `system` is the text of a truthy `system`
      (None when falsy); each number field holds `Number(v)` of a
      non-nullish `v` (None when nullish); `messages` and `contents` are
      Some exactly when the field is an array. */
  datatype Payload = Payload(
    system: Option<string>,
    maxOutputTokensSnake: Option<Num>,  // max_output_tokens
    maxOutputTokensCamel: Option<Num>,  // maxOutputTokens
    maxTokens: Option<Num>,             // max_tokens
    temperature: Option<Num>,
    messages: Option<seq<Message>>,
    contents: Option<seq<Json>>)

  /** The payload `JSON.parse('{}')` gives. */
  const EmptyPayload := Payload(None, None, None, None, None, None, None)

  /** `event.body`: absent or empty (falsy), or text with the outcome of
      `JSON.parse` on it (None when it throws). */
  datatype RequestBody = NoBody | BodyText(parsed: Option<Payload>)

  /** `{ role, parts: [{ text }] }` */
  datatype Turn = Turn(role: string, text: string)

  /** The outgoing `contents`: the caller's array as it came, or one turn
      per message. */
  datatype Contents = Verbatim(items: seq<Json>) | Mapped(turns: seq<Turn>)

  datatype GenerationConfig = GenerationConfig(maxOutputTokens: real, temperature: real)

  /** `{ role, parts: [{ text }] }` sent as `systemInstruction`. */
  datatype Instruction = Instruction(role: string, text: string)

  datatype GenerateRequest = GenerateRequest(
    contents: Contents,
    generationConfig: GenerationConfig,
    systemInstruction: Option<Instruction>)

  /** What is sent upstream: the key put in the query string and the body. */
  datatype Outbound = Outbound(apiKey: string, request: GenerateRequest)

  /** What the upstream call gives: a thrown error (from `fetch` or from
      reading the body) with its message, or a status with the body text
      and the outcome of `JSON.parse` on it. */
  datatype Upstream =
    | TransportFailure(message: string)
    | Responded(status: int, text: string, parsed: Option<Json>)

  /** The `json(statusCode, bodyObj, extraHeaders)` helper: the two base
      headers are always present, and the caller's headers win on a clash. */
  function JsonResponse(statusCode: int, body: Body, extraHeaders: Headers): (r: Response)
    ensures r.statusCode == statusCode && r.body == body
    ensures r.headers.Keys == BaseHeaders.Keys + extraHeaders.Keys
    ensures "Content-Type" in r.headers && "Cache-Control" in r.headers
    ensures forall k :: k in extraHeaders ==> r.headers[k] == extraHeaders[k]
    ensures forall k :: k in BaseHeaders && k !in extraHeaders ==> r.headers[k] == BaseHeaders[k]
  {
    Response(statusCode, BaseHeaders + extraHeaders, body)
  }

  /** `GEMINI_API_KEY || GOOGLE_API_KEY`. */
  function SelectKey(geminiKey: Option<string>, googleKey: Option<string>): (r: Option<string>)
    ensures r.None? <==> !Truthy(geminiKey) && !Truthy(googleKey)
    ensures r.Some? ==> r.value != ""
    ensures Truthy(geminiKey) ==> r == geminiKey
    ensures !Truthy(geminiKey) && Truthy(googleKey) ==> r == googleKey
  {
    if Truthy(geminiKey) then geminiKey
    else if Truthy(googleKey) then googleKey
    else None
  }

  /** The payload the handler goes on with: an absent body reads as `{}`,
      and only text that does not parse gives none. */
  function PayloadOf(body: RequestBody): (r: Option<Payload>)
    ensures r.None? <==> body == BodyText(None)
    ensures body.NoBody? ==> r == Some(EmptyPayload)
    ensures body.BodyText? && body.parsed.Some? ==> r == body.parsed
  {
    match body
    case NoBody => Some(EmptyPayload)
    case BodyText(parsed) => parsed
  }

  /** `(m?.role || 'user').toString()`, then "assistant" becomes "model". */
  function MapRole(role: Option<string>): (r: string)
    ensures role == Some("assistant") ==> r == "model"
    ensures !Truthy(role) ==> r == "user"
    ensures Truthy(role) && role.value != "assistant" ==> r == role.value
    ensures r != "assistant" && r != ""
  {
    var roleRaw := if Truthy(role) then role.value else "user";
    if roleRaw == "assistant" then "model" else roleRaw
  }

  /** One element of `messages.map(...)`: never an "assistant" turn, and
      missing content becomes "". */
  function ToTurn(m: Message): (t: Turn)
    ensures t.role != "assistant"
    ensures m.content.Some? ==> t.text == m.content.value
    ensures m.content.None? ==> t.text == ""
    ensures m.role == Some("assistant") ==> t.role == "model"
  {
    Turn(MapRole(m.role), m.content.GetOr(""))
  }

  /** `contents ? contents : (messages || []).map(...)`. */
  function NormaliseContents(p: Payload): (r: Contents)
    ensures p.contents.Some? ==> r == Verbatim(p.contents.value)
    ensures p.contents.None? && p.messages.None? ==> r == Mapped([])
    ensures p.contents.None? && p.messages.Some? ==>
      r.Mapped? && |r.turns| == |p.messages.value| &&
      forall i :: 0 <= i < |r.turns| ==> r.turns[i] == ToTurn(p.messages.value[i])
  {
    if p.contents.Some? then Verbatim(p.contents.value)
    else
      var ms := p.messages.GetOr([]);
      Mapped(seq(|ms|, i requires 0 <= i < |ms| => ToTurn(ms[i])))
  }

  /** No mapped turn carries the role "assistant", and every message keeps
      its position and its text. */
  lemma MappedTurns(p: Payload, i: int)
    requires p.contents.None? && p.messages.Some?
    requires 0 <= i < |p.messages.value|
    ensures NormaliseContents(p).turns[i].role != "assistant"
    ensures NormaliseContents(p).turns[i].text == p.messages.value[i].content.GetOr("")
    ensures p.messages.value[i].role == Some("assistant") ==> NormaliseContents(p).turns[i].role == "model"
    ensures !Truthy(p.messages.value[i].role) ==> NormaliseContents(p).turns[i].role == "user"
  {
  }

  /** `max_output_tokens ?? maxOutputTokens ?? max_tokens ?? 1000`, coerced. */
  function SelectMaxOutputTokens(p: Payload): (n: Num)
    ensures p.maxOutputTokensSnake.Some? ==> n == p.maxOutputTokensSnake.value
    ensures p.maxOutputTokensSnake.None? && p.maxOutputTokensCamel.Some? ==>
      n == p.maxOutputTokensCamel.value
    ensures p.maxOutputTokensSnake.None? && p.maxOutputTokensCamel.None? && p.maxTokens.Some? ==>
      n == p.maxTokens.value
    ensures p.maxOutputTokensSnake.None? && p.maxOutputTokensCamel.None? && p.maxTokens.None? ==>
      n == Finite(DefaultMaxOutputTokens)
  {
    match (p.maxOutputTokensSnake, p.maxOutputTokensCamel, p.maxTokens)
    case (Some(n), _, _) => n
    case (None, Some(n), _) => n
    case (None, None, Some(n)) => n
    case (None, None, None) => Finite(DefaultMaxOutputTokens)
  }

  /** `temperature === 0 ? 0 : Number(temperature ?? 0.4)`. The test on 0
      looks at the raw value; here it sees the coerced one, which gives
      the same number for every raw value whose `Number` is 0. */
  function SelectTemperature(p: Payload): (n: Num)
    ensures p.temperature.None? ==> n == Finite(DefaultTemperature)
    ensures p.temperature.Some? ==> n == p.temperature.value
  {
    if p.temperature == Some(Finite(0.0)) then Finite(0.0)
    else p.temperature.GetOr(Finite(DefaultTemperature))
  }

  /** `Number.isFinite(n) ? Math.max(1, Math.min(8192, n)) : 1000`. */
  function ClampMaxOutputTokens(n: Num): (r: real)
    ensures MinOutputTokens <= r <= MaxOutputTokensLimit
    ensures n.NonFinite? ==> r == DefaultMaxOutputTokens
    ensures n.Finite? && MinOutputTokens <= n.value <= MaxOutputTokensLimit ==> r == n.value
    ensures n.Finite? && n.value < MinOutputTokens ==> r == MinOutputTokens
    ensures n.Finite? && MaxOutputTokensLimit < n.value ==> r == MaxOutputTokensLimit
  {
    match n
    case Finite(x) => Clamp(MinOutputTokens, MaxOutputTokensLimit, x)
    case NonFinite => DefaultMaxOutputTokens
  }

  /** `Number.isFinite(t) ? Math.max(0, Math.min(2, t)) : 0.4`. */
  function ClampTemperature(n: Num): (r: real)
    ensures MinTemperature <= r <= MaxTemperature
    ensures n.NonFinite? ==> r == DefaultTemperature
    ensures n.Finite? && MinTemperature <= n.value <= MaxTemperature ==> r == n.value
    ensures n.Finite? && n.value < MinTemperature ==> r == MinTemperature
    ensures n.Finite? && MaxTemperature < n.value ==> r == MaxTemperature
  {
    match n
    case Finite(x) => Clamp(MinTemperature, MaxTemperature, x)
    case NonFinite => DefaultTemperature
  }

  /** `generationConfig`: both knobs within the upstream's ranges. */
  function Config(p: Payload): (c: GenerationConfig)
    ensures MinOutputTokens <= c.maxOutputTokens <= MaxOutputTokensLimit
    ensures MinTemperature <= c.temperature <= MaxTemperature
  {
    GenerationConfig(ClampMaxOutputTokens(SelectMaxOutputTokens(p)),
                     ClampTemperature(SelectTemperature(p)))
  }

  /** Whatever the payload says, both knobs stay in the range the upstream
      accepts; an explicit temperature of 0 stays 0 and an absent one is 0.4. */
  lemma ConfigInRange(p: Payload)
    ensures MinOutputTokens <= Config(p).maxOutputTokens <= MaxOutputTokensLimit
    ensures MinTemperature <= Config(p).temperature <= MaxTemperature
    ensures p.temperature == Some(Finite(0.0)) ==> Config(p).temperature == 0.0
    ensures p.temperature.None? ==> Config(p).temperature == DefaultTemperature
    ensures p.maxOutputTokensSnake.None? && p.maxOutputTokensCamel.None? && p.maxTokens.None? ==>
      Config(p).maxOutputTokens == DefaultMaxOutputTokens
  {
  }

  /** `(payload.system || '').toString()`: "" for a falsy `system`. */
  function SystemText(p: Payload): (s: string)
    ensures !Truthy(p.system) ==> s == ""
    ensures Truthy(p.system) ==> s == p.system.value
  {
    if Truthy(p.system) then p.system.value else ""
  }

  /** `if (system.trim()) reqBody.systemInstruction = ...`: present exactly
      when the system text has a non-whitespace character, and then it
      carries the untrimmed text. */
  function SystemInstructionFor(system: string): (r: Option<Instruction>)
    ensures r.Some? <==> exists i :: 0 <= i < |system| && !IsWhitespace(system[i])
    ensures r.Some? ==> r.value == Instruction("system", system)
  {
    TrimEmptyIff(system);
    if Trim(system) != "" then Some(Instruction("system", system)) else None
  }

  /** The `reqBody` the handler sends for a payload: the caller's
      `contents` array wins, both knobs are in range, and a system
      instruction, when there is one, carries the system text untrimmed. */
  function BuildRequest(p: Payload): (r: GenerateRequest)
    ensures p.contents.Some? ==> r.contents == Verbatim(p.contents.value)
    ensures p.contents.None? ==> r.contents.Mapped?
    ensures MinOutputTokens <= r.generationConfig.maxOutputTokens <= MaxOutputTokensLimit
    ensures MinTemperature <= r.generationConfig.temperature <= MaxTemperature
    ensures r.systemInstruction.Some? ==> r.systemInstruction.value == Instruction("system", SystemText(p))
    ensures !Truthy(p.system) ==> r.systemInstruction.None?
  {
    GenerateRequest(NormaliseContents(p), Config(p), SystemInstructionFor(SystemText(p)))
  }

  /** An absent body is the empty object: no turns, both defaults, no
      system instruction. */
  lemma EmptyBodyRequest()
    ensures PayloadOf(NoBody) == Some(EmptyPayload)
    ensures BuildRequest(EmptyPayload) ==
      GenerateRequest(Mapped([]), GenerationConfig(DefaultMaxOutputTokens, DefaultTemperature), None)
  {
  }

  /** `data`: the parsed upstream body, or `{ raw: text }` when it is not JSON. */
  function UpstreamData(text: string, parsed: Option<Json>): (d: Json)
    ensures parsed.Some? ==> d == parsed.value
    ensures parsed.None? ==> d == JObj([("raw", JStr(text))])
  {
    match parsed
    case Some(j) => j
    case None => JObj([("raw", JStr(text))])
  }

  /** `resp.ok`. */
  predicate IsOk(status: int) {
    200 <= status <= 299
  }

  /** The upstream outcome as a response: a failing status is relayed with
      the upstream's document as `details`, a success becomes 200 with the
      document passed through, and a thrown error becomes 500. */
  function MapUpstream(u: Upstream): (r: Response)
    ensures "Content-Type" in r.headers && "Cache-Control" in r.headers
    ensures u.TransportFailure? ==> r.statusCode == 500 && r.body == ErrorMessage(ServerError, u.message)
    ensures u.Responded? && !IsOk(u.status) ==>
      r.statusCode == u.status && r.body == ErrorDetails(UpstreamError, UpstreamData(u.text, u.parsed))
    ensures u.Responded? && IsOk(u.status) ==>
      r.statusCode == 200 && r.body == PassThrough(UpstreamData(u.text, u.parsed))
    ensures r.body.PassThrough? <==> u.Responded? && IsOk(u.status)
  {
    match u
    case TransportFailure(message) =>
      JsonResponse(500, ErrorMessage(ServerError, message), map[])
    case Responded(status, text, parsed) =>
      var data := UpstreamData(text, parsed);
      if !IsOk(status) then JsonResponse(status, ErrorDetails(UpstreamError, data), map[])
      else JsonResponse(200, PassThrough(data), map[])
  }

  /** `exports.handler`. `sent` is the request handed to `fetch`, None when
      the handler returns before calling upstream. */
  method Handle(httpMethod: string, geminiKey: Option<string>, googleKey: Option<string>,
                body: RequestBody, upstream: Upstream)
    returns (resp: Response, sent: Option<Outbound>)
    // OPTIONS is answered first, without a key, a body or an upstream call
    ensures httpMethod == "OPTIONS" ==>
      resp == Response(204, PreflightHeaders, Empty) && sent.None?
    ensures httpMethod != "OPTIONS" && httpMethod != "POST" ==>
      resp == JsonResponse(405, ErrorBody(MethodNotAllowed), map[]) && sent.None?
    // fail closed: without a key nothing is parsed and nothing is sent
    ensures httpMethod == "POST" && SelectKey(geminiKey, googleKey).None? ==>
      resp == JsonResponse(500, ErrorBody(MissingKey), map[]) && sent.None?
    ensures httpMethod == "POST" && SelectKey(geminiKey, googleKey).Some? && PayloadOf(body).None? ==>
      resp == JsonResponse(400, ErrorBody(InvalidJson), map[]) && sent.None?
    // upstream is called exactly when every check passed
    ensures sent.Some? <==>
      httpMethod == "POST" && SelectKey(geminiKey, googleKey).Some? && PayloadOf(body).Some?
    ensures sent.Some? ==>
      sent.value == Outbound(SelectKey(geminiKey, googleKey).value, BuildRequest(PayloadOf(body).value)) &&
      resp == MapUpstream(upstream)
  {
    if httpMethod == "OPTIONS" {
      return Response(204, PreflightHeaders, Empty), None;
    }
    if httpMethod != "POST" {
      return JsonResponse(405, ErrorBody(MethodNotAllowed), map[]), None;
    }

    var apiKey := SelectKey(geminiKey, googleKey);
    if apiKey.None? {
      return JsonResponse(500, ErrorBody(MissingKey), map[]), None;
    }

    var payload: Payload;
    match body {
      case NoBody =>
        payload := EmptyPayload;
      case BodyText(parsed) =>
        if parsed.None? {
          return JsonResponse(400, ErrorBody(InvalidJson), map[]), None;
        }
        payload := parsed.value;
    }

    var system := SystemText(payload);
    var reqBody := GenerateRequest(NormaliseContents(payload), Config(payload), None);
    if Trim(system) != "" {
      reqBody := reqBody.(systemInstruction := Some(Instruction("system", system)));
    }

    sent := Some(Outbound(apiKey.value, reqBody));
    match upstream {
      case TransportFailure(message) =>
        resp := JsonResponse(500, ErrorMessage(ServerError, message), map[]);
      case Responded(status, text, parsed) =>
        var data: Json;
        if parsed.Some? {
          data := parsed.value;
        } else {
          data := JObj([("raw", JStr(text))]);
        }
        if !IsOk(status) {
          resp := JsonResponse(status, ErrorDetails(UpstreamError, data), map[]);
        } else {
          resp := JsonResponse(200, PassThrough(data), map[]);
        }
    }
  }
}
