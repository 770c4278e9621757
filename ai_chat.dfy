/** netlify/functions/ai-chat.js: a proxy that turns a chat turn with its
    history into a Gemini `generateContent` call and answers with the
    reply text alone. */
module AiChat {
  import opened Wrappers
  import opened JsRuntime
  import opened Http

  const Temperature: real := 0.7
  const MaxOutputTokens: int := 1000

  const MethodNotAllowed := "Method not allowed"
  const MissingKey := "GEMINI_API_KEY not configured. Add it in Netlify > Site Settings > Environment Variables."
  const InternalErrorPrefix := "Internal server error: "
  const UpstreamError := "Gemini API error"
  const Fallback := "Sorry, I couldn't generate a response. Please contact us directly."

  /** The messages of the TypeErrors thrown on `null.role`, `null.text`
      and `null.error` (V8's wording). */
  const NullEntryMessage := "Cannot read properties of null (reading 'role')"
  const NullPartMessage := "Cannot read properties of null (reading 'text')"
  const NullDataMessage := "Cannot read properties of null (reading 'error')"

  const CorsHeaders: Headers :=
    map["Access-Control-Allow-Origin" := "*",
        "Access-Control-Allow-Headers" := "Content-Type",
        "Content-Type" := "application/json"]

  /** One element of `history`: `null`, or a value whose `role` is the
      string given (None for any other value) and whose `content` is passed
      on as it is (None when undefined). */
  datatype HistoryEntry = Entry(role: Option<string>, content: Option<Json>) | NullEntry

  /** `{ system, message, history }`; `system` and `message` are passed on
      as they are (None when undefined); `history` is None when it is falsy. */
  datatype ChatPayload = ChatPayload(
    system: Option<Json>,
    message: Option<Json>,
    history: Option<seq<HistoryEntry>>)

  /** `JSON.parse(event.body)` and its destructuring: a payload, or the
      message of what they threw (an absent body or the document `null`
      throws too). */
  datatype RequestBody = Parsed(payload: ChatPayload) | Throws(message: string)

  /** `{ role, parts: [{ text }] }`; the text is whatever value was given,
      and an undefined text stays undefined. */
  datatype Turn = Turn(role: string, text: Option<Json>)

  datatype ChatRequest = ChatRequest(
    systemInstruction: Option<Json>,  // system_instruction.parts[0].text
    contents: seq<Turn>,
    temperature: real,
    maxOutputTokens: int)

  datatype Outbound = Outbound(apiKey: string, request: ChatRequest)

  /** An element of `parts`: `null`, or a value whose `text` is the string
      given (None when null or undefined). */
  datatype Part = Part(text: Option<string>) | NullPart
  datatype CandidateContent = CandidateContent(parts: Option<seq<Part>>)
  /** A candidate; `null` and a candidate without `content` both have None. */
  datatype Candidate = Candidate(content: Option<CandidateContent>)
  /** A truthy `data.error`; `message` is None when it is falsy. */
  datatype ApiError = ApiError(message: Option<string>)
  /** The document `response.json()` gives. */
  datatype ReplyData = ReplyData(error: Option<ApiError>, candidates: Option<seq<Candidate>>)

  /** What the upstream call gives: a thrown `fetch` error, or a status
      and the outcome of `response.json()`: its message when it throws,
      else the document, None when that is `null`. */
  datatype Upstream =
    | TransportFailure(message: string)
    | Responded(status: int, data: Result<Option<ReplyData>, string>)

  predicate NullFree(h: seq<HistoryEntry>) {
    forall i :: 0 <= i < |h| ==> h[i].Entry?
  }

  /** `msg.role === "assistant" ? "model" : "user"`. */
  function MapRole(role: Option<string>): (r: string)
    ensures r == "model" <==> role == Some("assistant")
    ensures r == "user" || r == "model"
  {
    if role == Some("assistant") then "model" else "user"
  }

  function ToTurn(e: HistoryEntry): Turn
    requires e.Entry?
  {
    Turn(MapRole(e.role), e.content)
  }

  /** The turns the loop pushes for a history without `null` entries. */
  function HistoryTurns(h: seq<HistoryEntry>): (ts: seq<Turn>)
    requires NullFree(h)
    ensures |ts| == |h|
  {
    if |h| == 0 then [] else HistoryTurns(h[..|h| - 1]) + [ToTurn(h[|h| - 1])]
  }

  /** The history keeps its length and its order: turn `i` comes from entry `i`. */
  lemma {:induction false} HistoryTurnsAt(h: seq<HistoryEntry>, i: int)
    requires NullFree(h)
    requires 0 <= i < |h|
    ensures |HistoryTurns(h)| == |h|
    ensures HistoryTurns(h)[i] == ToTurn(h[i])
  {
    if i < |h| - 1 {
      HistoryTurnsAt(h[..|h| - 1], i);
    } else if |h| > 1 {
      HistoryTurnsAt(h[..|h| - 1], 0);
    }
  }

  /** Whether the loop over `history` runs to the end (no `null` entry). */
  predicate HistoryAccepted(history: Option<seq<HistoryEntry>>) {
    history.None? || NullFree(history.value)
  }

  /** The `contents` sent upstream: the history's turns, then the current
      message as a user turn. */
  function ExpectedContents(history: Option<seq<HistoryEntry>>, message: Option<Json>): (c: seq<Turn>)
    requires HistoryAccepted(history)
    ensures |c| == (if history.Some? then |history.value| else 0) + 1
    ensures c[|c| - 1] == Turn("user", message)
  {
    (if history.Some? then HistoryTurns(history.value) else []) + [Turn("user", message)]
  }

  /** One entry per history element in the same order, then exactly one
      user turn with the message; assistant turns become model turns and
      every other role becomes user. */
  lemma ContentsShape(history: Option<seq<HistoryEntry>>, message: Option<Json>)
    requires HistoryAccepted(history)
    ensures var c := ExpectedContents(history, message);
      && |c| == (if history.Some? then |history.value| else 0) + 1
      && c[|c| - 1] == Turn("user", message)
      && (history.Some? ==> forall i :: 0 <= i < |history.value| ==>
            c[i].text == history.value[i].content &&
            (c[i].role == "model" <==> history.value[i].role == Some("assistant")) &&
            (c[i].role == "model" || c[i].role == "user"))
  {
    if history.Some? {
      var h := history.value;
      if |h| == 0 {
        assert HistoryTurns(h) == [];
      }
      forall i | 0 <= i < |h|
        ensures |HistoryTurns(h)| == |h| && HistoryTurns(h)[i] == ToTurn(h[i])
      {
        HistoryTurnsAt(h, i);
      }
    }
  }

  /** Lines 36-52: `contents` starts empty, the loop pushes one turn per
      history entry (throwing on a `null` entry), and the current message
      is pushed last. */
  method BuildContents(history: Option<seq<HistoryEntry>>, message: Option<Json>)
    returns (r: Result<seq<Turn>, string>)
    ensures r.Success? <==> HistoryAccepted(history)
    ensures r.Success? ==> r.value == ExpectedContents(history, message)
    ensures r.Failure? ==> r.error == NullEntryMessage
  {
    var contents: seq<Turn> := [];
    if history.Some? && |history.value| > 0 {
      var h := history.value;
      var i := 0;
      while i < |h|
        invariant 0 <= i <= |h|
        invariant NullFree(h[..i])
        invariant contents == HistoryTurns(h[..i])
      {
        var msg := h[i];
        if msg.NullEntry? {
          return Failure(NullEntryMessage);
        }
        assert h[..i + 1][..i] == h[..i];
        contents := contents + [Turn(MapRole(msg.role), msg.content)];
        i := i + 1;
      }
      assert h[..i] == h;
    }
    contents := contents + [Turn("user", message)];
    r := Success(contents);
  }

  /** `data.candidates?.[0]?.content?.parts`: present exactly when there is
      a first candidate with content that has parts. */
  function FirstParts(d: ReplyData): (r: Option<seq<Part>>)
    ensures r.Some? <==>
      d.candidates.Some? && |d.candidates.value| > 0 &&
      d.candidates.value[0].content.Some? && d.candidates.value[0].content.value.parts.Some?
    ensures r.Some? ==> r == d.candidates.value[0].content.value.parts
  {
    if d.candidates.None? || |d.candidates.value| == 0 then None
    else
      var c := d.candidates.value[0];
      if c.content.None? then None else c.content.value.parts
  }

  /** `parts.map((p) => p.text)` as `join` reads it: a missing text is "". */
  function Texts(parts: seq<Part>): (ts: seq<string>)
    requires forall i :: 0 <= i < |parts| ==> parts[i].Part?
    ensures |ts| == |parts|
    ensures forall i :: 0 <= i < |ts| ==> ts[i] == parts[i].text.GetOr("")
  {
    seq(|parts|, i requires 0 <= i < |parts| => parts[i].text.GetOr(""))
  }

  /** Lines 84-86: the first candidate's texts joined with "\n", the
      fallback when that is missing or empty, and a throw on a `null` part. */
  function ExtractReply(d: ReplyData): (r: Result<string, string>)
    ensures r.Success? ==> r.value != ""
    ensures FirstParts(d).None? ==> r == Success(Fallback)
    ensures r.Failure? <==> FirstParts(d).Some? && NullPart in FirstParts(d).value
    ensures r.Failure? ==> r.error == NullPartMessage
    ensures FirstParts(d).Some? && NullPart !in FirstParts(d).value ==>
      (forall i :: 0 <= i < |FirstParts(d).value| ==> FirstParts(d).value[i].Part?) &&
      var j := Join(Texts(FirstParts(d).value), "\n");
      r == Success(if j == "" then Fallback else j)
  {
    match FirstParts(d)
    case None => Success(Fallback)
    case Some(parts) =>
      if NullPart in parts then Failure(NullPartMessage)
      else
        assert forall i :: 0 <= i < |parts| ==> parts[i].Part? by {
          forall i | 0 <= i < |parts| ensures parts[i].Part? {
            assert parts[i] in parts;
          }
        }
        var joined := Join(Texts(parts), "\n");
        Success(if joined == "" then Fallback else joined)
  }

  /** The fallback replaces the joined texts exactly when there are no
      parts, or a single part with an empty or missing text: two empty
      texts already join to "\n". */
  lemma FallbackWhenNothingToJoin(d: ReplyData)
    requires FirstParts(d).Some? && NullPart !in FirstParts(d).value
    ensures forall i :: 0 <= i < |FirstParts(d).value| ==> FirstParts(d).value[i].Part?
    ensures var ps := FirstParts(d).value;
      Join(Texts(ps), "\n") == "" <==> |ps| == 0 || (|ps| == 1 && ps[0].text.GetOr("") == "")
  {
    var ps := FirstParts(d).value;
    forall i | 0 <= i < |ps| ensures ps[i].Part? {
      assert ps[i] in ps;
    }
    JoinEmptyIff(Texts(ps), "\n");
  }

  /** The reply is the fallback only when there is nothing to show, and
      otherwise splits back on "\n" into the parts' texts (when no text
      holds a newline itself). */
  lemma ReplyFromParts(d: ReplyData)
    requires FirstParts(d).Some? && NullPart !in FirstParts(d).value
    requires forall i :: 0 <= i < |FirstParts(d).value| ==> FirstParts(d).value[i].Part?
    requires forall i :: 0 <= i < |FirstParts(d).value| ==> '\n' !in FirstParts(d).value[i].text.GetOr("")
    ensures var ts := Texts(FirstParts(d).value);
      ExtractReply(d).Success? &&
      (ExtractReply(d).value == Fallback || Split(ExtractReply(d).value, '\n') == ts) &&
      (ExtractReply(d).value == Fallback <==> Join(ts, "\n") == "" || Join(ts, "\n") == Fallback)
  {
    var ts := Texts(FirstParts(d).value);
    if |ts| > 0 {
      SplitJoin(ts, '\n');
    }
  }

  /** Two parts "a" and "b" give the reply "a\nb". */
  lemma TwoPartsJoined()
    ensures ExtractReply(ReplyData(None, Some([Candidate(Some(CandidateContent(Some([Part(Some("a")), Part(Some("b"))]))))])))
         == Success("a\nb")
  {
    var ps := [Part(Some("a")), Part(Some("b"))];
    var d := ReplyData(None, Some([Candidate(Some(CandidateContent(Some(ps))))]));
    assert FirstParts(d) == Some(ps);
    assert NullPart !in ps;
    assert Texts(ps) == ["a", "b"];
    assert Join(["a", "b"], "\n") == "a" + "\n" + Join(["b"], "\n") == "a\nb";
  }

  /** Lines 72-100 after the call: a throw becomes 500 with its message, a
      truthy `data.error` becomes 500 with its message, otherwise 200 with
      the extracted text. The HTTP status is never consulted. */
  function MapReply(u: Upstream): (r: Response)
    ensures r.headers == CorsHeaders
    ensures r.statusCode == 200 || r.statusCode == 500
    ensures r.statusCode == 200 <==> r.body.Reply?
    ensures u.TransportFailure? ==> r.body == ErrorBody(InternalErrorPrefix + u.message)
    ensures u.Responded? && u.data.Failure? ==> r.body == ErrorBody(InternalErrorPrefix + u.data.error)
    ensures u.Responded? && u.data.Success? && u.data.value.None? ==>
      r.body == ErrorBody(InternalErrorPrefix + NullDataMessage)
    ensures u.Responded? && u.data.Success? && u.data.value.Some? && u.data.value.value.error.Some? ==>
      r.body == ErrorBody(if Truthy(u.data.value.value.error.value.message)
                          then u.data.value.value.error.value.message.value else UpstreamError)
    ensures u.Responded? && u.data.Success? && u.data.value.Some? && u.data.value.value.error.None? &&
            ExtractReply(u.data.value.value).Failure? ==>
      r.body == ErrorBody(InternalErrorPrefix + ExtractReply(u.data.value.value).error)
    ensures r.body.Reply? <==>
      u.Responded? && u.data.Success? && u.data.value.Some? && u.data.value.value.error.None? &&
      ExtractReply(u.data.value.value).Success?
    ensures r.body.Reply? ==> r.body.text == ExtractReply(u.data.value.value).value
  {
    match u
    case TransportFailure(message) => Response(500, CorsHeaders, ErrorBody(InternalErrorPrefix + message))
    case Responded(_, Failure(message)) => Response(500, CorsHeaders, ErrorBody(InternalErrorPrefix + message))
    case Responded(_, Success(None)) => Response(500, CorsHeaders, ErrorBody(InternalErrorPrefix + NullDataMessage))
    case Responded(_, Success(Some(data))) =>
      if data.error.Some? then
        var m := data.error.value.message;
        Response(500, CorsHeaders, ErrorBody(if Truthy(m) then m.value else UpstreamError))
      else
        match ExtractReply(data)
        case Failure(message) => Response(500, CorsHeaders, ErrorBody(InternalErrorPrefix + message))
        case Success(text) => Response(200, CorsHeaders, Reply(text))
  }

  /** `exports.handler`. `sent` is the request handed to `fetch`, None when
      the handler returns before calling upstream. */
  method Handle(httpMethod: string, geminiKey: Option<string>, body: RequestBody, upstream: Upstream)
    returns (resp: Response, sent: Option<Outbound>)
    // every method but POST, OPTIONS included, is refused, with no headers
    ensures httpMethod != "POST" ==>
      resp == Response(405, map[], ErrorBody(MethodNotAllowed)) && sent.None?
    ensures httpMethod == "POST" && !Truthy(geminiKey) ==>
      resp == Response(500, CorsHeaders, ErrorBody(MissingKey)) && sent.None?
    ensures httpMethod == "POST" && Truthy(geminiKey) && body.Throws? ==>
      resp == Response(500, CorsHeaders, ErrorBody(InternalErrorPrefix + body.message)) && sent.None?
    ensures httpMethod == "POST" && Truthy(geminiKey) && body.Parsed? && !HistoryAccepted(body.payload.history) ==>
      resp == Response(500, CorsHeaders, ErrorBody(InternalErrorPrefix + NullEntryMessage)) && sent.None?
    ensures sent.Some? <==>
      httpMethod == "POST" && Truthy(geminiKey) && body.Parsed? && HistoryAccepted(body.payload.history)
    ensures sent.Some? ==>
      var p := body.payload;
      && sent.value == Outbound(geminiKey.value,
           ChatRequest(p.system, ExpectedContents(p.history, p.message), Temperature, MaxOutputTokens))
      && resp == MapReply(upstream)
  {
    if httpMethod != "POST" {
      return Response(405, map[], ErrorBody(MethodNotAllowed)), None;
    }
    var headers := CorsHeaders;
    if httpMethod == "OPTIONS" {
      // The preflight answer is never reached: OPTIONS was refused above.
      assert false;
      return Response(200, headers, Empty), None;
    }
    if !Truthy(geminiKey) {
      return Response(500, headers, ErrorBody(MissingKey)), None;
    }

    if body.Throws? {
      return Response(500, headers, ErrorBody(InternalErrorPrefix + body.message)), None;
    }
    var p := body.payload;
    var contents := BuildContents(p.history, p.message);
    if contents.Failure? {
      return Response(500, headers, ErrorBody(InternalErrorPrefix + contents.error)), None;
    }

    sent := Some(Outbound(geminiKey.value,
      ChatRequest(p.system, contents.value, Temperature, MaxOutputTokens)));

    match upstream {
      case TransportFailure(message) =>
        resp := Response(500, headers, ErrorBody(InternalErrorPrefix + message));
      case Responded(_, result) =>
        if result.Failure? {
          resp := Response(500, headers, ErrorBody(InternalErrorPrefix + result.error));
          return;
        }
        if result.value.None? {
          resp := Response(500, headers, ErrorBody(InternalErrorPrefix + NullDataMessage));
          return;
        }
        var data := result.value.value;
        if data.error.Some? {
          var m := data.error.value.message;
          resp := Response(500, headers, ErrorBody(if Truthy(m) then m.value else UpstreamError));
          return;
        }
        var text := ExtractReply(data);
        if text.Failure? {
          resp := Response(500, headers, ErrorBody(InternalErrorPrefix + text.error));
        } else {
          resp := Response(200, headers, Reply(text.value));
        }
    }
  }
}
