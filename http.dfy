/** The values both handlers exchange with the hosting platform and with
    the upstream API: JSON documents and the response record a Netlify
    function returns. */
module Http {

  /** A JSON document as `JSON.parse` produces it; object members keep
      their order, as `JSON.stringify` writes them back. */
  datatype Json =
    | JNull
    | JBool(b: bool)
    | JNum(n: real)
    | JStr(s: string)
    | JArr(items: seq<Json>)
    | JObj(members: seq<(string, Json)>)

  /** The object a handler serialises into its response body, one variant
      per shape the handlers produce. */
  datatype Body =
    | Empty                                      // the empty string ''
    | ErrorBody(error: string)                   // { error }
    | ErrorDetails(error: string, details: Json) // { error, details }
    | ErrorMessage(error: string, message: string) // { error, message }
    | PassThrough(data: Json)                    // the upstream document itself
    | Reply(text: string)                        // { text }

  type Headers = map<string, string>

  /** `{ statusCode, headers, body }`; a response without a `headers`
      property has the empty map. */
  datatype Response = Response(statusCode: int, headers: Headers, body: Body)
}
