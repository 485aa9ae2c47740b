// The jsonp_send endpoint of the channel-driven generation
// (sockjs/jsonp-send.go; sockjs/jsonp.go:136-191 holds a second copy).  The
// session is looked up before anything else, so a request for an unknown
// session is answered 404 without its body being read; then the payload is
// extracted by content type, and must be at least two bytes and decode as a
// JSON array before it is handed to the connection.  url.ParseQuery and
// json.Unmarshal are not modelled: their verdicts are parameters.

module SockjsJsonpSend {
  import Json

  /** url.Values */
  type Query = map<string, seq<string>>

  /** url.Values.Get: the first value given for the key, "" when there is none. */
  function FormValue(q: Query, key: string): (v: string)
    ensures key !in q ==> v == ""
    ensures key in q && |q[key]| > 0 ==> v == q[key][0]
  {
    if key in q && |q[key]| > 0 then q[key][0] else ""
  }

  datatype Extracted = Content(payload: string) | ExtractError(text: string)

  const FormContentType := "application/x-www-form-urlencoded"
  const PlainContentType := "text/plain"

  /**
   * extractSendContent: the Content-Type header, compared as a whole, picks
   * the `d` field of a form body or the plain body itself; anything else,
   * including a content type with parameters, is refused.
   */
  function ExtractSendContent(contentType: string, body: string, parseQuery: string -> Json.Option<Query>): (r: Extracted)
    ensures r.Content? <==> contentType == PlainContentType || (contentType == FormContentType && parseQuery(body).Some?)
    ensures contentType == PlainContentType ==> r.payload == body
    ensures contentType == FormContentType && parseQuery(body).Some? ==> r.payload == FormValue(parseQuery(body).value, "d")
    ensures r.ExtractError? ==>
      r.text == (if contentType == FormContentType then "Could not parse query" else "Unrecognized content type")
  {
    if contentType == FormContentType then
      match parseQuery(body)
      case None => ExtractError("Could not parse query")
      case Some(values) => Content(FormValue(values, "d"))
    else if contentType == PlainContentType then Content(body)
    else ExtractError("Unrecognized content type")
  }

  datatype Reply =
    | NotFound                  // 404, the body is not read
    | ExtractFailed(text: string)
    | PayloadExpected           // "Payload expected."
    | BrokenJson                // "Broken JSON encoding."
    | Accepted(payload: string) // 200 "ok"; the payload goes to the connection's input unchanged

  /**
   * JsonpSendHandler's ladder, given whether the session is registered, what
   * extraction gives, and whether json.Unmarshal into []interface{} succeeds
   * on a text.
   */
  function Decide(known: bool, extracted: Extracted, decodesAsArray: string -> bool): (r: Reply)
    // an unknown session ends the request before anything else
    ensures r == NotFound <==> !known
    ensures r.ExtractFailed? <==> known && extracted.ExtractError?
    ensures r.ExtractFailed? ==> r.text == extracted.text
    ensures r == PayloadExpected <==> known && extracted.Content? && |extracted.payload| < 2
    ensures r == BrokenJson <==>
      known && extracted.Content? && |extracted.payload| >= 2 && !decodesAsArray(extracted.payload)
    // only a payload that passed every check reaches the connection, as it was sent
    ensures r.Accepted? <==>
      known && extracted.Content? && |extracted.payload| >= 2 && decodesAsArray(extracted.payload)
    ensures r.Accepted? ==> r.payload == extracted.payload
  {
    if !known then NotFound
    else match extracted
      case ExtractError(text) => ExtractFailed(text)
      case Content(payload) =>
        if |payload| < 2 then PayloadExpected
        else if !decodesAsArray(payload) then BrokenJson
        else Accepted(payload)
  }

  /** The whole handler: the extraction only runs for a known session. */
  function JsonpSendHandler(known: bool, contentType: string, body: string,
                            parseQuery: string -> Json.Option<Query>, decodesAsArray: string -> bool): (r: Reply)
    ensures !known ==> r == NotFound
    ensures known ==> r == Decide(true, ExtractSendContent(contentType, body, parseQuery), decodesAsArray)
  {
    if !known then NotFound else Decide(known, ExtractSendContent(contentType, body, parseQuery), decodesAsArray)
  }

  datatype Response = Response(status: nat, body: string)

  /**
   * The response written for a reply.  jsonp-send.go writes an extraction
   * error's text as it is; jsonp.go writes it with http.Error, which adds a
   * newline (`viaHttpError`).
   */
  function Respond(r: Reply, viaHttpError: bool): (resp: Response)
    ensures resp.status == 200 <==> r.Accepted?
    ensures resp.status == 404 <==> r == NotFound
    ensures resp.status == 500 <==> !r.Accepted? && r != NotFound
    ensures r.Accepted? ==> resp.body == "ok"
    ensures r == NotFound ==> resp.body == ""
  {
    match r
    case NotFound => Response(404, "")
    case ExtractFailed(text) => Response(500, if viaHttpError then text + "\n" else text)
    case PayloadExpected => Response(500, "Payload expected.")
    case BrokenJson => Response(500, "Broken JSON encoding.")
    case Accepted(_) => Response(200, "ok")
  }

  /** The two copies of the handler answer alike, except for the newline after an extraction error. */
  lemma CopiesAgree(r: Reply)
    ensures !r.ExtractFailed? ==> Respond(r, true) == Respond(r, false)
    ensures r.ExtractFailed? ==>
      Respond(r, true).status == Respond(r, false).status == 500
      && Respond(r, true).body == Respond(r, false).body + "\n"
  {
  }

  /**
   * A text/plain request for a known session that carries a JSON array
   * reaches the connection byte for byte; the same body under a content type
   * with a charset parameter is refused.
   */
  lemma PlainBodyDelivered(body: string, parseQuery: string -> Json.Option<Query>, decodesAsArray: string -> bool)
    requires |body| >= 2 && decodesAsArray(body)
    ensures JsonpSendHandler(true, "text/plain", body, parseQuery, decodesAsArray) == Accepted(body)
    ensures JsonpSendHandler(true, "text/plain; charset=UTF-8", body, parseQuery, decodesAsArray)
            == ExtractFailed("Unrecognized content type")
  {
  }
}
