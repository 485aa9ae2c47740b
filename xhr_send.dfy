// The decision ladder of an xhr_send request, written identically in
// v3/sockjs/xhr.go (xhrSend) and sockjs/transport_xhr.go (xhrSend): a missing
// or empty body, then a body that is not JSON, then a URL without a session,
// then an unknown session; only a request that passes every rung reaches the
// session.  The JSON decoder is not modelled: its verdict on the body is an
// input (Json.Decoded).

module XhrSendLadder {
  import Json

  /** The request body: absent (req.Body == nil) or decoded by json.Decoder into a []string. */
  datatype Body = NoBody | Body(decoded: Json.Decoded)

  datatype Reply =
    | PayloadExpected                 // "Payload expected."
    | BrokenJson                      // "Broken JSON encoding."
    | UrlError                        // the session-ID parser's error text
    | SessionNotFound                 // 404
    | Delivered(msgs: seq<string>)    // the session accepts msgs; 204 No Content

  /** Body errors that end the request before the URL is looked at. */
  predicate PayloadMissing(b: Body)
  {
    b.NoBody? || b.decoded.EndOfInput?
  }

  predicate JsonBroken(b: Body)
  {
    b.Body? && (b.decoded.SyntaxError? || b.decoded.UnexpectedEnd?)
  }

  /** The messages a body that passed both checks carries (what Decode left in `messages`). */
  function Carried(b: Body): seq<string>
    requires !PayloadMissing(b) && !JsonBroken(b)
  {
    match b.decoded
    case OtherError(partial) => partial
    case Messages(msgs) => msgs
  }

  /**
   * The reply, given the body, whether the path names a session, and whether
   * that session is registered.
   */
  function Decide(b: Body, parsed: bool, known: bool): (r: Reply)
    // the body is judged first, whatever the URL and the registry say
    ensures PayloadMissing(b) ==> r == PayloadExpected
    ensures !PayloadMissing(b) && JsonBroken(b) ==> r == BrokenJson
    // the session is only considered for a usable body
    ensures r == UrlError <==> !PayloadMissing(b) && !JsonBroken(b) && !parsed
    ensures r == SessionNotFound <==> !PayloadMissing(b) && !JsonBroken(b) && parsed && !known
    // a request reaches the session exactly when every check passed, with the decoded messages in order
    ensures r.Delivered? <==> !PayloadMissing(b) && !JsonBroken(b) && parsed && known
    ensures r.Delivered? ==> r.msgs == Carried(b)
  {
    if PayloadMissing(b) then PayloadExpected
    else if JsonBroken(b) then BrokenJson
    else if !parsed then UrlError
    else if !known then SessionNotFound
    else Delivered(Carried(b))
  }

  /** What the reply says in its body (httpError's text), where the source writes one. */
  function ReplyText(r: Reply): string
  {
    match r
    case PayloadExpected => "Payload expected."
    case BrokenJson => "Broken JSON encoding."
    case _ => ""
  }
}
