// The xhr transports of sockjs/transport_xhr.go, over the handler and
// session of this generation.  xhr_send runs the shared ladder; the two
// polling handlers attach a fresh xhrReceiver (limit 1 for polling,
// ResponseLimit for streaming, whose response first carries the prelude).  A
// receiver that finds the session taken gets cFrame and nothing else.  An
// attached receiver stays until its done channel closes or the client goes
// away; the latter closes the whole session; either way it is detached.
// That wait is the environment's: PollEnd is the moment the select returns.

module SockjsTransportXhr {
  import opened Text
  import opened SockjsLegacyXhrReceiver
  import opened SockjsSession
  import opened SockjsHandler
  import XhrSendLadder
  import opened XhrFrames

  /** xhrSend: the ladder decides; the delivered messages go to the session through accept, which is not modelled. */
  method XhrSend(h: Handler, body: XhrSendLadder.Body, path: string) returns (reply: XhrSendLadder.Reply)
    ensures reply == XhrSendLadder.Decide(body, ParseSessionID(h.prefix, path).ID?,
                                          ParseSessionID(h.prefix, path).ID? && ParseSessionID(h.prefix, path).id in h.sessions)
  {
    if XhrSendLadder.PayloadMissing(body) {
      return XhrSendLadder.PayloadExpected;
    }
    if XhrSendLadder.JsonBroken(body) {
      return XhrSendLadder.BrokenJson;
    }
    var parsed := ParseSessionID(h.prefix, path);
    if parsed.Err? {
      return XhrSendLadder.UrlError;
    }
    if parsed.id !in h.sessions {
      return XhrSendLadder.SessionNotFound;
    }
    reply := XhrSendLadder.Delivered(XhrSendLadder.Carried(body));
  }

  datatype Outcome =
    | Rejected                        // the session already had a receiver
    | Attached(session: Session)

  /**
   * What xhrPoll and xhrStreaming share: the session named by the path (the
   * mapping only routes paths that name one, and the handlers do not check
   * the error), a fresh receiver with the given limit, and the attach; a
   * refused attach leaves the receiver with cFrame alone.
   */
  method Poll(h: Handler, path: string, limit: u32) returns (r: XhrReceiver, out: Outcome)
    requires h.SessionsValid() && ParseSessionID(h.prefix, path).ID?
    modifies h`sessions, h`served, h.sessions.Values
    ensures h.SessionsValid() && fresh(r) && r.maxResponseSize == limit
    ensures ParseSessionID(h.prefix, path).id in h.sessions
    ensures ParseSessionID(h.prefix, path).id in old(h.sessions) ==> h.sessions == old(h.sessions)
    ensures ParseSessionID(h.prefix, path).id in old(h.sessions) && old(h.sessions[ParseSessionID(h.prefix, path).id].recv) != null ==>
      var s := h.sessions[ParseSessionID(h.prefix, path).id];
      out == Rejected && r.Snapshot() == SendFrameGuarded(Initial(), limit, CFrame())
      && s.state == old(s.state) && s.recv == old(s.recv) && s.sendBuffer == old(s.sendBuffer) && s.timer == old(s.timer)
    ensures !(ParseSessionID(h.prefix, path).id in old(h.sessions) && old(h.sessions[ParseSessionID(h.prefix, path).id].recv) != null) ==>
      out == Attached(h.sessions[ParseSessionID(h.prefix, path).id])
      && (out.session.state != SessionClosing ==> out.session.recv == r)
    // a new session opens on this receiver
    ensures ParseSessionID(h.prefix, path).id !in old(h.sessions) ==>
      out.Attached? && out.session.state == SessionActive && out.session.recv == r
      && r.Snapshot() == SendFrameGuarded(Initial(), limit, "o")
  {
    var found := h.SessionByRequest(path);
    var sess := found.session;
    r := new XhrReceiver(limit);
    var st := sess.AttachReceiver(r);
    if st != Ok {
      r.SendFrame(CFrame());
      return r, Rejected;
    }
    out := Attached(sess);
  }

  /** xhrPoll up to the wait: a one-byte limit, so the first frame written ends the response. */
  method XhrPoll(h: Handler, path: string) returns (r: XhrReceiver, out: Outcome)
    requires h.SessionsValid() && ParseSessionID(h.prefix, path).ID?
    modifies h`sessions, h`served, h.sessions.Values
    ensures h.SessionsValid() && fresh(r)
    ensures ParseSessionID(h.prefix, path).id in old(h.sessions) && old(h.sessions[ParseSessionID(h.prefix, path).id].recv) != null ==>
      out == Rejected && r.wire == [CFrame() + "\n"] && r.doneCloses == 1
    ensures ParseSessionID(h.prefix, path).id !in old(h.sessions) ==>
      out.Attached? && out.session.state == SessionActive && r.wire == ["o\n"] && r.doneCloses == 1
  {
    r, out := Poll(h, path, 1);
    assert "o" + "\n" == "o\n";
    assert [] + ["o\n"] == ["o\n"];
  }

  /**
   * xhrStreaming up to the wait: the prelude goes out first, outside the
   * receiver's count, then the receiver's frames; `body` is the response so far.
   */
  method XhrStreaming(h: Handler, path: string) returns (r: XhrReceiver, out: Outcome, body: seq<string>)
    requires h.SessionsValid() && ParseSessionID(h.prefix, path).ID?
    modifies h`sessions, h`served, h.sessions.Values
    ensures h.SessionsValid() && fresh(r) && r.maxResponseSize == h.responseLimit
    ensures body == [StreamingPrelude()] + r.wire
    ensures ParseSessionID(h.prefix, path).id in old(h.sessions) && old(h.sessions[ParseSessionID(h.prefix, path).id].recv) != null ==>
      out == Rejected && body == [StreamingPrelude(), CFrame() + "\n"]
    ensures ParseSessionID(h.prefix, path).id !in old(h.sessions) ==>
      out.Attached? && out.session.state == SessionActive && body == [StreamingPrelude(), "o\n"]
  {
    r, out := Poll(h, path, h.responseLimit);
    body := [StreamingPrelude()] + r.wire;
    assert "o" + "\n" == "o\n";
    assert [] + ["o\n"] == ["o\n"];
  }

  /**
   * The select returned: on a client that went away the session is closed
   * first; then the deferred detachReceiver runs, which arms the disconnect
   * timer again even on a closed session.
   */
  method PollEnd(sess: Session, r: XhrReceiver, clientGone: bool)
    requires sess.Valid() && (clientGone || r.doneCloses > 0)
    modifies sess
    ensures sess.Valid() && sess.recv == null && sess.timer == DisconnectTimer
    ensures clientGone ==> sess.state == SessionClosed && sess.closeChCloses == 1
    ensures !clientGone ==> sess.state == old(sess.state) && sess.closeChCloses == old(sess.closeChCloses)
  {
    if clientGone {
      sess.Terminate();
    }
    sess.DetachReceiver();
  }
}
