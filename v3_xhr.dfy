// The v3 xhr transports (v3/sockjs/xhr.go): xhr_send delivers a batch of
// client messages to a registered session; xhr (polling, a one-byte response
// limit) and xhr_streaming (a 2048-byte `h` prelude, the configured limit)
// attach an HTTP receiver to the session named by the URL, and a receiver
// that loses the race for the session is sent the 2010 close frame and closed
// without the session noticing.

module V3Xhr {
  import opened Text
  import Json
  import opened V3Receiver
  import opened V3Session
  import opened V3Handler
  import XhrSendLadder
  import opened XhrFrames

  /** Polling: the writes, size and flags a rejected receiver ends with. */
  function RejectedConn(written: seq<string>): Conn
  {
    Conn(written + [XhrFrame(CFrame())], AddU32(0, |CFrame()| + 1), true, false, false)
  }

  datatype Outcome =
    | UrlError                                  // sessionByRequest failed: 500
    | Rejected                                  // the session already had a receiver
    | Attached(session: Session)

  /**
   * xhrSend: the ladder decides; a delivered batch goes to the session's
   * receive buffer, in order.
   */
  method XhrSend(h: Handler, body: XhrSendLadder.Body, path: string) returns (reply: XhrSendLadder.Reply)
    requires h.Valid() && h.SessionsValid()
    modifies h.sessions.Values
    ensures h.sessions == old(h.sessions)
    ensures reply == XhrSendLadder.Decide(body, ParseSessionID(path).ID?,
                                          ParseSessionID(path).ID? && ParseSessionID(path).id in h.sessions)
    ensures reply.Delivered? ==>
      var s := h.sessions[ParseSessionID(path).id];
      s.inbound == (if s.inboundClosed then old(s.inbound) else old(s.inbound) + reply.msgs)
  {
    if XhrSendLadder.PayloadMissing(body) {
      return XhrSendLadder.PayloadExpected;
    }
    if XhrSendLadder.JsonBroken(body) {
      return XhrSendLadder.BrokenJson;
    }
    var parsed := ParseSessionID(path);
    if parsed.Err? {
      return XhrSendLadder.UrlError;
    }
    if parsed.id !in h.sessions {
      return XhrSendLadder.SessionNotFound;
    }
    var msgs := XhrSendLadder.Carried(body);
    var _ := h.sessions[parsed.id].Accept(msgs);
    reply := XhrSendLadder.Delivered(msgs);
  }

  /** What a rejected receiver ends with: cFrame when its connection still takes writes, then closed. */
  function RejectedSnapshot(c: Conn): Conn
  {
    if c.broken then c.(closed := true) else RejectedConn(c.wire)
  }

  /**
   * The part xhrPoll and xhrStreaming share once the session is found:
   * attach the fresh receiver `r`, and when the attach returns an error (a
   * receiver already attached, or a write that failed) send it cFrame and
   * close it.
   */
  method AttachOrReject(sess: Session, r: Receiver) returns (rejected: bool)
    requires sess.Valid() && !sess.raw && r != sess.recv && r.kind.Http?
    requires r.Snapshot() == Conn(r.wire, 0, false, false, r.broken)
    modifies sess, r
    ensures sess.Valid()
    // a second receiver gets cFrame and is closed; the session is untouched
    ensures old(sess.recv) != null ==>
      rejected && r.Snapshot() == RejectedSnapshot(old(r.Snapshot()))
      && sess.state == old(sess.state) && sess.recv == old(sess.recv) && sess.sendBuffer == old(sess.sendBuffer)
      && sess.timer == old(sess.timer) && sess.closeFrame == old(sess.closeFrame)
    // otherwise the receiver is the session's, even when the attach fails
    ensures old(sess.recv) == null ==> sess.recv == r
    ensures old(sess.recv) == null && !old(r.broken) ==> !rejected
    // a session that has not opened yet opens on this receiver with the `o` frame
    ensures old(sess.recv) == null && !old(r.broken) && old(sess.state) == SessionOpening && old(sess.sendBuffer) == [] ==>
      sess.state == SessionActive && r.wire == old(r.wire) + [XhrFrame("o")] && r.size == 2
      && r.closed == (r.kind.limit <= 2)
    // a connection that already refuses writes: the attach fails at its first write, if it has one to make;
    // the session keeps the receiver, its state and its buffer, and nothing reaches the wire
    ensures old(sess.recv) == null && old(r.broken) ==>
      (rejected <==> old(sess.state) == SessionOpening || old(sess.state) == SessionClosing || old(sess.sendBuffer) != [])
      && r.Snapshot() == old(r.Snapshot()).(closed := rejected)
      && sess.state == old(sess.state) && sess.sendBuffer == old(sess.sendBuffer)
  {
    var st := sess.AttachReceiver(r);
    if st != Ok {
      var _ := r.SendFrame(CFrame());
      r.Close();
      return true;
    }
    rejected := false;
  }

  /**
   * xhrPoll (limit 1) and xhrStreaming (ResponseLimit, after the prelude):
   * the session named by the URL, made on first use, and a fresh receiver
   * over a response on which `written` was already sent, and whose
   * connection already refuses writes when `broken` holds.
   */
  method Poll(h: Handler, path: string, limit: u32, written: seq<string>, broken: bool) returns (r: Receiver?, out: Outcome)
    requires h.Valid() && h.SessionsValid()
    modifies h, h.sessions.Values
    ensures h.Valid() && h.SessionsValid()
    ensures ParseSessionID(path).Err? ==> r == null && out == UrlError && h.sessions == old(h.sessions)
    ensures ParseSessionID(path).ID? ==>
      r != null && fresh(r) && r.kind == Http(limit) && ParseSessionID(path).id in h.sessions
    ensures ParseSessionID(path).ID? && ParseSessionID(path).id in old(h.sessions) ==> h.sessions == old(h.sessions)
    ensures ParseSessionID(path).ID? && ParseSessionID(path).id in old(h.sessions)
            && old(h.sessions[ParseSessionID(path).id].recv) != null ==>
      var s := h.sessions[ParseSessionID(path).id];
      out == Rejected && r.Snapshot() == RejectedSnapshot(Conn(written, 0, false, false, broken))
      && s.state == old(s.state) && s.recv == old(s.recv) && s.sendBuffer == old(s.sendBuffer)
      && s.timer == old(s.timer) && s.closeFrame == old(s.closeFrame)
    ensures ParseSessionID(path).ID? && !(ParseSessionID(path).id in old(h.sessions)
            && old(h.sessions[ParseSessionID(path).id].recv) != null) ==>
      h.sessions[ParseSessionID(path).id].recv == r
      && (!broken ==> out == Attached(h.sessions[ParseSessionID(path).id]))
    ensures ParseSessionID(path).ID? && ParseSessionID(path).id !in old(h.sessions) && !broken ==>
      out.Attached? && out.session.state == SessionActive
      && r.wire == written + [XhrFrame("o")] && r.closed == (limit <= 2)
    // a fresh session cannot write its `o` to a connection that refuses writes: the receiver is
    // rejected, yet the session keeps it and stays in Opening
    ensures ParseSessionID(path).ID? && ParseSessionID(path).id !in old(h.sessions) && broken ==>
      out == Rejected && h.sessions[ParseSessionID(path).id].state == SessionOpening
      && r.Snapshot() == Conn(written, 0, true, false, true)
  {
    var found := h.SessionByRequest(path);
    if found.ParseFailed? {
      return null, UrlError;
    }
    var sess := found.session;
    r := new Receiver(Http(limit), written);
    if broken {
      r.ConnectionLost();
    }
    var rejected := AttachOrReject(sess, r);
    out := if rejected then Rejected else Attached(sess);
  }

  /** xhrPoll: a receiver that is done after one frame. */
  method XhrPoll(h: Handler, path: string, broken: bool) returns (r: Receiver?, out: Outcome)
    requires h.Valid() && h.SessionsValid()
    modifies h, h.sessions.Values
    ensures h.Valid() && h.SessionsValid()
    ensures ParseSessionID(path).Err? ==> r == null && out == UrlError
    ensures ParseSessionID(path).ID? && ParseSessionID(path).id in old(h.sessions)
            && old(h.sessions[ParseSessionID(path).id].recv) != null ==>
      out == Rejected && r != null && r.wire == (if broken then [] else [XhrFrame(CFrame())]) && r.closed
    ensures ParseSessionID(path).ID? && ParseSessionID(path).id !in old(h.sessions) && !broken ==>
      out.Attached? && out.session.state == SessionActive && r != null && r.wire == ["o\n"] && r.closed
    ensures ParseSessionID(path).ID? && ParseSessionID(path).id !in old(h.sessions) && broken ==>
      out == Rejected && r != null && r.wire == [] && r.closed
      && ParseSessionID(path).id in h.sessions
      && h.sessions[ParseSessionID(path).id].state == SessionOpening && h.sessions[ParseSessionID(path).id].recv == r
  {
    r, out := Poll(h, path, 1, [], broken);
    assert XhrFrame("o") == "o\n";
    assert [] + [XhrFrame("o")] == ["o\n"];
  }

  /**
   * xhrStreaming: the prelude first, then a receiver bounded by
   * ResponseLimit; `broken` says the prelude's flush failed, so the
   * connection refuses every later write.
   */
  method XhrStreaming(h: Handler, path: string, broken: bool) returns (r: Receiver?, out: Outcome)
    requires h.Valid() && h.SessionsValid()
    modifies h, h.sessions.Values
    ensures h.Valid() && h.SessionsValid()
    ensures ParseSessionID(path).Err? ==> r == null && out == UrlError
    // even the loser's body starts with the prelude
    ensures ParseSessionID(path).ID? && ParseSessionID(path).id in old(h.sessions)
            && old(h.sessions[ParseSessionID(path).id].recv) != null && !broken ==>
      out == Rejected && r != null && r.wire == [StreamingPrelude(), XhrFrame(CFrame())] && r.closed
    ensures ParseSessionID(path).ID? && ParseSessionID(path).id !in old(h.sessions) && !broken ==>
      out.Attached? && out.session.state == SessionActive && r != null
      && r.wire == [StreamingPrelude(), "o\n"] && r.kind == Http(h.responseLimit)
    ensures ParseSessionID(path).ID? && ParseSessionID(path).id !in old(h.sessions) && broken ==>
      out == Rejected && r != null && r.wire == [StreamingPrelude()] && r.closed
      && ParseSessionID(path).id in h.sessions
      && h.sessions[ParseSessionID(path).id].state == SessionOpening && h.sessions[ParseSessionID(path).id].recv == r
  {
    r, out := Poll(h, path, h.responseLimit, [StreamingPrelude()], broken);
    assert XhrFrame("o") == "o\n";
    assert [StreamingPrelude()] + [XhrFrame("o")] == [StreamingPrelude(), "o\n"];
  }

  /** The body of a rejected streaming request, as one string: the prelude, then cFrame on its own line. */
  lemma RejectedStreamingBody()
    ensures Concat(RejectedConn([StreamingPrelude()]).wire) == StreamingPrelude() + CFrame() + "\n"
  {
    var p, c := StreamingPrelude(), CFrame();
    assert RejectedConn([p]).wire == [p, XhrFrame(c)];
    ConcatPair(p, XhrFrame(c));
  }

  lemma ConcatPair(a: string, b: string)
    ensures Concat([a, b]) == a + b
  {
    assert [a, b][1..] == [b];
    assert [b][1..] == [];
    assert Concat([b]) == b + "";
    assert b + "" == b;
  }

  /** What a client reads off a response: its writes, one after another. */
  function Concat(w: seq<string>): string
  {
    if |w| == 0 then "" else w[0] + Concat(w[1..])
  }
}
