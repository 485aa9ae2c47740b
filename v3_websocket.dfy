// The v3 websocket transport (v3/sockjs/websocket.go).  wsReceiver is the
// Websocket kind of V3Receiver.Receiver.  What is modelled here is the
// lifecycle sockjsWebsocket gives a connection: a fresh session that is never
// registered, the receiver attached at once, and close() once reading stops
// or the receiver is done.  The upgrade and the read loop are I/O.

module V3Websocket {
  import opened Text
  import Json
  import opened V3Receiver
  import opened V3Session
  import opened V3Handler

  /** The session ID a websocket session gets: parseSessionID's, or "" when that fails. */
  function WebsocketSessionID(path: string): (id: string)
    ensures ParseSessionID(path).ID? ==> id == ParseSessionID(path).id
    ensures ParseSessionID(path).Err? ==> id == ""
  {
    match ParseSessionID(path)
    case ID(id) => id
    case Err(_) => ""
  }

  /**
   * sockjsWebsocket up to the read loop: the new session has the websocket
   * receiver attached, has sent `o`, and is Active; the handler's registry is
   * not touched.
   */
  method Open(h: Handler, path: string) returns (sess: Session, r: Receiver)
    ensures fresh(sess) && fresh(r) && sess.Valid() && !sess.raw
    ensures sess.id == WebsocketSessionID(path) && sess.heartbeatInterval == h.heartbeatDelay
    ensures sess.recv == r && r.kind == Websocket
    ensures sess.state == SessionActive && sess.sendBuffer == [] && sess.inbound == [] && sess.closeFrame == ""
    ensures r.wire == ["o"] && CanSend(r.Snapshot()) && !r.broken
    ensures sess.timer == if h.heartbeatDelay > 0 then HeartbeatTimer else NoTimer
  {
    sess := new Session(WebsocketSessionID(path), h.heartbeatDelay, false);
    r := new Receiver(Websocket, []);
    var _ := sess.AttachReceiver(r);
    assert [] + ["o"] == ["o"];
  }

  /**
   * The select returned (the client stopped sending, or the receiver is
   * done): the session is closed, which sends a pending close frame first.
   */
  method Finish(sess: Session)
    requires sess.Valid() && !sess.raw && sess.recv != null && sess.recv.kind == Websocket
    modifies sess, sess.recv
    ensures sess.Valid() && sess.state == SessionClosed && sess.closeChClosed
    ensures sess.recv == old(sess.recv)
    // a session not yet closing sends its stored close frame now ("" when Close was never called)
    ensures old(sess.state) < SessionClosing ==>
      sess.recv.Snapshot() == FrameStep(Websocket, old(sess.recv.Snapshot()), sess.closeFrame).conn.(closed := true)
    ensures old(sess.state) >= SessionClosing ==> sess.recv.Snapshot() == old(sess.recv.Snapshot())
  {
    sess.Terminate();
  }

  /**
   * The exchange of websocket_test.go: the application sends two messages,
   * receives the client's one, and closes with a status and reason; the
   * client reads four frames.
   */
  method Conversation(h: Handler, path: string, m1: string, m2: string, m3: string, status: u32, reason: string)
    returns (frames: seq<string>, received: seq<string>)
    ensures frames == ["o", Json.DataFrame([m1]), Json.DataFrame([m2]), Json.CloseFrame(status, reason)]
    ensures received == [m3]
  {
    var sess, r := Open(h, path);
    assert [] + [m1] == [m1] && [] + [m2] == [m2];
    var st1 := sess.SendMessage(m1);
    assert r.wire == ["o", Json.DataFrame([m1])] && !r.closed && !r.broken;
    assert sess.state == SessionActive && sess.recv == r && sess.sendBuffer == [];
    var st2 := sess.SendMessage(m2);
    assert r.wire == ["o", Json.DataFrame([m1]), Json.DataFrame([m2])] && !r.closed && !r.broken;
    assert sess.state == SessionActive && sess.recv == r;
    var st3 := sess.Accept([m3]);
    assert sess.inbound == [m3];
    var st4 := sess.Close(status, reason);
    frames := r.wire;
    received := sess.inbound;
  }

  /** The frames websocket_test.go expects for "message 1", "message 2" and Close(123, "close"). */
  lemma FirstMessageFrame()
    ensures Json.DataFrame(["message 1"]) == "a[\"message 1\"]"
  {
    DataFrameOfOne("message 1", "a[\"message 1\"]");
  }

  lemma SecondMessageFrame()
    ensures Json.DataFrame(["message 2"]) == "a[\"message 2\"]"
  {
    DataFrameOfOne("message 2", "a[\"message 2\"]");
  }

  lemma CloseReasonFrame()
    ensures Json.CloseFrame(123, "close") == "c[123,\"close\"]"
  {
    CloseFrame123("close", "c[123,\"close\"]");
  }

  /** A data frame carrying one message JSON leaves alone, spelled out. */
  lemma DataFrameOfOne(m: string, frame: string)
    requires forall i :: 0 <= i < |m| ==> Json.Plain(m[i])
    requires frame == "a[\"" + m + "\"]"
    ensures Json.DataFrame([m]) == frame
  {
    Json.QuotePlain(m);
    assert Json.QuoteAll([m]) == [Json.Quote(m)];
    assert Join([Json.Quote(m)], ",") == Json.Quote(m);
  }

  /** A close frame with status 123 and a reason JSON leaves alone, spelled out. */
  lemma CloseFrame123(reason: string, frame: string)
    requires forall i :: 0 <= i < |reason| ==> Json.Plain(reason[i])
    requires frame == "c[123,\"" + reason + "\"]"
    ensures Json.CloseFrame(123, reason) == frame
  {
    assert NatString(1) == "1";
    assert NatString(12) == NatString(1) + "2";
    assert NatString(123) == NatString(12) + "3";
    Json.CloseFramePlain(123, reason);
  }
}
