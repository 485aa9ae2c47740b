// The session of sockjs/session.go: a state machine
// SessionOpening -> SessionActive -> SessionClosing -> SessionClosed that buffers outgoing
// messages while no receiver is attached and forwards them, whole buffer at
// a time, to the one attached receiver.  Unlike the v3 session it forwards to
// a receiver whatever that receiver's state, Close never sends the close frame
// itself (a receiver attaching in SessionClosing gets it), and every attach arms
// the heartbeat.
//
// The receiver is the xhrReceiver of sockjs/xhr_receiver.go, the one the xhr
// transports of this generation create, with the closed guard on sendFrame.
// The session lock makes every method atomic; the timers firing are the
// events Heartbeat() and Terminate().  The gob pipe behind accept and Recv is
// represented only by whether it is closed.

module SockjsSession {
  import opened Text
  import Json
  import opened SockjsLegacyXhrReceiver

  /** sessionState: a uint32 compared with < and >. */
  newtype SessionState = x: int | 0 <= x <= 3
  const SessionOpening: SessionState := 0
  const SessionActive: SessionState := 1
  const SessionClosing: SessionState := 2
  const SessionClosed: SessionState := 3

  /** What the session's one timer does when it fires, or Stopped once close stopped it. */
  datatype Timer = Stopped | DisconnectTimer | HeartbeatTimer

  datatype Status =
    | Ok
    | ErrNotOpen             // errSessionNotOpen
    | ErrReceiverAttached    // errSessionReceiverAttached

  class Session {
    var state: SessionState
    var recv: XhrReceiver?
    var sendBuffer: seq<string>
    var closeFrame: string
    var timer: Timer
    /** Whether msgReader and msgWriter are closed. */
    var pipeClosed: bool
    /** How many times closeCh was closed. */
    var closeChCloses: nat
    /** Every message sendMessage took, and those it handed to a receiver, in order. */
    ghost var sent: seq<string>
    ghost var flushed: seq<string>

    /**
     * closeCh is closed once, exactly when SessionClosed; the pipe is closed from SessionClosing
     * on; and no message is lost or reordered: what was taken is what was
     * handed on followed by what is still buffered.
     */
    ghost predicate Valid()
      reads this
    {
      closeChCloses == (if state == SessionClosed then 1 else 0)
      && (pipeClosed <==> state >= SessionClosing)
      && sent == flushed + sendBuffer
    }

    /** newSession: SessionOpening, nothing buffered, the disconnect timer armed. */
    constructor ()
      ensures Valid()
      ensures state == SessionOpening && recv == null && sendBuffer == [] && closeFrame == ""
      ensures timer == DisconnectTimer && !pipeClosed && sent == [] && flushed == []
    {
      state := SessionOpening;
      recv := null;
      sendBuffer := [];
      closeFrame := "";
      timer := DisconnectTimer;
      pipeClosed := false;
      closeChCloses := 0;
      sent := [];
      flushed := [];
    }

    /** close: ends in SessionClosed with the timer stopped; closeCh is closed only on the first call. */
    method Terminate()
      requires Valid()
      modifies this`state, this`pipeClosed, this`closeChCloses, this`timer
      ensures Valid()
      ensures state == SessionClosed && pipeClosed && timer == Stopped && closeChCloses == 1
    {
      if state < SessionClosing {
        pipeClosed := true;
      }
      if state < SessionClosed {
        closeChCloses := closeChCloses + 1;
      }
      state := SessionClosed;
      timer := Stopped;
    }

    /** The buffer, all of it, to receiver `r` as one sendBulk, then emptied. */
    method Flush(r: XhrReceiver)
      requires Valid()
      modifies this`sendBuffer, this`flushed, r
      ensures Valid()
      ensures sendBuffer == [] && flushed == old(flushed) + old(sendBuffer)
      ensures old(sendBuffer) == [] ==> r.Snapshot() == old(r.Snapshot())
      ensures old(sendBuffer) != [] ==>
        r.Snapshot() == SendFrameGuarded(old(r.Snapshot()), r.maxResponseSize, Json.DataFrame(old(sendBuffer)))
    {
      var buffer := sendBuffer;
      var bulk := new string[|buffer|](i requires 0 <= i < |buffer| => buffer[i]);
      assert bulk[..] == buffer;
      r.SendBulk(bulk);
      flushed := flushed + buffer;
      sendBuffer := [];
    }

    /** sendMessage: refused once closing; otherwise buffered, and the buffer forwarded if a receiver is attached. */
    method SendMessage(msg: string) returns (st: Status)
      requires Valid()
      modifies this, recv
      ensures Valid()
      ensures state == old(state) && recv == old(recv) && closeFrame == old(closeFrame) && timer == old(timer)
      ensures pipeClosed == old(pipeClosed) && closeChCloses == old(closeChCloses)
      ensures old(state) > SessionActive ==>
        st == ErrNotOpen && sendBuffer == old(sendBuffer) && sent == old(sent) && flushed == old(flushed)
        && (recv != null ==> recv.Snapshot() == old(recv.Snapshot()))
      ensures old(state) <= SessionActive ==> st == Ok && sent == old(sent) + [msg]
      ensures old(state) <= SessionActive && recv == null ==>
        sendBuffer == old(sendBuffer) + [msg] && flushed == old(flushed)
      ensures old(state) <= SessionActive && recv != null ==>
        sendBuffer == [] && flushed == old(flushed) + old(sendBuffer) + [msg]
        && recv.Snapshot() == SendFrameGuarded(old(recv.Snapshot()), recv.maxResponseSize, Json.DataFrame(old(sendBuffer) + [msg]))
    {
      if state > SessionActive {
        return ErrNotOpen;
      }
      sendBuffer := sendBuffer + [msg];
      sent := sent + [msg];
      if recv != null {
        Flush(recv);
      }
      st := Ok;
    }

    /**
     * attachReceiver: refused while another is attached.  In SessionClosing the
     * receiver only gets the close frame and is let go at once; otherwise it
     * gets `o` if the session was SessionOpening, then the buffer, and the
     * heartbeat is armed.
     */
    method AttachReceiver(r: XhrReceiver) returns (st: Status)
      requires Valid()
      modifies this, r
      ensures Valid() && old(state) <= state
      ensures closeFrame == old(closeFrame) && pipeClosed == old(pipeClosed) && closeChCloses == old(closeChCloses)
      ensures sent == old(sent)
      ensures old(recv) != null ==>
        st == ErrReceiverAttached && recv == old(recv) && state == old(state) && sendBuffer == old(sendBuffer)
        && flushed == old(flushed) && timer == old(timer) && r.Snapshot() == old(r.Snapshot())
      ensures old(recv) == null ==> st == Ok
      ensures old(recv) == null && old(state) == SessionClosing ==>
        recv == null && state == SessionClosing && sendBuffer == old(sendBuffer) && flushed == old(flushed)
        && timer == old(timer) && r.Snapshot() == SendFrameGuarded(old(r.Snapshot()), r.maxResponseSize, closeFrame)
      ensures old(recv) == null && old(state) != SessionClosing ==>
        recv == r && sendBuffer == [] && flushed == old(flushed) + old(sendBuffer) && timer == HeartbeatTimer
        && state == (if old(state) == SessionOpening then SessionActive else old(state))
        && var afterOpen := if old(state) == SessionOpening then SendFrameGuarded(old(r.Snapshot()), r.maxResponseSize, "o")
                         else old(r.Snapshot());
           r.Snapshot() == if old(sendBuffer) == [] then afterOpen
                           else SendFrameGuarded(afterOpen, r.maxResponseSize, Json.DataFrame(old(sendBuffer)))
    {
      if recv != null {
        return ErrReceiverAttached;
      }
      recv := r;
      if state == SessionClosing {
        r.SendFrame(closeFrame);
        recv := null;
        return Ok;
      }
      if state == SessionOpening {
        r.SendFrame("o");
        state := SessionActive;
      }
      Flush(r);
      timer := HeartbeatTimer;
      st := Ok;
    }

    /** The heartbeat timer fired: an `h` frame, and the heartbeat re-armed, only while a receiver is attached. */
    method Heartbeat()
      requires Valid()
      modifies this`timer, recv
      ensures Valid()
      ensures old(recv) == null ==> timer == old(timer)
      ensures old(recv) != null ==>
        timer == HeartbeatTimer && recv.Snapshot() == SendFrameGuarded(old(recv.Snapshot()), recv.maxResponseSize, "h")
    {
      if recv != null {
        recv.SendFrame("h");
        timer := HeartbeatTimer;
      }
    }

    /** detachReceiver: the disconnect timer replaces whatever the timer was doing. */
    method DetachReceiver()
      requires Valid()
      modifies this`recv, this`timer
      ensures Valid()
      ensures recv == null && timer == DisconnectTimer
    {
      timer := DisconnectTimer;
      recv := null;
    }

    /** closing: SessionOpening or SessionActive becomes SessionClosing and the pipe closes; later states are kept. */
    method Closing()
      requires Valid()
      modifies this`state, this`pipeClosed
      ensures Valid()
      ensures state == if old(state) < SessionClosing then SessionClosing else old(state)
    {
      if state < SessionClosing {
        pipeClosed := true;
        state := SessionClosing;
      }
    }

    /** Close(status, reason): the close frame is always replaced, and the call never fails. */
    method Close(status: u32, reason: string) returns (st: Status)
      requires Valid()
      modifies this`closeFrame, this`state, this`pipeClosed
      ensures Valid()
      ensures st == Ok && closeFrame == Json.CloseFrame(status, reason)
      ensures state == if old(state) < SessionClosing then SessionClosing else old(state)
    {
      closeFrame := Json.CloseFrame(status, reason);
      Closing();
      st := Ok;
    }
  }

  /**
   * session_test.go's send-with-receiver exchange: two messages wait in the
   * buffer, the attach hands both on, and each later message is handed on at
   * once, so all four reach the receiver's sendBulk in order and nothing
   * stays buffered.
   */
  method SendWithReceiver(m1: string, m2: string, m3: string, m4: string, limit: u32)
    returns (s: Session, r: XhrReceiver)
    ensures s.Valid() && s.state == SessionActive && s.recv == r
    ensures s.sendBuffer == [] && s.flushed == [m1, m2, m3, m4]
  {
    s := new Session();
    var _ := s.SendMessage(m1);
    var _ := s.SendMessage(m2);
    assert s.sendBuffer == [m1, m2];
    r := new XhrReceiver(limit);
    var _ := s.AttachReceiver(r);
    var _ := s.SendMessage(m3);
    var _ := s.SendMessage(m4);
  }

  /**
   * After Close, every receiver that attaches gets the same single close
   * frame, and the session keeps no receiver.
   */
  method CloseThenAttach(s: Session, status: u32, reason: string, limit: u32) returns (r1: XhrReceiver, r2: XhrReceiver)
    requires s.Valid() && s.state < SessionClosing && s.recv == null
    modifies s
    ensures s.Valid() && s.state == SessionClosing && s.recv == null
    ensures r1.wire == [Json.CloseFrame(status, reason) + "\n"] && r2.wire == r1.wire
  {
    var _ := s.Close(status, reason);
    r1 := new XhrReceiver(limit);
    var _ := s.AttachReceiver(r1);
    r2 := new XhrReceiver(limit);
    var _ := s.AttachReceiver(r2);
  }

  /** The close frame session_test.go expects for Close(1, "some reason"). */
  lemma SomeReasonFrame()
    ensures Json.CloseFrame(1, "some reason") == "c[1,\"some reason\"]"
  {
    CloseFrameOne("some reason", "c[1,\"some reason\"]");
  }

  /** A close frame with status 1 and a reason JSON leaves alone, spelled out. */
  lemma CloseFrameOne(reason: string, frame: string)
    requires forall i :: 0 <= i < |reason| ==> Json.Plain(reason[i])
    requires frame == "c[1,\"" + reason + "\"]"
    ensures Json.CloseFrame(1, reason) == frame
  {
    assert NatString(1) == "1";
    Json.CloseFramePlain(1, reason);
  }
}
