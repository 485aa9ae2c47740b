// The v3 session (v3/sockjs/session.go): a state machine
// SessionOpening -> SessionActive -> SessionClosing -> SessionClosed that buffers outgoing messages while
// no receiver is attached, flushes them to the one attached receiver, and
// keeps one timer slot for the disconnect timeout or the heartbeat.
//
// The session lock makes every method atomic here.  Timers and goroutines
// become events the environment calls: the disconnect timer firing is
// Terminate(), the heartbeat timer firing is Heartbeat(), and the goroutine
// that watches an attached receiver is ReceiverDone() / ReceiverInterrupted().

module V3Session {
  import opened Text
  import Json
  import opened V3Receiver

  /** SessionState: a uint32 compared with < and >. */
  newtype SessionState = x: int | 0 <= x <= 3
  const SessionOpening: SessionState := 0
  const SessionActive: SessionState := 1
  const SessionClosing: SessionState := 2
  const SessionClosed: SessionState := 3

  /** What the one timer slot is armed with. */
  datatype Timer = NoTimer | DisconnectTimer | HeartbeatTimer

  datatype Status =
    | Ok
    | ErrNotOpen             // ErrSessionNotOpen
    | ErrReceiverAttached    // errSessionReceiverAttached
    | WriteFailed            // the receiver's own error, passed on

  class Session {
    const id: string
    /** Raw websocket sessions send no SockJS framing. */
    const raw: bool
    const heartbeatInterval: int
    var state: SessionState
    var recv: Receiver?
    var sendBuffer: seq<string>
    /** recvBuffer: what the client sent, and whether it is closed. */
    var inbound: seq<string>
    var inboundClosed: bool
    var closeFrame: string
    var timer: Timer
    var closeChClosed: bool

    ghost predicate Valid()
      reads this
    {
      (closeChClosed <==> state == SessionClosed) && (inboundClosed <==> state >= SessionClosing)
    }

    /** newSession: SessionOpening, nothing buffered, the disconnect timer armed. */
    constructor (id: string, heartbeatInterval: int, raw: bool)
      ensures Valid()
      ensures this.id == id && this.heartbeatInterval == heartbeatInterval && this.raw == raw
      ensures state == SessionOpening && recv == null && sendBuffer == [] && inbound == []
      ensures closeFrame == "" && timer == DisconnectTimer
    {
      this.id := id;
      this.heartbeatInterval := heartbeatInterval;
      this.raw := raw;
      state := SessionOpening;
      recv := null;
      sendBuffer := [];
      inbound := [];
      inboundClosed := false;
      closeFrame := "";
      timer := DisconnectTimer;
      closeChClosed := false;
    }

    /** Send / sendMessage. */
    method SendMessage(msg: string) returns (st: Status)
      requires Valid()
      modifies this, recv
      ensures Valid()
      ensures state == old(state) && recv == old(recv) && closeFrame == old(closeFrame) && timer == old(timer)
      ensures inbound == old(inbound) && inboundClosed == old(inboundClosed) && closeChClosed == old(closeChClosed)
      ensures old(state) > SessionActive ==>
        st == ErrNotOpen && sendBuffer == old(sendBuffer) && (recv != null ==> recv.Snapshot() == old(recv.Snapshot()))
      ensures old(state) <= SessionActive && (recv == null || !CanSend(old(recv.Snapshot()))) ==>
        st == Ok && sendBuffer == old(sendBuffer) + [msg] && (recv != null ==> recv.Snapshot() == old(recv.Snapshot()))
      ensures old(state) <= SessionActive && recv != null && CanSend(old(recv.Snapshot())) ==>
        var o := BulkStep(recv.kind, old(recv.Snapshot()), old(sendBuffer) + [msg]);
        recv.Snapshot() == o.conn
        && (if o.failed then st == WriteFailed && sendBuffer == old(sendBuffer) + [msg]
            else st == Ok && sendBuffer == [])
    {
      if state > SessionActive {
        return ErrNotOpen;
      }
      sendBuffer := sendBuffer + [msg];
      st := Ok;
      if recv != null && CanSend(recv.Snapshot()) {
        var failed := recv.SendBulk(sendBuffer);
        if failed {
          return WriteFailed;
        }
        sendBuffer := [];
      }
    }

    /** attachReceiver. */
    method AttachReceiver(r: Receiver) returns (st: Status)
      requires Valid()
      modifies this, r
      ensures Valid() && old(state) <= state
      ensures closeFrame == old(closeFrame) && inbound == old(inbound) && inboundClosed == old(inboundClosed)
      ensures old(recv) != null ==>
        st == ErrReceiverAttached && recv == old(recv) && state == old(state)
        && sendBuffer == old(sendBuffer) && timer == old(timer) && r.Snapshot() == old(r.Snapshot())
      ensures old(recv) == null ==> recv == r
      // in SessionClosing, the receiver gets the close frame and is closed at once
      ensures old(recv) == null && old(state) == SessionClosing ==>
        state == SessionClosing && sendBuffer == old(sendBuffer) && timer == old(timer)
        && var o := if raw then Outcome(old(r.Snapshot()), false) else FrameStep(r.kind, old(r.Snapshot()), closeFrame);
           if o.failed then st == WriteFailed && r.Snapshot() == o.conn
           else st == Ok && r.Snapshot() == o.conn.(closed := true)
      // otherwise: the open frame when SessionOpening, then the whole buffer as one bulk
      ensures old(recv) == null && old(state) != SessionClosing ==>
        var o1 := if old(state) == SessionOpening && !raw then FrameStep(r.kind, old(r.Snapshot()), "o")
                  else Outcome(old(r.Snapshot()), false);
        if o1.failed then
          st == WriteFailed && r.Snapshot() == o1.conn && state == old(state)
          && sendBuffer == old(sendBuffer) && timer == old(timer)
        else
          var o2 := BulkStep(r.kind, o1.conn, old(sendBuffer));
          r.Snapshot() == o2.conn
          && state == (if old(state) == SessionOpening then SessionActive else old(state))
          && if o2.failed then st == WriteFailed && sendBuffer == old(sendBuffer) && timer == old(timer)
             else st == Ok && sendBuffer == [] && timer == (if heartbeatInterval > 0 then HeartbeatTimer else NoTimer)
    {
      if recv != null {
        return ErrReceiverAttached;
      }
      recv := r;
      if state == SessionClosing {
        st := AttachClosing(r);
      } else {
        st := AttachOpen(r);
      }
    }

    /** attachReceiver in SessionClosing: the close frame, then the receiver is closed. */
    method AttachClosing(r: Receiver) returns (st: Status)
      requires Valid() && state == SessionClosing
      modifies r
      ensures var o := if raw then Outcome(old(r.Snapshot()), false) else FrameStep(r.kind, old(r.Snapshot()), closeFrame);
        if o.failed then st == WriteFailed && r.Snapshot() == o.conn
        else st == Ok && r.Snapshot() == o.conn.(closed := true)
    {
      if !raw {
        var failed := r.SendFrame(closeFrame);
        if failed {
          return WriteFailed;
        }
      }
      r.Close();
      return Ok;
    }

    /** attachReceiver otherwise: the open frame when SessionOpening, then the buffer as one bulk. */
    method AttachOpen(r: Receiver) returns (st: Status)
      requires Valid() && state != SessionClosing
      modifies this, r
      ensures Valid() && old(state) <= state && recv == old(recv)
      ensures closeFrame == old(closeFrame) && inbound == old(inbound) && inboundClosed == old(inboundClosed)
      ensures var o1 := if old(state) == SessionOpening && !raw then FrameStep(r.kind, old(r.Snapshot()), "o")
                  else Outcome(old(r.Snapshot()), false);
        if o1.failed then
          st == WriteFailed && r.Snapshot() == o1.conn && state == old(state)
          && sendBuffer == old(sendBuffer) && timer == old(timer)
        else
          var o2 := BulkStep(r.kind, o1.conn, old(sendBuffer));
          r.Snapshot() == o2.conn
          && state == (if old(state) == SessionOpening then SessionActive else old(state))
          && if o2.failed then st == WriteFailed && sendBuffer == old(sendBuffer) && timer == old(timer)
             else st == Ok && sendBuffer == [] && timer == (if heartbeatInterval > 0 then HeartbeatTimer else NoTimer)
    {
      if state == SessionOpening {
        if !raw {
          var failed := r.SendFrame("o");
          if failed {
            return WriteFailed;
          }
        }
        state := SessionActive;
      }
      var failed := r.SendBulk(sendBuffer);
      if failed {
        return WriteFailed;
      }
      sendBuffer := [];
      timer := if heartbeatInterval > 0 then HeartbeatTimer else NoTimer;
      st := Ok;
    }

    /** detachReceiver: the disconnect timer replaces whatever the slot held. */
    method DetachReceiver()
      requires Valid()
      modifies this`recv, this`timer
      ensures Valid()
      ensures recv == null && timer == DisconnectTimer
    {
      timer := DisconnectTimer;
      recv := null;
    }

    /** The heartbeat timer fired: an `h` frame, and the heartbeat re-armed, only while a receiver is attached. */
    method Heartbeat()
      requires Valid()
      modifies this`timer, recv
      ensures Valid()
      ensures old(recv) == null ==> timer == old(timer)
      ensures old(recv) != null ==>
        timer == HeartbeatTimer && recv.Snapshot() == FrameStep(recv.kind, old(recv.Snapshot()), "h").conn
    {
      if recv != null {
        var _ := recv.SendFrame("h");
        timer := HeartbeatTimer;
      }
    }

    /** accept: the client's messages go to the receive buffer unless it is closed. */
    method Accept(msgs: seq<string>) returns (st: Status)
      requires Valid()
      modifies this`inbound
      ensures Valid()
      ensures inboundClosed ==> st == ErrNotOpen && inbound == old(inbound)
      ensures !inboundClosed ==> st == Ok && inbound == old(inbound) + msgs
    {
      if inboundClosed {
        return ErrNotOpen;
      }
      inbound := inbound + msgs;
      st := Ok;
    }

    /** closing: idempotent; the first call sends the close frame and closes the receiver. */
    method Closing()
      requires Valid()
      modifies this`state, this`inboundClosed, recv
      ensures Valid()
      ensures old(state) >= SessionClosing ==>
        state == old(state) && inboundClosed == old(inboundClosed)
        && (recv != null ==> recv.Snapshot() == old(recv.Snapshot()))
      ensures old(state) < SessionClosing ==>
        state == SessionClosing && inboundClosed
        && (recv != null ==> recv.Snapshot() == FrameStep(recv.kind, old(recv.Snapshot()), closeFrame).conn.(closed := true))
    {
      if state < SessionClosing {
        state := SessionClosing;
        inboundClosed := true;
        if recv != null {
          var _ := recv.SendFrame(closeFrame);
          recv.Close();
        }
      }
    }

    /** close: idempotent; ends in SessionClosed with the timer stopped and closeCh closed once. */
    method Terminate()
      requires Valid()
      modifies this`state, this`inboundClosed, this`timer, this`closeChClosed, recv
      ensures Valid()
      ensures state == SessionClosed && closeChClosed && inboundClosed
      ensures timer == if old(state) < SessionClosed then NoTimer else old(timer)
      ensures old(state) >= SessionClosing ==> (recv != null ==> recv.Snapshot() == old(recv.Snapshot()))
      ensures old(state) < SessionClosing ==>
        (recv != null ==> recv.Snapshot() == FrameStep(recv.kind, old(recv.Snapshot()), closeFrame).conn.(closed := true))
    {
      Closing();
      if state < SessionClosed {
        state := SessionClosed;
        timer := NoTimer;
        closeChClosed := true;
      }
    }

    /** Close(status, reason): only a session not yet closing takes a close frame. */
    method Close(status: u32, reason: string) returns (st: Status)
      requires Valid()
      modifies this`state, this`inboundClosed, this`closeFrame, recv
      ensures Valid()
      ensures old(state) >= SessionClosing ==>
        st == ErrNotOpen && state == old(state) && closeFrame == old(closeFrame) && inboundClosed == old(inboundClosed)
        && (recv != null ==> recv.Snapshot() == old(recv.Snapshot()))
      ensures old(state) < SessionClosing ==>
        st == Ok && state == SessionClosing && inboundClosed && closeFrame == Json.CloseFrame(status, reason)
        && (recv != null ==> recv.Snapshot() == FrameStep(recv.kind, old(recv.Snapshot()), closeFrame).conn.(closed := true))
    {
      if state < SessionClosing {
        closeFrame := Json.CloseFrame(status, reason);
        Closing();
        return Ok;
      }
      st := ErrNotOpen;
    }

    /** The watcher saw the attached receiver's done channel close. */
    method ReceiverDone()
      requires Valid() && recv != null && recv.closed
      modifies this`recv, this`timer
      ensures Valid()
      ensures recv == null && timer == DisconnectTimer
    {
      DetachReceiver();
    }

    /** The watcher saw the attached receiver interrupted: detach, then close. */
    method ReceiverInterrupted()
      requires Valid() && recv != null && recv.interrupted
      modifies this`recv, this`timer, this`state, this`inboundClosed, this`closeChClosed
      ensures Valid()
      ensures recv == null && state == SessionClosed && closeChClosed && inboundClosed
      ensures timer == if old(state) < SessionClosed then NoTimer else DisconnectTimer
    {
      DetachReceiver();
      Terminate();
    }
  }
}
