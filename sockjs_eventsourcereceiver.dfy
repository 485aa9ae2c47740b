// eventSourceReceiver of sockjs/eventsourcereceiver.go: the byte-limited
// HTTP receiver whose frames are server-sent events, each frame one `data:`
// field followed by a blank line (the event stream format of section 9.2 of
// the HTML Living Standard), counted as the bytes written.

module SockjsEventSourceReceiver {
  import opened Text
  import Json
  import opened SockjsHttpReceiver

  /** `fmt.Fprintf(rw, "data: %s\r\n\r\n", value)` */
  function EventSourceFrame(value: string): (w: string)
    ensures |w| == |value| + 10
  {
    "data: " + value + "\r\n\r\n"
  }

  /**
   * How an event-stream reader dispatches one block that is a single line:
   * a `data` field (one space after the colon dropped) ended by CRLF and a
   * blank line gives an event whose data is the field's value.
   */
  function EventData(block: string): Json.Option<string>
  {
    if |block| >= 9 && block[|block| - 4..] == "\r\n\r\n" && block[..5] == "data:"
       && NoLineBreak(block[..|block| - 4]) then
      var v := block[5..|block| - 4];
      Json.Some(if |v| > 0 && v[0] == ' ' then v[1..] else v)
    else Json.None
  }

  /** A frame is read back as one event carrying exactly the value, when the value is one line. */
  lemma EventSourceRoundTrip(v: string)
    requires NoLineBreak(v)
    ensures EventData(EventSourceFrame(v)) == Json.Some(v)
  {
    var b := EventSourceFrame(v);
    assert b[|b| - 4..] == "\r\n\r\n";
    assert b[..5] == "data:";
    assert b[..|b| - 4] == "data: " + v;
    NoLineBreakConcat("data: ", v);
    assert b[5..|b| - 4] == " " + v;
    assert (" " + v)[1..] == v;
  }

  /** Every data frame a session sends arrives as a single event carrying the whole frame. */
  lemma DataFrameIsOneEvent(msgs: seq<string>)
    ensures EventData(EventSourceFrame(Json.DataFrame(msgs))) == Json.Some(Json.DataFrame(msgs))
  {
    Json.DataFrameNoLineBreak(msgs);
    EventSourceRoundTrip(Json.DataFrame(msgs));
  }

  /** While Active, each frame adds its written length, len(value)+10, to the counter. */
  lemma EventSourceFrameCounts(c: Conn, limit: u32, value: string)
    requires c.state == Active
    ensures var r := Step(c, limit, EventSourceFrame(value));
      r.size == AddU32(c.size, |value| + 10) && r.wire == c.wire + ["data: " + value + "\r\n\r\n"]
      && (r.state == Closed <==> AddU32(c.size, |value| + 10) >= limit)
  {
  }

  class EventSourceReceiver {
    const maxResponseSize: u32
    var state: State
    var currentResponseSize: u32
    var wire: seq<string>
    var doneCloses: nat
    var interrupted: bool

    function Snapshot(): Conn
      reads this
    {
      Conn(state, currentResponseSize, wire, doneCloses, interrupted)
    }

    ghost predicate Valid()
      reads this
    {
      Consistent(Snapshot())
    }

    /** newEventSourceReceiver */
    constructor (maxResponse: u32)
      ensures Valid() && Snapshot() == Initial() && maxResponseSize == maxResponse
    {
      maxResponseSize := maxResponse;
      state := Active;
      currentResponseSize := 0;
      wire := [];
      doneCloses := 0;
      interrupted := false;
    }

    method SendFrame(value: string)
      requires Valid()
      modifies this
      ensures Valid() && Snapshot() == Step(old(Snapshot()), maxResponseSize, EventSourceFrame(value))
    {
      ghost var c := Snapshot();
      if state == Active {
        var n := |EventSourceFrame(value)|;
        wire := wire + [EventSourceFrame(value)];
        currentResponseSize := AddU32(currentResponseSize, n);
        if currentResponseSize >= maxResponseSize {
          state := Closed;
          doneCloses := doneCloses + 1;
        }
      }
      assert Snapshot() == Step(c, maxResponseSize, EventSourceFrame(value));
      StepConsistent(c, maxResponseSize, EventSourceFrame(value));
    }

    method SendBulk(msgs: seq<string>)
      requires Valid()
      modifies this
      ensures Valid() && Snapshot() == BulkStep(old(Snapshot()), maxResponseSize, EventSourceFrame, msgs)
    {
      if |msgs| > 0 {
        SendFrame(Json.DataFrame(msgs));
      }
    }

    method Close()
      requires Valid()
      modifies this
      ensures Valid() && Snapshot() == CloseStep(old(Snapshot()))
    {
      if state == Active {
        state := Closed;
        doneCloses := doneCloses + 1;
      }
    }

    /** The CloseNotify watcher goroutine firing. */
    method ConnectionClosed()
      requires Valid()
      modifies this
      ensures Valid() && Snapshot() == InterruptStep(old(Snapshot()))
    {
      if state == Active {
        interrupted := true;
      }
    }
  }
}
