// The receivers a v3 session writes to: the websocket receiver of
// v3/sockjs/websocket.go and the HTTP receiver that the xhr transports build
// around xhrFrameWriter (v3/sockjs/xhr.go).  The receiver contract is a fixed
// tagged variant: one class, the kind decides how a frame reaches the client.
// What one call does to a receiver is given by the pure FrameStep / BulkStep,
// which the session's contracts use.

module V3Receiver {
  import opened Text
  import Json

  datatype Kind =
    | Websocket                 // one websocket text message per frame
    | Http(limit: u32)          // a streamed HTTP response that ends once `limit` bytes were written

  /** What a receiver holds: the writes that reached the client, in order, and its flags. */
  datatype Conn = Conn(
    wire: seq<string>,
    size: u32,           // bytes written by the receiver (Http)
    closed: bool,        // the done channel has been closed
    interrupted: bool,   // the interrupted channel has been closed (Http: the client went away)
    broken: bool)        // the underlying connection rejects writes

  datatype Outcome = Outcome(conn: Conn, failed: bool)

  /** xhrFrameWriter.write: the frame followed by a newline. */
  function XhrFrame(frame: string): (w: string)
    ensures |w| == |frame| + 1 && w[..|frame|] == frame && w[|frame|] == '\n'
  {
    frame + "\n"
  }

  /** What one sendFrame call does. */
  function FrameStep(k: Kind, c: Conn, frame: string): (o: Outcome)
    // being done is final, and a frame is never partly written
    ensures c.closed ==> o.conn.closed
    ensures o.conn.interrupted == c.interrupted && o.conn.broken == c.broken
    ensures o.failed ==> o.conn == c
    // a websocket receiver never reports an error: a failed write closes it instead
    ensures k.Websocket? ==> !o.failed && (o.conn.closed <==> c.closed || c.broken)
    ensures k.Websocket? ==> o.conn.wire == if c.broken then c.wire else c.wire + [frame]
    // an HTTP receiver that is done ignores frames; otherwise it reports the write error
    ensures k.Http? && c.closed ==> o == Outcome(c, false)
    ensures k.Http? && !c.closed ==> (o.failed <==> c.broken)
    ensures k.Http? && !c.closed && !c.broken ==>
      o.conn.wire == c.wire + [XhrFrame(frame)]
      && o.conn.size == AddU32(c.size, |frame| + 1)
      && (o.conn.closed <==> o.conn.size >= k.limit)
  {
    match k
    case Websocket =>
      if c.broken then Outcome(c.(closed := true), false)
      else Outcome(c.(wire := c.wire + [frame]), false)
    case Http(limit) =>
      if c.closed then Outcome(c, false)
      else if c.broken then Outcome(c, true)
      else
        var size := AddU32(c.size, |XhrFrame(frame)|);
        Outcome(c.(wire := c.wire + [XhrFrame(frame)], size := size, closed := size >= limit), false)
  }

  /** What one sendBulk call does: nothing for no messages, else one data frame. */
  function BulkStep(k: Kind, c: Conn, msgs: seq<string>): (o: Outcome)
    ensures |msgs| == 0 ==> o == Outcome(c, false)
    ensures |msgs| > 0 ==> o == FrameStep(k, c, Json.DataFrame(msgs))
  {
    if |msgs| == 0 then Outcome(c, false) else FrameStep(k, c, Json.DataFrame(msgs))
  }

  function CanSend(c: Conn): bool
  {
    !c.closed
  }

  class Receiver {
    const kind: Kind
    var wire: seq<string>
    var size: u32
    var closed: bool
    var interrupted: bool
    var broken: bool

    function Snapshot(): Conn
      reads this
    {
      Conn(wire, size, closed, interrupted, broken)
    }

    /** A receiver over a connection on which `written` has already been sent. */
    constructor (kind: Kind, written: seq<string>)
      ensures this.kind == kind && Snapshot() == Conn(written, 0, false, false, false)
    {
      this.kind := kind;
      wire := written;
      size := 0;
      closed := false;
      interrupted := false;
      broken := false;
    }

    method SendFrame(frame: string) returns (failed: bool)
      modifies this
      ensures Outcome(Snapshot(), failed) == FrameStep(kind, old(Snapshot()), frame)
    {
      var o := FrameStep(kind, Snapshot(), frame);
      wire, size, closed, failed := o.conn.wire, o.conn.size, o.conn.closed, o.failed;
    }

    method SendBulk(msgs: seq<string>) returns (failed: bool)
      modifies this
      ensures Outcome(Snapshot(), failed) == BulkStep(kind, old(Snapshot()), msgs)
    {
      failed := false;
      if |msgs| > 0 {
        failed := SendFrame(Json.DataFrame(msgs));
      }
    }

    /** close(): idempotent; the done channel is closed once. */
    method Close()
      modifies this
      ensures Snapshot() == old(Snapshot()).(closed := true)
    {
      closed := true;
    }

    /** The connection starts rejecting writes (an environment event). */
    method ConnectionLost()
      modifies this
      ensures Snapshot() == old(Snapshot()).(broken := true)
    {
      broken := true;
    }

    /**
     * The HTTP client went away (an environment event): the interrupted
     * channel closes unless the receiver is already done.  A websocket
     * receiver has no interrupted channel.
     */
    method ClientGone()
      modifies this
      ensures Snapshot() == old(Snapshot()).(interrupted := old(interrupted) || (kind.Http? && !old(closed)))
    {
      if kind.Http? && !closed {
        interrupted := true;
      }
    }
  }

  // ---------------------------------------------------------------- properties over several calls

  /** The frames a receiver is handed in order, applied one after another. */
  function Frames(k: Kind, c: Conn, frames: seq<string>): (r: Conn)
    ensures c.closed ==> r.closed
    ensures r.broken == c.broken && r.interrupted == c.interrupted
    decreases |frames|
  {
    if |frames| == 0 then c else Frames(k, FrameStep(k, c, frames[0]).conn, frames[1..])
  }

  /** A websocket client sees exactly the frames it was sent while the connection holds. */
  lemma {:induction false} WebsocketDelivers(c: Conn, frames: seq<string>)
    requires !c.broken
    ensures Frames(Websocket, c, frames).wire == c.wire + frames
    ensures Frames(Websocket, c, frames).closed == c.closed
    decreases |frames|
  {
    if |frames| > 0 {
      WebsocketDelivers(FrameStep(Websocket, c, frames[0]).conn, frames[1..]);
      assert c.wire + [frames[0]] + frames[1..] == c.wire + frames;
    }
  }

  /** An xhr polling receiver (limit 1) is done after its first frame and writes nothing more. */
  lemma PollingTakesOneFrame(c: Conn, frames: seq<string>)
    requires !c.closed && !c.broken && |frames| > 0
    requires c.size + |frames[0]| + 1 < 0x1_0000_0000
    ensures var r := Frames(Http(1), c, frames);
      r.closed && r.wire == c.wire + [XhrFrame(frames[0])]
  {
    var c1 := FrameStep(Http(1), c, frames[0]).conn;
    DoneIgnoresFrames(1, c1, frames[1..]);
  }

  /** Once an HTTP receiver is done, later frames leave it untouched. */
  lemma {:induction false} DoneIgnoresFrames(limit: u32, c: Conn, frames: seq<string>)
    requires c.closed
    ensures Frames(Http(limit), c, frames) == c
    decreases |frames|
  {
    if |frames| > 0 {
      DoneIgnoresFrames(limit, c, frames[1..]);
    }
  }

  /** A client reading a bulk on a working websocket gets the messages back, in order. */
  lemma BulkReadsBack(c: Conn, msgs: seq<string>)
    requires !c.broken && |msgs| > 0
    ensures var r := BulkStep(Websocket, c, msgs).conn;
      |r.wire| == |c.wire| + 1 && Json.ParseDataFrame(r.wire[|c.wire|]) == Json.Option.Some(msgs)
  {
    Json.DataFrameRoundTrip(msgs);
  }
}
