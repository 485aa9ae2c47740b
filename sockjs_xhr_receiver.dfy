// The oldest xhrReceiver (sockjs/xhr_receiver.go): no state field and no
// lock.  sendBulk quotes its argument slice in place before writing one
// `a[...]` frame; sendFrame writes the frame and a newline, adds the bytes to
// currentResponseSize and closes closedNotifCh when the limit is reached.
//
// As written, sendFrame closes the channel on EVERY frame at or over the
// limit, and closing a closed channel panics in Go.  SendFrameAsWritten keeps
// that behaviour and TwoFramesOverTheLimit exhibits the double close; the
// receiver below uses SendFrameGuarded, which ignores frames once the channel
// is closed (the guard the later sockjs/xhrreceiver.go adds), and is proved
// to close it at most once.

module SockjsLegacyXhrReceiver {
  import opened Text
  import Json

  /** currentResponseSize, the writes on the response, and how many times closedNotifCh was closed. */
  datatype Conn = Conn(size: u32, wire: seq<string>, doneCloses: nat)

  function Initial(): Conn
  {
    Conn(0, [], 0)
  }

  /** sendFrame as written: no guard, a close for every frame at or over the limit. */
  function SendFrameAsWritten(c: Conn, limit: u32, value: string): (r: Conn)
    ensures r.wire == c.wire + [value + "\n"] && r.size == AddU32(c.size, |value| + 1)
    ensures r.doneCloses == if r.size >= limit then c.doneCloses + 1 else c.doneCloses
  {
    var size := AddU32(c.size, |value| + 1);
    Conn(size, c.wire + [value + "\n"], if size >= limit then c.doneCloses + 1 else c.doneCloses)
  }

  /**
   * The double close: a polling receiver (limit 1) that writes the open
   * frame and then any second frame, such as the buffered messages an
   * attach flushes or a heartbeat, closes closedNotifCh twice.
   */
  lemma TwoFramesOverTheLimit(first: string, second: string)
    requires |first| + |second| + 2 < 0x1_0000_0000
    ensures SendFrameAsWritten(SendFrameAsWritten(Initial(), 1, first), 1, second).doneCloses == 2
  {
  }

  /** sendFrame with the guard: once closedNotifCh is closed, frames are ignored. */
  function SendFrameGuarded(c: Conn, limit: u32, value: string): (r: Conn)
    ensures c.doneCloses > 0 ==> r == c
    ensures c.doneCloses == 0 ==> r == SendFrameAsWritten(c, limit, value)
  {
    if c.doneCloses > 0 then c else SendFrameAsWritten(c, limit, value)
  }

  /** Frames one after another. */
  function Frames(c: Conn, limit: u32, values: seq<string>): Conn
    decreases |values|
  {
    if |values| == 0 then c else Frames(SendFrameGuarded(c, limit, values[0]), limit, values[1..])
  }

  function FramesAsWritten(c: Conn, limit: u32, values: seq<string>): Conn
    decreases |values|
  {
    if |values| == 0 then c else FramesAsWritten(SendFrameAsWritten(c, limit, values[0]), limit, values[1..])
  }

  /** The guarded receiver closes closedNotifCh at most once, whatever is sent. */
  lemma {:induction false} GuardedClosesOnce(c: Conn, limit: u32, values: seq<string>)
    requires c.doneCloses <= 1
    ensures Frames(c, limit, values).doneCloses <= 1
    ensures c.doneCloses == 1 ==> Frames(c, limit, values) == c
    decreases |values|
  {
    if |values| > 0 {
      GuardedClosesOnce(SendFrameGuarded(c, limit, values[0]), limit, values[1..]);
    }
  }

  /** Until the limit is reached the guard changes nothing: the two agree on every frame before the close. */
  lemma {:induction false} GuardAgreesBeforeLimit(c: Conn, limit: u32, values: seq<string>)
    requires c.doneCloses == 0 && FramesAsWritten(c, limit, values).doneCloses == 0
    ensures Frames(c, limit, values) == FramesAsWritten(c, limit, values)
    decreases |values|
  {
    if |values| > 0 {
      var d := SendFrameAsWritten(c, limit, values[0]);
      CloseCountGrows(d, limit, values[1..]);
      GuardAgreesBeforeLimit(d, limit, values[1..]);
    }
  }

  lemma {:induction false} CloseCountGrows(c: Conn, limit: u32, values: seq<string>)
    ensures FramesAsWritten(c, limit, values).doneCloses >= c.doneCloses
    decreases |values|
  {
    if |values| > 0 {
      CloseCountGrows(SendFrameAsWritten(c, limit, values[0]), limit, values[1..]);
    }
  }

  /** Two plain messages make a data frame of their lengths plus eight. */
  lemma DataFrameOfTwo(m1: string, m2: string)
    requires forall i :: 0 <= i < |m1| ==> Json.Plain(m1[i])
    requires forall i :: 0 <= i < |m2| ==> Json.Plain(m2[i])
    ensures Json.DataFrame([m1, m2]) == "a[\"" + m1 + "\",\"" + m2 + "\"]"
    ensures |Json.DataFrame([m1, m2])| == |m1| + |m2| + 8
  {
    Json.QuotePlain(m1);
    Json.QuotePlain(m2);
    assert Json.QuoteAll([m1, m2]) == [Json.Quote(m1), Json.Quote(m2)];
    assert Join([Json.Quote(m2)], ",") == Json.Quote(m2);
  }

  /**
   * The response-size scenario: with a limit of 54, a bulk of two 9-byte
   * messages is a 27-byte write that leaves the channel open, and a second
   * such bulk reaches the limit and closes it, once.
   */
  lemma ResponseLimitScenario(m1: string, m2: string)
    requires |m1| == 9 && |m2| == 9
    requires forall i :: 0 <= i < |m1| ==> Json.Plain(m1[i])
    requires forall i :: 0 <= i < |m2| ==> Json.Plain(m2[i])
    ensures var f := Json.DataFrame([m1, m2]);
      var once := SendFrameGuarded(Initial(), 54, f);
      var twice := SendFrameGuarded(once, 54, f);
      once.size == 27 && once.doneCloses == 0 && twice.size == 54 && twice.doneCloses == 1
  {
    DataFrameOfTwo(m1, m2);
  }

  /** xhrReceiver, with the guard on sendFrame. */
  class XhrReceiver {
    const maxResponseSize: u32
    var currentResponseSize: u32
    var wire: seq<string>
    var doneCloses: nat

    function Snapshot(): Conn
      reads this
    {
      Conn(currentResponseSize, wire, doneCloses)
    }

    /** newXhrReceiver: the limit is stored, nothing written, the channel open. */
    constructor (maxResponse: u32)
      ensures maxResponseSize == maxResponse && Snapshot() == Initial()
    {
      maxResponseSize := maxResponse;
      currentResponseSize := 0;
      wire := [];
      doneCloses := 0;
    }

    method SendFrame(value: string)
      modifies this
      ensures Snapshot() == SendFrameGuarded(old(Snapshot()), maxResponseSize, value)
    {
      if doneCloses == 0 {
        wire := wire + [value + "\n"];
        currentResponseSize := AddU32(currentResponseSize, |value| + 1);
        if currentResponseSize >= maxResponseSize {
          doneCloses := doneCloses + 1;
        }
      }
    }

    /**
     * sendBulk: the caller's slice is quoted in place, element by element;
     * then a non-empty bulk is written as one frame.
     */
    method SendBulk(messages: array<string>)
      modifies this, messages
      ensures messages[..] == Json.QuoteAll(old(messages[..]))
      ensures messages.Length == 0 ==> Snapshot() == old(Snapshot())
      ensures messages.Length > 0 ==>
        Snapshot() == SendFrameGuarded(old(Snapshot()), maxResponseSize, Json.DataFrame(old(messages[..])))
    {
      ghost var original := messages[..];
      var i := 0;
      while i < messages.Length
        invariant 0 <= i <= messages.Length
        invariant messages[..i] == Json.QuoteAll(original[..i])
        invariant messages[i..] == original[i..]
        invariant Snapshot() == old(Snapshot())
      {
        assert original[..i + 1] == original[..i] + [original[i]];
        QuoteAllSnoc(original[..i], original[i]);
        messages[i] := Json.Quote(messages[i]);
        assert messages[..i + 1] == messages[..i] + [messages[i]];
        i := i + 1;
      }
      assert original[..i] == original;
      assert messages[..] == messages[..i];
      assert original == old(messages[..]);
      assert "a[" + Join(messages[..], ",") + "]" == Json.DataFrame(original);
      if messages.Length > 0 {
        SendFrame("a[" + Join(messages[..], ",") + "]");
      }
    }
  }

  lemma QuoteAllSnoc(msgs: seq<string>, m: string)
    ensures Json.QuoteAll(msgs + [m]) == Json.QuoteAll(msgs) + [Json.Quote(m)]
  {
    var l := Json.QuoteAll(msgs + [m]);
    assert |l| == |msgs| + 1;
    forall k | 0 <= k < |l|
      ensures l[k] == (Json.QuoteAll(msgs) + [Json.Quote(m)])[k]
    {
      Json.QuoteAllAt(msgs + [m], k);
      if k < |msgs| {
        assert (msgs + [m])[k] == msgs[k];
        Json.QuoteAllAt(msgs, k);
      }
    }
  }
}
