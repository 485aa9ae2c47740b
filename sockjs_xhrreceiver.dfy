// xhrReceiver of sockjs/xhrreceiver.go: the byte-limited HTTP receiver whose
// frames are written as the frame and a newline and counted as len+1 bytes.

module SockjsXhrReceiver {
  import opened Text
  import Json
  import opened SockjsHttpReceiver

  /** `fmt.Fprintf(rw, "%s\n", value)` */
  function XhrFrame(value: string): (w: string)
    ensures |w| == |value| + 1 && w[..|value|] == value && w[|value|] == '\n'
  {
    value + "\n"
  }

  /** A frame reads back as the text before its final newline. */
  lemma XhrFrameInverse(v: string, u: string)
    ensures XhrFrame(v)[..|XhrFrame(v)| - 1] == v
    ensures XhrFrame(v) == XhrFrame(u) ==> v == u
  {
    if XhrFrame(v) == XhrFrame(u) {
      assert v == XhrFrame(v)[..|v|] == XhrFrame(u)[..|u|] == u;
    }
  }

  /**
   * While Active, each frame adds exactly len(value)+1 to the counter, and
   * the receiver closes once the counter reaches the limit.
   */
  lemma XhrFrameCounts(c: Conn, limit: u32, value: string)
    requires c.state == Active
    ensures var r := Step(c, limit, XhrFrame(value));
      r.size == AddU32(c.size, |value| + 1) && r.wire == c.wire + [value + "\n"]
      && (r.state == Closed <==> AddU32(c.size, |value| + 1) >= limit)
  {
  }

  class XhrReceiver {
    const maxResponseSize: u32
    var state: State
    var currentResponseSize: u32
    var wire: seq<string>
    var doneCloses: nat
    var interrupted: bool

    function Snapshot(): Conn
      reads this
    {
      Conn(state, currentResponseSize, wire, doneCloses, interrupted)
    }

    ghost predicate Valid()
      reads this
    {
      Consistent(Snapshot())
    }

    /** newXhrReceiver */
    constructor (maxResponse: u32)
      ensures Valid() && Snapshot() == Initial() && maxResponseSize == maxResponse
    {
      maxResponseSize := maxResponse;
      state := Active;
      currentResponseSize := 0;
      wire := [];
      doneCloses := 0;
      interrupted := false;
    }

    method SendFrame(value: string)
      requires Valid()
      modifies this
      ensures Valid() && Snapshot() == Step(old(Snapshot()), maxResponseSize, XhrFrame(value))
    {
      ghost var c := Snapshot();
      if state == Active {
        wire := wire + [XhrFrame(value)];
        currentResponseSize := AddU32(currentResponseSize, |value| + 1);
        if currentResponseSize >= maxResponseSize {
          state := Closed;
          doneCloses := doneCloses + 1;
        }
      }
      assert Snapshot() == Step(c, maxResponseSize, XhrFrame(value));
      StepConsistent(c, maxResponseSize, XhrFrame(value));
    }

    method SendBulk(msgs: seq<string>)
      requires Valid()
      modifies this
      ensures Valid() && Snapshot() == BulkStep(old(Snapshot()), maxResponseSize, XhrFrame, msgs)
    {
      if |msgs| > 0 {
        SendFrame(Json.DataFrame(msgs));
      }
    }

    method Close()
      requires Valid()
      modifies this
      ensures Valid() && Snapshot() == CloseStep(old(Snapshot()))
    {
      if state == Active {
        state := Closed;
        doneCloses := doneCloses + 1;
      }
    }

    /** The CloseNotify watcher goroutine firing. */
    method ConnectionClosed()
      requires Valid()
      modifies this
      ensures Valid() && Snapshot() == InterruptStep(old(Snapshot()))
    {
      if state == Active {
        interrupted := true;
      }
    }
  }
}
