// The byte-limited HTTP receiver of sockjs/httpreceiver.go.  A receiver is
// Active until it is closed or until the bytes it has written reach
// maxResponseSize; either way doneCh is closed exactly once and nothing more
// is written.  The frame writer is a parameter (its output for a frame); the
// two concrete receivers of sockjs/xhrreceiver.go and
// sockjs/eventsourcereceiver.go are specified by the same step with their own
// framing.

module SockjsHttpReceiver {
  import opened Text
  import Json

  /** httpReceiverState (and xhrReceiverState, which has the same two values). */
  datatype State = Active | Closed

  /**
   * What a receiver has done: its state, currentResponseSize, the writes on
   * the response, how many times doneCh was closed, and whether interruptCh
   * was closed.
   */
  datatype Conn = Conn(state: State, size: u32, wire: seq<string>, doneCloses: nat, interrupted: bool)

  /** A fresh receiver. */
  function Initial(): Conn
  {
    Conn(Active, 0, [], 0, false)
  }

  /**
   * The receiver's invariant: doneCh is closed once exactly when Closed (a
   * second close would panic), and the counter is the byte total modulo 2^32.
   */
  ghost predicate Consistent(c: Conn)
  {
    c.doneCloses == (if c.state == Closed then 1 else 0) && c.size == Bytes(c.wire) % 0x1_0000_0000
  }

  /** sendFrame, given what the frame writer puts on the response for the frame. */
  function Step(c: Conn, limit: u32, written: string): (r: Conn)
    // nothing is written once Closed
    ensures c.state == Closed ==> r == c
    // an Active receiver writes, counts the bytes and closes at the limit
    ensures c.state == Active ==>
      r.wire == c.wire + [written] && r.size == AddU32(c.size, |written|)
      && (r.state == Closed <==> r.size >= limit)
    ensures r.interrupted == c.interrupted
  {
    if c.state == Closed then c
    else
      var size := AddU32(c.size, |written|);
      if size >= limit then c.(wire := c.wire + [written], size := size, state := Closed, doneCloses := c.doneCloses + 1)
      else c.(wire := c.wire + [written], size := size)
  }

  /** A write keeps the invariant: the limit closes doneCh only from Active, and the counter adds the bytes. */
  lemma StepConsistent(c: Conn, limit: u32, written: string)
    requires Consistent(c)
    ensures Consistent(Step(c, limit, written))
  {
    if c.state == Active {
      assert (c.wire + [written])[..|c.wire|] == c.wire;
      AddU32Counts(c.size, Bytes(c.wire), |written|);
    }
  }

  /** sendBulk: nothing for no messages, else one `a[...]` frame. */
  function BulkStep(c: Conn, limit: u32, write: string -> string, msgs: seq<string>): (r: Conn)
    ensures |msgs| == 0 ==> r == c
    ensures |msgs| > 0 ==> r == Step(c, limit, write(Json.DataFrame(msgs)))
  {
    if |msgs| == 0 then c else Step(c, limit, write(Json.DataFrame(msgs)))
  }

  /** close: Active -> Closed with doneCh closed; a second close does nothing. */
  function CloseStep(c: Conn): (r: Conn)
    ensures r.state == Closed && r.wire == c.wire && r.size == c.size && r.interrupted == c.interrupted
    ensures c.state == Closed ==> r == c
  {
    if c.state == Closed then c else c.(state := Closed, doneCloses := c.doneCloses + 1)
  }

  lemma CloseConsistent(c: Conn)
    requires Consistent(c)
    ensures Consistent(CloseStep(c))
  {
  }

  /**
   * The CloseNotify watcher: the client went away while doneCh was still
   * open, so interruptCh is closed; after done the watcher has already returned.
   */
  function InterruptStep(c: Conn): (r: Conn)
    ensures r.state == c.state && r.wire == c.wire && r.size == c.size && r.doneCloses == c.doneCloses
    ensures r.interrupted <==> c.interrupted || c.state == Active
  {
    if c.state == Active then c.(interrupted := true) else c
  }

  /** What can happen to a receiver, one event at a time. */
  datatype Event = Frame(written: string) | CloseCall | ClientGone

  function Apply(c: Conn, limit: u32, e: Event): Conn
  {
    match e
    case Frame(w) => Step(c, limit, w)
    case CloseCall => CloseStep(c)
    case ClientGone => InterruptStep(c)
  }

  function Run(c: Conn, limit: u32, events: seq<Event>): Conn
    decreases |events|
  {
    if |events| == 0 then c else Run(Apply(c, limit, events[0]), limit, events[1..])
  }

  /** Whatever happens, doneCh is never closed twice and the counter keeps counting. */
  lemma {:induction false} RunConsistent(c: Conn, limit: u32, events: seq<Event>)
    requires Consistent(c)
    ensures Consistent(Run(c, limit, events)) && Run(c, limit, events).doneCloses <= 1
    decreases |events|
  {
    if |events| > 0 {
      match events[0] {
        case Frame(w) => StepConsistent(c, limit, w);
        case CloseCall => CloseConsistent(c);
        case ClientGone =>
      }
      RunConsistent(Apply(c, limit, events[0]), limit, events[1..]);
    }
  }

  /** Closed never returns to Active, and a closed receiver writes nothing more. */
  lemma {:induction false} ClosedIsFinal(c: Conn, limit: u32, events: seq<Event>)
    requires c.state == Closed
    ensures Run(c, limit, events).state == Closed && Run(c, limit, events).wire == c.wire
    ensures Run(c, limit, events).doneCloses == c.doneCloses
    decreases |events|
  {
    if |events| > 0 {
      ClosedIsFinal(Apply(c, limit, events[0]), limit, events[1..]);
    }
  }

  /** The writes only ever grow: what was on the response stays its prefix. */
  lemma {:induction false} WritesOnlyGrow(c: Conn, limit: u32, events: seq<Event>)
    ensures |c.wire| <= |Run(c, limit, events).wire| && Run(c, limit, events).wire[..|c.wire|] == c.wire
    decreases |events|
  {
    if |events| > 0 {
      var d := Apply(c, limit, events[0]);
      WritesOnlyGrow(d, limit, events[1..]);
      assert d.wire[..|c.wire|] == c.wire;
      assert Run(c, limit, events).wire[..|d.wire|][..|c.wire|] == Run(c, limit, events).wire[..|c.wire|];
    }
  }

  /** httpReceiver, with its frameWriter as the function from a frame to the bytes written. */
  class HttpReceiver {
    const write: string -> string
    const maxResponseSize: u32
    var state: State
    var currentResponseSize: u32
    var wire: seq<string>
    var doneCloses: nat
    var interrupted: bool

    function Snapshot(): Conn
      reads this
    {
      Conn(state, currentResponseSize, wire, doneCloses, interrupted)
    }

    ghost predicate Valid()
      reads this
    {
      Consistent(Snapshot())
    }

    /** newHttpReceiver */
    constructor (maxResponse: u32, write: string -> string)
      ensures Valid() && Snapshot() == Initial()
      ensures maxResponseSize == maxResponse && this.write == write
    {
      this.write := write;
      maxResponseSize := maxResponse;
      state := Active;
      currentResponseSize := 0;
      wire := [];
      doneCloses := 0;
      interrupted := false;
    }

    method SendFrame(value: string)
      requires Valid()
      modifies this
      ensures Valid() && Snapshot() == Step(old(Snapshot()), maxResponseSize, write(value))
    {
      ghost var c := Snapshot();
      if state == Active {
        var w := write(value);
        wire := wire + [w];
        currentResponseSize := AddU32(currentResponseSize, |w|);
        if currentResponseSize >= maxResponseSize {
          state := Closed;
          doneCloses := doneCloses + 1;
        }
      }
      assert Snapshot() == Step(c, maxResponseSize, write(value));
      StepConsistent(c, maxResponseSize, write(value));
    }

    method SendBulk(msgs: seq<string>)
      requires Valid()
      modifies this
      ensures Valid() && Snapshot() == BulkStep(old(Snapshot()), maxResponseSize, write, msgs)
    {
      if |msgs| > 0 {
        SendFrame(Json.DataFrame(msgs));
      }
    }

    method Close()
      requires Valid()
      modifies this
      ensures Valid() && Snapshot() == CloseStep(old(Snapshot()))
    {
      if state == Active {
        state := Closed;
        doneCloses := doneCloses + 1;
      }
    }

    /** The CloseNotify watcher goroutine firing. */
    method ConnectionClosed()
      requires Valid()
      modifies this
      ensures Valid() && Snapshot() == InterruptStep(old(Snapshot()))
    {
      if state == Active {
        interrupted := true;
      }
    }
  }
}
