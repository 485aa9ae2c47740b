// The jsonp transport of the channel-driven generation (sockjs/jsonp.go).
// Every response is one call of the page's callback with a JavaScript
// string argument: `cb("...");\r\n`.  The writers are modelled exactly; the
// connection's state functions, which in the source are goroutines
// selecting on channels and timers, become a step function over events: a
// request arriving (with what the output channel offers at that moment) or
// the disconnect delay passing without one.

module SockjsJsonp {
  import opened Text
  import Json

  /** `cb("<argument>");\r\n`: the argument is written as it is. */
  function Call(callback: string, argument: string): string
  {
    callback + "(\"" + argument + "\");\r\n"
  }

  /**
   * How the page reads a response back: the callback's name, then a string
   * literal, whose escapes are undone, then the end of the statement.
   */
  function CallArgument(callback: string, w: string): Json.Option<string>
  {
    if |w| >= |callback| + 7 && w[..|callback| + 2] == callback + "(\"" && w[|w| - 5..] == "\");\r\n"
    then Json.Unescape(w[|callback| + 2..|w| - 5])
    else Json.None
  }

  lemma CallRoundTrip(callback: string, argument: string)
    ensures CallArgument(callback, Call(callback, argument)) == Json.Unescape(argument)
  {
    var w := Call(callback, argument);
    assert w[..|callback| + 2] == callback + "(\"";
    assert w[|w| - 5..] == "\");\r\n";
    assert w[|callback| + 2..|w| - 5] == argument;
  }

  /** sendOpenFrame */
  function OpenFrame(callback: string): string
  {
    Call(callback, "o")
  }

  /** sendHeartbeatFrame */
  function HeartbeatFrame(callback: string): string
  {
    Call(callback, "h")
  }

  /** sendCloseFrame: the code in decimal and the message verbatim, between escaped quotes. */
  function CloseFrame(callback: string, code: int, msg: string): string
  {
    Call(callback, "c[" + IntString(code) + ",\\\"" + msg + "\\\"]")
  }

  /** sendDataFrame, all at once: the frames rewritten by `re` and JSON-escaped, joined into `a[...]`. */
  function DataFrame(callback: string, frames: seq<string>): string
  {
    Call(callback, Json.ScriptBody(frames))
  }

  /** The page receives `o` and `h` for the open and heartbeat frames. */
  lemma OpenAndHeartbeatRead(callback: string)
    ensures CallArgument(callback, OpenFrame(callback)) == Json.Some("o")
    ensures CallArgument(callback, HeartbeatFrame(callback)) == Json.Some("h")
  {
    CallRoundTrip(callback, "o");
    CallRoundTrip(callback, "h");
    Json.EscapeRoundTrip("o");
    Json.EscapeRoundTrip("h");
    assert Json.Escape("o") == "o";
    assert Json.Escape("h") == "h";
  }

  /** The page receives the data frame of the frames, whatever they hold. */
  lemma DataFrameRead(callback: string, frames: seq<string>)
    ensures CallArgument(callback, DataFrame(callback, frames)) == Json.Some(Json.ScriptPayload(frames))
    ensures NoLineBreak(Json.ScriptBody(frames))
  {
    CallRoundTrip(callback, Json.ScriptBody(frames));
    Json.ScriptBodyDecodes(frames);
  }

  /**
   * For a message JSON leaves alone, the page receives the session-level
   * close frame `c[<code>,"<msg>"]`.
   */
  lemma CloseFrameRead(callback: string, code: u32, msg: string)
    requires forall i :: 0 <= i < |msg| ==> Json.Plain(msg[i])
    ensures CallArgument(callback, CloseFrame(callback, code, msg)) == Json.Some(Json.CloseFrame(code, msg))
  {
    var digits := NatString(code);
    var text := "c[" + digits + ",\"" + msg + "\"]";
    assert forall i :: 0 <= i < |digits| ==> Json.Plain(digits[i]);
    Json.EscapePlain(digits);
    Json.EscapePlain(msg);
    assert Json.Escape("c[") == "c[";
    assert Json.Escape(",\"") == ",\\\"";
    assert Json.Escape("\"]") == "\\\"]";
    Json.EscapeConcat("c[", digits);
    Json.EscapeConcat("c[" + digits, ",\"");
    Json.EscapeConcat("c[" + digits + ",\"", msg);
    Json.EscapeConcat("c[" + digits + ",\"" + msg, "\"]");
    assert Json.Escape(text) == "c[" + IntString(code) + ",\\\"" + msg + "\\\"]";
    CallRoundTrip(callback, Json.Escape(text));
    Json.EscapeRoundTrip(text);
    Json.CloseFramePlain(code, msg);
  }

  /** sendDataFrame as the source builds it: a buffer grown frame by frame. */
  method SendDataFrame(callback: string, frames: seq<string>) returns (w: string, n: nat)
    ensures w == DataFrame(callback, frames) && n == |w|
  {
    var b := AppendJoined(callback + "(\"" + "a[", Json.ScriptItems(frames), ",");
    w := b + "]" + "\");\r\n";
    DataFrameShape(callback, frames);
    n := |w|;
  }

  lemma DataFrameShape(callback: string, frames: seq<string>)
    ensures DataFrame(callback, frames)
         == callback + "(\"" + "a[" + Join(Json.ScriptItems(frames), ",") + "]" + "\");\r\n"
  {
  }

  // ---------------------------------------------------------------- connection states

  /** The state function the connection's goroutine runs next; Ended is the nil state. */
  datatype State = NewConnection | OpenConnection | ClosedConnection | Ended

  /** What the output channel offers when a request is served in OpenConnection. */
  datatype Pending =
    | Frames(first: string, queued: seq<string>)   // a frame, and those the drain finds already queued
    | OutputClosed
    | HeartbeatDue                                 // HeartbeatDelay passed first

  datatype Event =
    | Request(callback: string, pending: Pending)
    | DisconnectDelayPassed                        // no request within DisconnectDelay

  const GoAwayCode := 3000
  const GoAwayMessage := "Go away!"

  /** One run of the current state function: the next state and the response it writes, if any. */
  function Step(s: State, e: Event): (r: (State, Json.Option<string>))
    // a request is always answered while the goroutine runs, and only then
    ensures s != Ended && e.Request? <==> r.1.Some?
    // the first request opens the connection and gets the open frame
    ensures s == NewConnection && e.Request? ==> r == (OpenConnection, Json.Some(OpenFrame(e.callback)))
    // a closed output or a closed connection answers with the close frame and stays closed
    ensures (s == OpenConnection && e.Request? && e.pending.OutputClosed?) || (s == ClosedConnection && e.Request?) ==>
      r == (ClosedConnection, Json.Some(CloseFrame(e.callback, GoAwayCode, GoAwayMessage)))
    // the disconnect delay ends an open or closed connection
    ensures (s == OpenConnection || s == ClosedConnection) && e.DisconnectDelayPassed? ==> r.0 == Ended
    // states only move forward
    ensures s == ClosedConnection ==> r.0 in {ClosedConnection, Ended}
    ensures s == Ended ==> r == (Ended, Json.None)
  {
    match s
    case NewConnection =>
      (match e
       case Request(cb, _) => (OpenConnection, Json.Some(OpenFrame(cb)))
       case DisconnectDelayPassed => (NewConnection, Json.None))
    case OpenConnection =>
      (match e
       case Request(cb, pending) =>
         (match pending
          case OutputClosed => (ClosedConnection, Json.Some(CloseFrame(cb, GoAwayCode, GoAwayMessage)))
          case Frames(first, queued) => (OpenConnection, Json.Some(DataFrame(cb, [first] + queued)))
          case HeartbeatDue => (OpenConnection, Json.Some(HeartbeatFrame(cb))))
       case DisconnectDelayPassed => (Ended, Json.None))
    case ClosedConnection =>
      (match e
       case Request(cb, _) => (ClosedConnection, Json.Some(CloseFrame(cb, GoAwayCode, GoAwayMessage)))
       case DisconnectDelayPassed => (Ended, Json.None))
    case Ended => (Ended, Json.None)
  }

  /** The states and responses of a run of events. */
  function Run(s: State, events: seq<Event>): (State, seq<Json.Option<string>>)
    decreases |events|
  {
    if |events| == 0 then (s, [])
    else
      var (t, reply) := Step(s, events[0]);
      var (u, replies) := Run(t, events[1..]);
      (u, [reply] + replies)
  }

  /**
   * Once closed, always closed: every later request, whatever its callback,
   * gets the close frame 3000 "Go away!", until the disconnect delay ends the
   * connection.
   */
  lemma {:induction false} ClosedForever(events: seq<Event>)
    ensures var (u, replies) := Run(ClosedConnection, events);
      |replies| == |events| && u in {ClosedConnection, Ended}
      && (u == ClosedConnection ==> forall i :: 0 <= i < |events| ==> events[i].Request?)
      && forall i :: 0 <= i < |events| ==>
           replies[i].Some? ==> events[i].Request? && replies[i] == Json.Some(CloseFrame(events[i].callback, GoAwayCode, GoAwayMessage))
    decreases |events|
  {
    if |events| > 0 {
      var (t, reply) := Step(ClosedConnection, events[0]);
      if t == Ended {
        EndedIsFinal(events[1..]);
      } else {
        ClosedForever(events[1..]);
      }
    }
  }

  /** After the nil state nothing is answered: the connection was deleted from the registry. */
  lemma {:induction false} EndedIsFinal(events: seq<Event>)
    ensures Run(Ended, events).0 == Ended && |Run(Ended, events).1| == |events|
    ensures forall i :: 0 <= i < |events| ==> Run(Ended, events).1[i] == Json.None
    decreases |events|
  {
    if |events| > 0 {
      EndedIsFinal(events[1..]);
    }
  }
}
