// The websocket transport of the channel-driven generation
// (sockjs/websocket.go): the header checks made before the upgrade, the
// frame writers of websocketProtocol, the reading goroutine's rule for
// inbound frames, the writing loop's rule for outbound ones, and the answer
// to a POST.  The upgrade itself and the socket I/O are the go.net websocket
// package's; reads and the output channel's offers are sequences of events.

module SockjsWebsocket {
  import opened Text
  import Json

  /** Request headers, one value per canonical header name. */
  type Header = map<string, string>

  /** http.Header.Get: "" for an absent header. */
  function Get(h: Header, key: string): (v: string)
    ensures key in h ==> v == h[key]
    ensures key !in h ==> v == ""
  {
    if key in h then h[key] else ""
  }

  datatype Handshake =
    | Rejected(text: string)     // http.Error(..., 400)
    | Proceed(headers: Header)   // handed to the websocket handler with these headers

  const UpgradeRejected := "Can \"Upgrade\" only to \"WebSocket\"."
  const ConnectionRejected := "\"Connection\" must be \"Upgrade\"."

  /** The Origin fix-up for version 13 clients that send Sec-WebSocket-Origin instead. */
  function FixOrigin(h: Header): Header
  {
    if Get(h, "Sec-Websocket-Version") == "13" && Get(h, "Origin") == ""
    then h["Origin" := Get(h, "Sec-Websocket-Origin")]
    else h
  }

  /** WebSocketHandler up to the upgrade. */
  function CheckHandshake(h: Header): (r: Handshake)
    // Upgrade is compared case-insensitively, and checked first
    ensures ToLower(Get(h, "Upgrade")) != "websocket" ==> r == Rejected(UpgradeRejected)
    // Connection must be exactly one of two values, in any case
    ensures ToLower(Get(h, "Upgrade")) == "websocket" ==>
      (r.Proceed? <==> ToLower(Get(h, "Connection")) == "upgrade" || ToLower(Get(h, "Connection")) == "keep-alive, upgrade")
    ensures r.Rejected? ==> r.text == UpgradeRejected || r.text == ConnectionRejected
  {
    var h1 := FixOrigin(h);
    assert Get(h1, "Upgrade") == Get(h, "Upgrade") && Get(h1, "Connection") == Get(h, "Connection");
    if ToLower(Get(h1, "Upgrade")) != "websocket" then Rejected(UpgradeRejected)
    else
      var conn := ToLower(Get(h1, "Connection"));
      if conn == "keep-alive, upgrade" then Proceed(h1["Connection" := "Upgrade"])
      else if conn != "upgrade" then Rejected(ConnectionRejected)
      else Proceed(h1)
  }

  /**
   * What goes on: Origin filled in for version 13, Firefox's Connection value
   * replaced, every other header as it came.
   */
  lemma ProceedHeaders(h: Header)
    requires CheckHandshake(h).Proceed?
    ensures var g := CheckHandshake(h).headers;
      Get(g, "Origin")
        == (if Get(h, "Sec-Websocket-Version") == "13" && Get(h, "Origin") == "" then Get(h, "Sec-Websocket-Origin")
            else Get(h, "Origin"))
      && Get(g, "Connection")
        == (if ToLower(Get(h, "Connection")) == "keep-alive, upgrade" then "Upgrade" else Get(h, "Connection"))
      && forall k :: k != "Origin" && k != "Connection" ==> (k in g <==> k in h) && (k in h ==> g[k] == h[k])
  {
    var h1 := FixOrigin(h);
    assert Get(h1, "Connection") == Get(h, "Connection");
  }

  lemma LowerUpgrade()
    ensures ToLower("Upgrade") == "upgrade"
  {
    var l := ToLower("Upgrade");
    assert forall i :: 0 <= i < 7 ==> l[i] == LowerChar("Upgrade"[i]);
  }

  /** The headers the checks let through pass them again unchanged: the fix-ups are done once. */
  lemma HandshakeSettles(h: Header)
    requires CheckHandshake(h).Proceed?
    ensures CheckHandshake(CheckHandshake(h).headers) == CheckHandshake(h)
  {
    var h1 := FixOrigin(h);
    var g := CheckHandshake(h).headers;
    assert Get(h1, "Upgrade") == Get(h, "Upgrade") && Get(h1, "Connection") == Get(h, "Connection");
    if ToLower(Get(h1, "Connection")) == "keep-alive, upgrade" {
      assert g == h1["Connection" := "Upgrade"];
      assert Get(g, "Upgrade") == Get(h1, "Upgrade") && Get(g, "Connection") == "Upgrade";
      LowerUpgrade();
    } else {
      assert g == h1;
    }
    OriginSettled(h, g);
    SettledProceeds(g);
  }

  /** Headers that already pass both checks and need no fix-up go on as they are. */
  lemma SettledProceeds(g: Header)
    requires ToLower(Get(g, "Upgrade")) == "websocket" && ToLower(Get(g, "Connection")) == "upgrade"
    requires FixOrigin(g) == g
    ensures CheckHandshake(g) == Proceed(g)
  {
    assert "upgrade" != "keep-alive, upgrade" by {
      assert |"upgrade"| != |"keep-alive, upgrade"|;
    }
  }

  /** The Origin fix-up, once done, leaves the headers as they are, whatever becomes of Connection. */
  lemma OriginSettled(h: Header, g: Header)
    requires g == FixOrigin(h) || g == FixOrigin(h)["Connection" := "Upgrade"]
    ensures FixOrigin(g) == g
  {
    var h1 := FixOrigin(h);
    var version, swo := "Sec-Websocket-Version", "Sec-Websocket-Origin";
    assert |version| != |"Origin"| && |version| != |"Connection"|;
    assert |swo| != |"Origin"| && |swo| != |"Connection"|;
    if Get(g, version) == "13" && Get(g, "Origin") == "" {
      assert Get(h1, version) == "13" && Get(h1, "Origin") == "";
      assert h1 == h["Origin" := Get(h, swo)];
      assert "Origin" in g && g["Origin"] == Get(g, swo);
      assert g["Origin" := Get(g, swo)] == g;
    }
  }

  // ---------------------------------------------------------------- frames

  /** writeOpenFrame */
  function OpenFrame(): string
  {
    "o"
  }

  /** writeHeartbeat */
  function HeartbeatFrame(): string
  {
    "h"
  }

  /** writeClose: the code in decimal and the message verbatim between quotes. */
  function CloseFrame(code: int, msg: string): string
  {
    "c[" + IntString(code) + ",\"" + msg + "\"]"
  }

  /** For a message JSON leaves alone this is the session-level close frame. */
  lemma CloseFrameAgrees(code: u32, msg: string)
    requires forall i :: 0 <= i < |msg| ==> Json.Plain(msg[i])
    ensures CloseFrame(code, msg) == Json.CloseFrame(code, msg)
  {
    Json.CloseFramePlain(code, msg);
  }

  /**
   * A message holding a quote is not escaped, so the frame is no longer the
   * close frame of that message: `c[3000,"a"b"]` is not `c[3000,"a\"b"]`.
   */
  lemma CloseFrameVerbatim()
    ensures CloseFrame(3000, "a\"b") != Json.CloseFrame(3000, "a\"b")
  {
    var w := CloseFrame(3000, "a\"b");
    var j := Json.CloseFrame(3000, "a\"b");
    assert NatString(3000) == "3000" by {
      assert NatString(3) == "3";
      assert NatString(30) == "30";
      assert NatString(300) == "300";
    }
    assert Json.Escape("a\"b") == "a\\\"b";
    assert |w| == 13 && |j| == 14;
  }

  /** webSocketPostHandler: what is written on the hijacked connection. */
  function PostResponse(): (r: string)
    ensures StartsWith(r, "HTTP/1.1 405 ") && r[|r| - 4..] == "\r\n\r\n"
  {
    var r := "HTTP/1.1 405 Method Not Allowed\r\n" + "Content-Length: 0\r\n" + "Allow: GET\r\n" + "\r\n";
    assert r[..13] == "HTTP/1.1 405 ";
    r
  }

  // ---------------------------------------------------------------- reading

  /** One net_conn.Read: an error, or the bytes read. */
  datatype Read = ReadError | Chunk(data: string)

  /**
   * The reading goroutine over a run of arrivals: the frames it hands to the
   * connection's input, and whether it reported the connection interrupted.
   * Empty reads are skipped; an error or a chunk that is not a JSON array
   * ends the goroutine.
   */
  function Reader(arrivals: seq<Read>, decodesAsArray: string -> bool): (seq<string>, bool)
    decreases |arrivals|
  {
    if |arrivals| == 0 then ([], false)
    else match arrivals[0]
      case ReadError => ([], true)
      case Chunk(d) =>
        if |d| == 0 then Reader(arrivals[1..], decodesAsArray)
        else if !decodesAsArray(d) then ([], true)
        else
          var (rest, interrupted) := Reader(arrivals[1..], decodesAsArray);
          ([d] + rest, interrupted)
  }

  /** A read the goroutine lets pass: a chunk that is empty or a JSON array. */
  predicate Passes(r: Read, decodesAsArray: string -> bool)
  {
    r.Chunk? && (|r.data| == 0 || decodesAsArray(r.data))
  }

  /** The non-empty chunks, in order. */
  function NonEmptyChunks(arrivals: seq<Read>): seq<string>
    decreases |arrivals|
  {
    if |arrivals| == 0 then []
    else if arrivals[0].Chunk? && |arrivals[0].data| > 0 then [arrivals[0].data] + NonEmptyChunks(arrivals[1..])
    else NonEmptyChunks(arrivals[1..])
  }

  /**
   * The input receives, in order, the non-empty chunks before the first read
   * that fails; that read, if there is one, reports the interruption.
   */
  lemma {:induction false} ReaderForwards(arrivals: seq<Read>, decodesAsArray: string -> bool, k: nat)
    requires k <= |arrivals| && forall i :: 0 <= i < k ==> Passes(arrivals[i], decodesAsArray)
    requires k == |arrivals| || !Passes(arrivals[k], decodesAsArray)
    ensures Reader(arrivals, decodesAsArray) == (NonEmptyChunks(arrivals[..k]), k < |arrivals|)
    decreases k
  {
    if k > 0 {
      assert arrivals[..k][1..] == arrivals[1..][..k - 1];
      ReaderForwards(arrivals[1..], decodesAsArray, k - 1);
    } else if |arrivals| > 0 {
      assert arrivals[..k] == [];
    }
  }

  /** The reading goroutine's loop. */
  method ReadLoop(arrivals: seq<Read>, decodesAsArray: string -> bool) returns (input: seq<string>, interrupted: bool)
    ensures (input, interrupted) == Reader(arrivals, decodesAsArray)
  {
    input := [];
    var i := 0;
    assert arrivals[i..] == arrivals;
    assert [] + Reader(arrivals, decodesAsArray).0 == Reader(arrivals, decodesAsArray).0;
    while i < |arrivals|
      invariant 0 <= i <= |arrivals|
      invariant Reader(arrivals, decodesAsArray) == (input + Reader(arrivals[i..], decodesAsArray).0, Reader(arrivals[i..], decodesAsArray).1)
    {
      assert arrivals[i..][1..] == arrivals[i + 1..];
      match arrivals[i] {
        case ReadError =>
          assert input + [] == input;
          return input, true;
        case Chunk(d) =>
          if |d| > 0 {
            if !decodesAsArray(d) {
              assert input + [] == input;
              return input, true;
            }
            assert input + ([d] + Reader(arrivals[i + 1..], decodesAsArray).0) == (input + [d]) + Reader(arrivals[i + 1..], decodesAsArray).0;
            input := input + [d];
          }
      }
      i := i + 1;
    }
    assert input + [] == input;
    interrupted := false;
  }

  // ---------------------------------------------------------------- writing

  /** What the writing loop's select sees next. */
  datatype Offer = Frame(frame: string) | OutputClosed | Interrupted

  /**
   * The writing loop, after the open frame: each output frame is written as
   * the data frame `createDataFrame` makes of it; a closed output channel
   * writes close 3000 "Go away!" and ends; an interruption ends it by
   * closing the connection.  The second result is whether conn.Close ran.
   */
  function Writer(offers: seq<Offer>, createDataFrame: string -> string): (seq<string>, bool)
    decreases |offers|
  {
    if |offers| == 0 then ([], false)
    else match offers[0]
      case OutputClosed => ([CloseFrame(3000, "Go away!")], false)
      case Interrupted => ([], true)
      case Frame(f) =>
        var (rest, closed) := Writer(offers[1..], createDataFrame);
        ([createDataFrame(f)] + rest, closed)
  }

  /**
   * What the writing loop puts on the connection after the open frame: the
   * data frames of the frames before the loop ends, then the close frame if
   * the output channel closed; after an interruption nothing more is written.
   */
  lemma {:induction false} WriterStopsAtEnd(offers: seq<Offer>, createDataFrame: string -> string, k: nat)
    requires k <= |offers| && forall i :: 0 <= i < k ==> offers[i].Frame?
    requires k < |offers| ==> !offers[k].Frame?
    ensures var (wire, closed) := Writer(offers, createDataFrame);
      |wire| >= k && (forall i :: 0 <= i < k ==> wire[i] == createDataFrame(offers[i].frame))
      && wire[k..] == (if k < |offers| && offers[k].OutputClosed? then [CloseFrame(3000, "Go away!")] else [])
      && (closed <==> k < |offers| && offers[k].Interrupted?)
    decreases k
  {
    if k > 0 {
      WriterStopsAtEnd(offers[1..], createDataFrame, k - 1);
      var (rest, closed) := Writer(offers[1..], createDataFrame);
      var wire := [createDataFrame(offers[0].frame)] + rest;
      assert wire[k..] == rest[k - 1..];
      forall i | 0 <= i < k
        ensures wire[i] == createDataFrame(offers[i].frame)
      {
        if i > 0 {
          assert wire[i] == rest[i - 1] && offers[1..][i - 1] == offers[i];
        }
      }
    }
  }
}
