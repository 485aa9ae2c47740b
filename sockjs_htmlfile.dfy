// The htmlfile transport of the channel-driven generation
// (sockjs/htmlfile.go).  The response is an HTML page: a prelude that hands
// the parent window's callback to the page, padded so that browsers start
// rendering, then one `<script>` element per frame.  The first request of a
// connection streams output frames until the data frames written reach
// ResponseLimit bytes (the prelude and the open frame are not counted) or
// the output channel closes; heartbeats write nothing.  The channel and the
// timer are the environment: their offers are a sequence of events.

module SockjsHtmlfile {
  import opened Text
  import Json

  /** The _htmlFile template up to its `%s`. */
  function TemplateHead(): string
  {
    "<!doctype html>\n"
    + "<html><head>\n"
    + "  <meta "
    + "http-equiv="
    + "\"X-UA-Compatible\" "
    + "content=\"IE=edge\" />\n"
    + "  <meta "
    + "http-equiv="
    + "\"Content-Type\" "
    + "content=\"text/html; "
    + "charset=UTF-8\" />\n"
    + "</head><body>"
    + "<h2>Don't panic!</h2>\n"
    + "  <script>\n"
    + "    document.domain = "
    + "document.domain;\n"
    + "    var c = parent."
  }

  /** The _htmlFile template after its `%s`. */
  function TemplateTail(): string
  {
    ";\n"
    + "    c.start();\n"
    + "    function p(d) "
    + "{c.message(d);};\n"
    + "    window.onload = "
    + "function() "
    + "{c.stop();};\n"
    + "  </script>\n"
  }

  lemma TemplateLength()
    ensures |TemplateHead()| + |TemplateTail()| == 371
  {
  }

  /** The body of sendPrelude after the template: 1024 spaces for a page shorter than 1024 bytes, then CRLF. */
  function Pad(page: string): string
  {
    (if |page| < 1024 then page + Repeat(' ', 1024) else page) + "\r\n"
  }

  /** The padded page starts with the page, ends with CRLF, and holds at least 1024 bytes before it. */
  lemma PadShape(page: string)
    ensures var r := Pad(page);
      |r| >= |page| + 2 && r[..|page|] == page && r[|r| - 2..] == "\r\n"
      && (|page| < 1024 ==> |r| == |page| + 1026 && r[|page|..|r| - 2] == Repeat(' ', 1024))
      && (|page| >= 1024 ==> |r| == |page| + 2)
  {
    var padded := if |page| < 1024 then page + Repeat(' ', 1024) else page;
    var r := padded + "\r\n";
    assert r[..|padded|] == padded;
    assert padded[..|page|] == page;
    assert |page| < 1024 ==> padded[|page|..] == Repeat(' ', 1024);
  }

  /** sendPrelude: the template with the callback in it, padded. */
  function Prelude(callback: string): string
  {
    Pad(TemplateHead() + callback + TemplateTail())
  }

  /**
   * The page calls the callback of its parent window, and it is at least
   * 1024 bytes before its final CRLF: exactly 1024 spaces are added to a
   * shorter template and none to a longer one.
   */
  lemma PreludeShape(callback: string)
    ensures var r := Prelude(callback);
      StartsWith(r, TemplateHead() + callback + ";")
      && |r| >= 1026 && r[|r| - 2..] == "\r\n"
      && (371 + |callback| < 1024 ==>
            |r| == 371 + |callback| + 1026 && r[371 + |callback|..|r| - 2] == Repeat(' ', 1024))
      && (371 + |callback| >= 1024 ==> |r| == 371 + |callback| + 2)
  {
    var hc := TemplateHead() + callback;
    var tail := TemplateTail();
    var page := hc + tail;
    TemplateLength();
    PadShape(page);
    assert tail[..1] == ";";
    assert page[..|hc| + 1] == hc + tail[..1];
    assert Prelude(callback)[..|hc| + 1] == page[..|hc| + 1];
  }

  /** `<script>\np("<argument>");\n</script>\r\n` */
  function Script(argument: string): string
  {
    "<script>\np(\"" + argument + "\");\n</script>\r\n"
  }

  /** How the page reads a script element back: the string literal passed to p, escapes undone. */
  function ScriptArgument(w: string): Json.Option<string>
  {
    if |w| >= 27 && w[..12] == "<script>\np(\"" && w[|w| - 15..] == "\");\n</script>\r\n"
    then Json.Unescape(w[12..|w| - 15])
    else Json.None
  }

  lemma ScriptRoundTrip(argument: string)
    ensures ScriptArgument(Script(argument)) == Json.Unescape(argument)
  {
    var w := Script(argument);
    assert w[..12] == "<script>\np(\"";
    assert w[|w| - 15..] == "\");\n</script>\r\n";
    assert w[12..|w| - 15] == argument;
  }

  /** sendOpenFrame */
  function OpenFrame(): string
  {
    Script("o")
  }

  /** sendDataFrame, all at once. */
  function DataFrame(frames: seq<string>): string
  {
    Script(Json.ScriptBody(frames))
  }

  /** The page's p receives `o` from the open frame. */
  lemma OpenFrameRead()
    ensures ScriptArgument(OpenFrame()) == Json.Some("o")
  {
    ScriptRoundTrip("o");
    assert Json.Escape("o") == "o";
    Json.EscapeRoundTrip("o");
  }

  /**
   * The page's p receives exactly the data frame, and the frame cannot end
   * its script element early: the text between the quotes has no `<`.
   */
  lemma DataFrameRead(frames: seq<string>)
    ensures ScriptArgument(DataFrame(frames)) == Json.Some(Json.ScriptPayload(frames))
    ensures Json.NoTagOpen(Json.ScriptBody(frames)) && NoLineBreak(Json.ScriptBody(frames))
  {
    ScriptRoundTrip(Json.ScriptBody(frames));
    Json.ScriptBodyDecodes(frames);
    Json.EscapeNoTagOpen(Json.ScriptPayload(frames));
  }

  /** sendDataFrame as the source builds it: the `a[...]` buffer grown frame by frame, then wrapped. */
  method SendDataFrame(frames: seq<string>) returns (w: string, n: nat)
    ensures w == DataFrame(frames) && n == |w|
  {
    var b := AppendJoined("a[", Json.ScriptItems(frames), ",");
    b := b + "]";
    w := Script(b);
    n := |w|;
  }

  // ---------------------------------------------------------------- streaming

  /** What the select in hmlFileNewConnection sees next. */
  datatype Offer = Frame(frame: string) | OutputClosed | HeartbeatDue

  /** How the streaming loop ended. */
  datatype Ending =
    | LimitReached    // returns hmlFileNewConnection: the next request streams on
    | ChannelClosed   // returns nil: nothing more is written, not even a close frame
    | Waiting         // the offers ran out while the loop still waits

  /**
   * The streaming loop from `sent` bytes on, each frame written as `render`
   * gives it: the writes, the final count, and the ending.
   */
  function StreamWith(render: string -> string, limit: int, sent: int, offers: seq<Offer>): (seq<string>, int, Ending)
    decreases |offers|
  {
    if sent >= limit then ([], sent, LimitReached)
    else if |offers| == 0 then ([], sent, Waiting)
    else match offers[0]
      case OutputClosed => ([], sent, ChannelClosed)
      case HeartbeatDue => StreamWith(render, limit, sent, offers[1..])
      case Frame(f) =>
        var w := render(f);
        var (rest, total, ending) := StreamWith(render, limit, sent + |w|, offers[1..]);
        ([w] + rest, total, ending)
  }

  /** What the loop writes for one frame: its data frame. */
  function FrameWrite(f: string): string
  {
    DataFrame([f])
  }

  /** The streaming loop of hmlFileNewConnection from `sent` bytes on. */
  function Stream(limit: int, sent: int, offers: seq<Offer>): (seq<string>, int, Ending)
  {
    StreamWith(FrameWrite, limit, sent, offers)
  }

  lemma {:induction false} BytesCons(w: string, ws: seq<string>)
    ensures Bytes([w] + ws) == |w| + Bytes(ws)
    decreases |ws|
  {
    if |ws| > 0 {
      var l := [w] + ws;
      assert l[..|l| - 1] == [w] + ws[..|ws| - 1];
      BytesCons(w, ws[..|ws| - 1]);
    } else {
      assert [w] + ws == [w];
      assert [w][..0] == [];
    }
  }

  /**
   * Whatever a frame is rendered to: the count is the bytes written; the
   * limit is reached exactly when the loop says so; and every frame was
   * written while the count was still below the limit, so the loop stops at
   * the first frame that reaches it.  A closed channel ends the loop below
   * the limit.
   */
  lemma {:induction false} StreamCounts(render: string -> string, limit: int, sent: int, offers: seq<Offer>)
    ensures var r := StreamWith(render, limit, sent, offers);
      r.1 == sent + Bytes(r.0)
      && (r.2 == LimitReached <==> r.1 >= limit)
      && (forall k :: 0 <= k < |r.0| ==> sent + Bytes(r.0[..k]) < limit)
    decreases |offers|
  {
    if sent < limit && |offers| > 0 {
      match offers[0]
      case OutputClosed =>
      case HeartbeatDue => StreamCounts(render, limit, sent, offers[1..]);
      case Frame(f) =>
        var w := render(f);
        var r := StreamWith(render, limit, sent + |w|, offers[1..]);
        StreamCounts(render, limit, sent + |w|, offers[1..]);
        BytesCons(w, r.0);
        PrefixesBelow(limit, sent, w, r.0);
    }
  }

  /** Every prefix of [w] + rest stays below the limit when w starts below it and rest continues below it. */
  lemma PrefixesBelow(limit: int, sent: int, w: string, rest: seq<string>)
    requires sent < limit
    requires forall k :: 0 <= k < |rest| ==> sent + |w| + Bytes(rest[..k]) < limit
    ensures forall k :: 0 <= k < |[w] + rest| ==> sent + Bytes(([w] + rest)[..k]) < limit
  {
    var writes := [w] + rest;
    forall k | 0 <= k < |writes|
      ensures sent + Bytes(writes[..k]) < limit
    {
      if k > 0 {
        assert writes[..k] == [w] + rest[..k - 1];
        BytesCons(w, rest[..k - 1]);
      } else {
        assert writes[..k] == [];
      }
    }
  }

  /** The streaming loop as the source writes it. */
  method StreamFrames(limit: int, offers: seq<Offer>) returns (writes: seq<string>, sent: int, ending: Ending)
    ensures (writes, sent, ending) == Stream(limit, 0, offers)
  {
    writes := [];
    sent := 0;
    var i := 0;
    assert offers[i..] == offers;
    assert [] + Stream(limit, 0, offers).0 == Stream(limit, 0, offers).0;
    while sent < limit && i < |offers|
      invariant 0 <= i <= |offers|
      invariant Stream(limit, 0, offers) == Resume(writes, Stream(limit, sent, offers[i..]))
      decreases |offers| - i
    {
      StreamStep(FrameWrite, writes, limit, sent, offers[i..]);
      assert offers[i..][1..] == offers[i + 1..];
      match offers[i] {
        case OutputClosed =>
          return writes, sent, ChannelClosed;
        case HeartbeatDue =>
        case Frame(f) =>
          var w, n := SendDataFrame([f]);
          writes := writes + [w];
          sent := sent + n;
      }
      i := i + 1;
    }
    ending := if sent >= limit then LimitReached else Waiting;
    assert Stream(limit, sent, offers[i..]) == ([], sent, ending);
    assert writes + [] == writes;
  }

  /** The loop's result: the frames already written, then what the rest of the loop writes. */
  function Resume(written: seq<string>, rest: (seq<string>, int, Ending)): (seq<string>, int, Ending)
  {
    (written + rest.0, rest.1, rest.2)
  }

  /** One turn of the loop, below the limit, whatever a frame is rendered to. */
  lemma StreamStep(render: string -> string, written: seq<string>, limit: int, sent: int, offers: seq<Offer>)
    requires sent < limit && |offers| > 0
    ensures Resume(written, StreamWith(render, limit, sent, offers)) ==
      match offers[0]
      case OutputClosed => (written, sent, ChannelClosed)
      case HeartbeatDue => Resume(written, StreamWith(render, limit, sent, offers[1..]))
      case Frame(f) => Resume(written + [render(f)], StreamWith(render, limit, sent + |render(f)|, offers[1..]))
  {
    assert written + [] == written;
    if offers[0].Frame? {
      var w := render(offers[0].frame);
      var rest := StreamWith(render, limit, sent + |w|, offers[1..]).0;
      assert written + ([w] + rest) == (written + [w]) + rest;
    }
  }

  /**
   * The response of the request that opens a connection: the prelude and
   * the open frame, then the streamed data frames.
   */
  method FirstResponse(callback: string, limit: int, offers: seq<Offer>) returns (body: seq<string>, ending: Ending)
    ensures |body| >= 2 && body[0] == Prelude(callback) && body[1] == OpenFrame()
    ensures body[2..] == Stream(limit, 0, offers).0 && ending == Stream(limit, 0, offers).2
  {
    var writes, sent;
    writes, sent, ending := StreamFrames(limit, offers);
    body := [Prelude(callback), OpenFrame()] + writes;
    assert body[2..] == writes;
  }
}
