// The two constants both generations of the xhr transports share
// (v3/sockjs/xhr.go and sockjs/transport_xhr.go define them identically):
// cFrame, the close frame a polling request gets when another one already
// holds the session, and the prelude of 2048 `h` characters xhr_streaming
// writes first.

module XhrFrames {
  import opened Text
  import Json

  /** cFrame, `c[2010,"Another connection still open"]`: the close frame sent to a receiver that found the session taken. */
  function CFrame(): string
  {
    "c[" + "2010" + ",\"" + CFrameReason() + "\"]"
  }

  /** What xhrStreaming writes before it looks the session up. */
  function StreamingPrelude(): string
  {
    Repeat('h', 2048) + "\n"
  }

  /** The prelude is 2048 `h` characters and a newline. */
  lemma StreamingPreludeShape()
    ensures var p := StreamingPrelude(); |p| == 2049 && p[2048] == '\n' && forall i :: 0 <= i < 2048 ==> p[i] == 'h'
  {
  }

  lemma NatString2010()
    ensures NatString(2010) == "2010"
  {
    assert NatString(2) == "2";
    assert NatString(20) == NatString(2) + "0";
    assert NatString(201) == NatString(20) + "1";
  }

  /** The reason cFrame carries: printable ASCII that JSON leaves alone. */
  function CFrameReason(): (s: string)
    ensures forall i :: 0 <= i < |s| ==> Json.Plain(s[i])
  {
    "Another connection still open"
  }

  /** A close frame with code 2010 and a reason JSON leaves alone, spelled out. */
  lemma CloseFrame2010(reason: string, frame: string)
    requires forall i :: 0 <= i < |reason| ==> Json.Plain(reason[i])
    requires frame == "c[" + "2010" + ",\"" + reason + "\"]"
    ensures frame == Json.CloseFrame(2010, reason)
  {
    NatString2010();
    Json.CloseFramePlain(2010, reason);
  }

  /** cFrame is closeFrame(2010, "Another connection still open"). */
  lemma CFrameIsCloseFrame()
    ensures CFrame() == Json.CloseFrame(2010, CFrameReason())
  {
    CloseFrame2010(CFrameReason(), CFrame());
  }
}
