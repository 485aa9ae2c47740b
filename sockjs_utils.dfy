// The two helpers of sockjs/utils.go the channel-driven transports share:
// queueMessage, which puts every non-empty message on a channel in order,
// and sendFrame, which writes a prefix, the JSON array of the values if
// there are any, and a suffix in one write.  The channel is the sequence of
// what was put on it; the writer is taken to write everything.

module SockjsUtils {
  import opened Text
  import Json

  /** The messages that are not empty, in their order. */
  function NonEmpty(msgs: seq<string>): (r: seq<string>)
    ensures |r| <= |msgs|
    decreases |msgs|
  {
    if |msgs| == 0 then []
    else if |msgs[0]| > 0 then [msgs[0]] + NonEmpty(msgs[1..])
    else NonEmpty(msgs[1..])
  }

  /** Filtering a concatenation filters each part: the order of the messages is kept. */
  lemma {:induction false} NonEmptyConcat(a: seq<string>, b: seq<string>)
    ensures NonEmpty(a + b) == NonEmpty(a) + NonEmpty(b)
    decreases |a|
  {
    if |a| > 0 {
      assert (a + b)[1..] == a[1..] + b;
      NonEmptyConcat(a[1..], b);
    } else {
      assert a + b == b;
    }
  }

  /** Nothing empty gets through, and every non-empty message does. */
  lemma {:induction false} NonEmptyMembers(msgs: seq<string>)
    ensures forall m :: m in NonEmpty(msgs) <==> m in msgs && |m| > 0
    decreases |msgs|
  {
    if |msgs| > 0 {
      NonEmptyMembers(msgs[1..]);
      assert msgs == [msgs[0]] + msgs[1..];
    }
  }

  /** queueMessage: the loop over the messages, with the channel as what was put on it. */
  method QueueMessage(msgs: seq<string>) returns (ch: seq<string>)
    ensures ch == NonEmpty(msgs)
  {
    ch := [];
    var i := 0;
    while i < |msgs|
      invariant 0 <= i <= |msgs|
      invariant ch == NonEmpty(msgs[..i])
    {
      assert msgs[..i + 1] == msgs[..i] + [msgs[i]];
      NonEmptyConcat(msgs[..i], [msgs[i]]);
      assert NonEmpty([msgs[i]]) == if |msgs[i]| > 0 then [msgs[i]] else [] by {
        assert [msgs[i]][1..] == [];
      }
      if |msgs[i]| > 0 {
        ch := ch + [msgs[i]];
      }
      i := i + 1;
    }
    assert msgs[..i] == msgs;
  }

  /** sendFrame: the bytes of the single write, and the count it returns. */
  function SendFrame(prefix: string, suffix: string, values: seq<string>): (r: (string, nat))
    ensures r.1 == |r.0|
    ensures |values| == 0 ==> r.0 == prefix + suffix
  {
    var b := prefix + (if |values| > 0 then Json.MarshalStrings(values) else "") + suffix;
    (b, |b|)
  }

  /**
   * With values and a prefix ending in `a`, the bytes are what comes before
   * that `a`, the data frame of the values, and the suffix.
   */
  lemma PrefixedDataFrame(head: string, suffix: string, values: seq<string>)
    requires |values| > 0
    ensures SendFrame(head + "a", suffix, values).0 == head + Json.DataFrame(values) + suffix
  {
    var j := Join(Json.QuoteAll(values), ",");
    assert (head + "a") + ("[" + j + "]") + suffix == head + ("a" + ("[" + j + "]")) + suffix;
    assert "a" + ("[" + j + "]") == "a[" + j + "]";
  }

  /**
   * With values, the frame between prefix and suffix reads back as exactly
   * the values: the `a` prefix makes it the data frame a session sends.
   */
  lemma SendFrameCarriesValues(suffix: string, values: seq<string>)
    requires |values| > 0
    ensures SendFrame("a", suffix, values).0 == Json.DataFrame(values) + suffix
    ensures Json.ParseDataFrame(SendFrame("a", suffix, values).0[..|SendFrame("a", suffix, values).0| - |suffix|])
            == Json.Some(values)
  {
    var f := SendFrame("a", suffix, values).0;
    assert f == "a" + ("[" + Join(Json.QuoteAll(values), ",") + "]") + suffix;
    assert f[..|f| - |suffix|] == Json.DataFrame(values);
    Json.DataFrameRoundTrip(values);
  }

  /**
   * The frames xhr-streaming writes with it: the heartbeat `h\n`, the close
   * frame 3000 "Go away!" and the data frame each on its own line, the same
   * bytes the receivers of the session generation write.
   */
  lemma StreamingFrames(values: seq<string>)
    requires |values| > 0
    ensures SendFrame("h", "\n", []).0 == "h\n"
    ensures SendFrame("c[3000,\"Go away!\"]", "\n", []).0 == "c[3000,\"Go away!\"]\n"
    ensures SendFrame("a", "\n", values).0 == Json.DataFrame(values) + "\n"
  {
    SendFrameCarriesValues("\n", values);
  }

  /** The event-stream framing of the same data frame. */
  lemma EventSourceDataFrame(values: seq<string>)
    requires |values| > 0
    ensures SendFrame("data: a", "\r\n\r\n", values).0 == "data: " + Json.DataFrame(values) + "\r\n\r\n"
  {
    assert "data: a" == "data: " + "a";
    PrefixedDataFrame("data: ", "\r\n\r\n", values);
  }

  /** A bare close frame written by sendFrame is the session-level close frame of the same code and text. */
  lemma GoAwayIsCloseFrame()
    ensures SendFrame("c[3000,\"Go away!\"]", "\n", []).0 == Json.CloseFrame(3000, "Go away!") + "\n"
  {
    GoAway("Go away!", "c[3000,\"Go away!\"]");
  }

  lemma GoAway(reason: string, frame: string)
    requires forall i :: 0 <= i < |reason| ==> Json.Plain(reason[i])
    requires frame == "c[3000,\"" + reason + "\"]"
    ensures Json.CloseFrame(3000, reason) == frame
  {
    assert NatString(3000) == "3000" by {
      assert NatString(3) == "3";
      assert NatString(30) == "30";
      assert NatString(300) == "300";
    }
    Json.CloseFramePlain(3000, reason);
  }
}
