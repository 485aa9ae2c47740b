// JSON string quoting, SockJS data and close frames, and the outcome of
// decoding a request body.  Quote follows encoding/json's string escaping
// (section 7 of RFC 8259 with encoding/json's HTML-safe choices); Unquote is
// the reading a SockJS client applies, and the two are proved inverse.

module Json {
  import opened Text

  // ---------------------------------------------------------------- hex

  function HexDigit(d: nat): (c: char)
    requires d < 16
    ensures IsHexDigit(c)
  {
    ("0123456789abcdef")[d]
  }

  predicate IsHexDigit(c: char)
  {
    ('0' <= c <= '9') || ('a' <= c <= 'f') || ('A' <= c <= 'F')
  }

  function HexValue(c: char): (d: nat)
    requires IsHexDigit(c)
    ensures d < 16
  {
    if '0' <= c <= '9' then c as int - '0' as int
    else if 'a' <= c <= 'f' then c as int - 'a' as int + 10
    else c as int - 'A' as int + 10
  }

  /** Four hex digits, of either case. */
  predicate IsHex4(h: string)
  {
    |h| == 4 && IsHexDigit(h[0]) && IsHexDigit(h[1]) && IsHexDigit(h[2]) && IsHexDigit(h[3])
  }

  /** Four lower-case hex digits, as `%04x` writes a code point below 0x10000. */
  function Hex4(n: nat): (r: string)
    requires n < 0x10000
    ensures IsHex4(r)
  {
    var q1 := n / 16;
    var q2 := q1 / 16;
    assert q2 / 16 < 16;
    [HexDigit(q2 / 16), HexDigit(q2 % 16), HexDigit(q1 % 16), HexDigit(n % 16)]
  }

  function Hex4Value(h: string): nat
    requires IsHex4(h)
  {
    16 * (16 * (16 * HexValue(h[0]) + HexValue(h[1])) + HexValue(h[2])) + HexValue(h[3])
  }

  lemma HexDigitValue(d: nat)
    requires d < 16
    ensures HexValue(HexDigit(d)) == d
  {
  }

  lemma Hex4RoundTrip(n: nat)
    requires n < 0x10000
    ensures Hex4Value(Hex4(n)) == n
  {
    var q1 := n / 16;
    var q2 := q1 / 16;
    assert q2 / 16 < 16;
    HexDigitValue(q2 / 16);
    HexDigitValue(q2 % 16);
    HexDigitValue(q1 % 16);
    HexDigitValue(n % 16);
    assert 16 * (q2 / 16) + q2 % 16 == q2;
    assert 16 * q2 + q1 % 16 == q1;
    assert 16 * q1 + n % 16 == n;
  }

  // ---------------------------------------------------------------- quoting

  /** Characters encoding/json writes as a \u escape. */
  predicate UnicodeEscaped(c: char)
  {
    (c < ' ' && c != '\n' && c != '\r' && c != '\t')
    || c == '<' || c == '>' || c == '&' || c == '\U{2028}' || c == '\U{2029}'
  }

  function EscapeChar(c: char): (r: string)
    ensures |r| > 0
  {
    if c == '"' then "\\\""
    else if c == '\\' then "\\\\"
    else if c == '\n' then "\\n"
    else if c == '\r' then "\\r"
    else if c == '\t' then "\\t"
    else if UnicodeEscaped(c) then "\\u" + Hex4(c as int)
    else [c]
  }

  function Escape(s: string): string
  {
    if |s| == 0 then "" else EscapeChar(s[0]) + Escape(s[1..])
  }

  /** `quote`: a message as a JSON string literal. */
  function Quote(s: string): (q: string)
    ensures |q| >= 2 && q[0] == '"' && q[|q| - 1] == '"'
  {
    "\"" + Escape(s) + "\""
  }

  /** transform(messages, quote) */
  function QuoteAll(msgs: seq<string>): (r: seq<string>)
    ensures |r| == |msgs|
  {
    if |msgs| == 0 then [] else [Quote(msgs[0])] + QuoteAll(msgs[1..])
  }

  /** Item i of the quoted list is message i, quoted. */
  lemma {:induction false} QuoteAllAt(msgs: seq<string>, i: nat)
    requires i < |msgs|
    ensures QuoteAll(msgs)[i] == Quote(msgs[i])
    decreases i
  {
    if i > 0 {
      QuoteAllAt(msgs[1..], i - 1);
    }
  }

  // ---------------------------------------------------------------- unquoting

  function Prepend(c: char, r: Option<string>): Option<string>
  {
    if r.Some? then Some([c] + r.value) else None
  }

  datatype Option<T> = None | Some(value: T)

  function ShortEscape(c: char): Option<char>
  {
    if c == '"' then Some('"')
    else if c == '\\' then Some('\\')
    else if c == '/' then Some('/')
    else if c == 'n' then Some('\n')
    else if c == 'r' then Some('\r')
    else if c == 't' then Some('\t')
    else if c == 'b' then Some('\U{0008}')
    else if c == 'f' then Some('\U{000C}')
    else None
  }

  predicate IsSurrogate(n: nat)
  {
    0xD800 <= n < 0xE000
  }

  /** The content of a JSON string literal without its quotes, or None when it is malformed. */
  function Unescape(s: string): Option<string>
  {
    if |s| == 0 then Some("")
    else if s[0] == '\\' then
      if |s| >= 2 && ShortEscape(s[1]).Some? then Prepend(ShortEscape(s[1]).value, Unescape(s[2..]))
      else if |s| >= 6 && s[1] == 'u' && IsHex4(s[2..6])
              && !IsSurrogate(Hex4Value(s[2..6])) then
        Prepend(Hex4Value(s[2..6]) as char, Unescape(s[6..]))
      else None
    else if s[0] == '"' || s[0] < ' ' then None
    else Prepend(s[0], Unescape(s[1..]))
  }

  function Unquote(q: string): Option<string>
  {
    if |q| >= 2 && q[0] == '"' && q[|q| - 1] == '"' then Unescape(q[1..|q| - 1]) else None
  }

  lemma UnescapeChar(c: char, t: string)
    ensures Unescape(EscapeChar(c) + t) == Prepend(c, Unescape(t))
  {
    var e := EscapeChar(c) + t;
    if c == '"' || c == '\\' || c == '\n' || c == '\r' || c == '\t' {
      assert e[2..] == t;
    } else if UnicodeEscaped(c) {
      UnescapeUnicode(c, t);
    } else {
      assert e[1..] == t;
    }
  }

  /** The `\uXXXX` form reads back as the character it encodes. */
  lemma UnescapeUnicode(c: char, t: string)
    requires UnicodeEscaped(c) && !(c == '"' || c == '\\' || c == '\n' || c == '\r' || c == '\t')
    ensures Unescape(EscapeChar(c) + t) == Prepend(c, Unescape(t))
  {
    var h := Hex4(c as int);
    assert EscapeChar(c) == "\\u" + h;
    Hex4RoundTrip(c as int);
    UnescapeHex(h, t, c);
  }

  /** Four hex digits after `\u` stand for the character of that value. */
  lemma UnescapeHex(h: string, t: string, c: char)
    requires IsHex4(h) && Hex4Value(h) == c as int
    ensures Unescape("\\u" + h + t) == Prepend(c, Unescape(t))
  {
    var e := "\\u" + h + t;
    assert e[0] == '\\' && e[1] == 'u' && ShortEscape(e[1]).None?;
    assert e[2..6] == h;
    assert e[6..] == t;
  }

  lemma {:induction false} EscapeRoundTrip(s: string)
    ensures Unescape(Escape(s)) == Some(s)
  {
    if |s| > 0 {
      EscapeRoundTrip(s[1..]);
      UnescapeChar(s[0], Escape(s[1..]));
      assert [s[0]] + s[1..] == s;
    }
  }

  /** A client reading a quoted message gets the message back. */
  lemma QuoteRoundTrip(s: string)
    ensures Unquote(Quote(s)) == Some(s)
  {
    var q := Quote(s);
    assert q[1..|q| - 1] == Escape(s);
    EscapeRoundTrip(s);
  }

  /** Distinct messages never quote alike. */
  lemma QuoteInjective(s: string, t: string)
    requires Quote(s) == Quote(t)
    ensures s == t
  {
    QuoteRoundTrip(s);
    QuoteRoundTrip(t);
  }

  /** Printable ASCII that encoding/json writes unchanged. */
  predicate Plain(c: char)
  {
    ' ' <= c <= '~' && c != '"' && c != '\\' && c != '<' && c != '>' && c != '&'
  }

  lemma {:induction false} EscapePlain(s: string)
    requires forall i :: 0 <= i < |s| ==> Plain(s[i])
    ensures Escape(s) == s
  {
    if |s| > 0 {
      EscapePlain(s[1..]);
      assert [s[0]] + s[1..] == s;
    }
  }

  /** A message of plain characters is quoted verbatim. */
  lemma QuotePlain(s: string)
    requires forall i :: 0 <= i < |s| ==> Plain(s[i])
    ensures Quote(s) == "\"" + s + "\""
  {
    EscapePlain(s);
  }

  lemma {:induction false} EscapeConcat(s: string, t: string)
    ensures Escape(s + t) == Escape(s) + Escape(t)
  {
    if |s| > 0 {
      var x := s + t;
      assert x[0] == s[0];
      assert x[1..] == s[1..] + t;
      EscapeConcat(s[1..], t);
      ConcatAssoc(EscapeChar(s[0]), Escape(s[1..]), Escape(t));
    } else {
      assert s + t == t;
    }
  }

  lemma ConcatAssoc(a: string, b: string, c: string)
    ensures a + (b + c) == (a + b) + c
  {
  }

  // ---------------------------------------------------------------- frames

  /** The data frame `a[...]` carrying messages as one JSON array. */
  function DataFrame(msgs: seq<string>): string
  {
    "a[" + Join(QuoteAll(msgs), ",") + "]"
  }

  /** `closeFrame(status, reason)`: `c[<status>,<quoted reason>]`. */
  function CloseFrame(status: u32, reason: string): string
  {
    "c[" + NatString(status) + "," + Quote(reason) + "]"
  }

  /** json.Marshal of a []string. */
  function MarshalStrings(values: seq<string>): string
  {
    "[" + Join(QuoteAll(values), ",") + "]"
  }

  /** Characters from a reason that needs no escaping go into the close frame unchanged. */
  lemma CloseFramePlain(status: u32, reason: string)
    requires forall i :: 0 <= i < |reason| ==> Plain(reason[i])
    ensures CloseFrame(status, reason) == "c[" + NatString(status) + ",\"" + reason + "\"]"
  {
    QuotePlain(reason);
  }

  /** Escaping leaves no raw CR or LF: a quoted message stays on one line. */
  lemma {:induction false} EscapeNoLineBreak(s: string)
    ensures NoLineBreak(Escape(s))
  {
    if |s| > 0 {
      EscapeNoLineBreak(s[1..]);
      var e := EscapeChar(s[0]);
      EscapeCharText(s[0]);
      NoLineBreakConcat(e, Escape(s[1..]));
    }
  }

  /**
   * One escaped character is either the character itself, when it needs no
   * escape, or a backslash sequence of letters, digits and punctuation.
   */
  lemma EscapeCharText(c: char)
    ensures NoLineBreak(EscapeChar(c)) && NoTagOpen(EscapeChar(c))
  {
    var e := EscapeChar(c);
    if UnicodeEscaped(c) && !(c == '"' || c == '\\' || c == '\n' || c == '\r' || c == '\t') {
      var h := Hex4(c as int);
      assert forall i :: 0 <= i < 4 ==> IsHexDigit(h[i]);
      assert e == "\\u" + h;
      assert forall i :: 0 <= i < |e| ==> e[i] == (if i < 2 then "\\u"[i] else h[i - 2]);
    }
  }

  /** A data frame is one line, whatever the messages hold. */
  lemma DataFrameNoLineBreak(msgs: seq<string>)
    ensures NoLineBreak(DataFrame(msgs))
  {
    var q := QuoteAll(msgs);
    forall i | 0 <= i < |q|
      ensures NoLineBreak(q[i])
    {
      QuoteAllAt(msgs, i);
      EscapeNoLineBreak(msgs[i]);
      NoLineBreakConcat("\"", Escape(msgs[i]));
      NoLineBreakConcat("\"" + Escape(msgs[i]), "\"");
    }
    JoinNoLineBreak(q, ",");
    NoLineBreakConcat("a[", Join(q, ","));
    NoLineBreakConcat("a[" + Join(q, ","), "]");
  }

  // ---------------------------------------------------------------- reading frames back

  /** The index of the quote that ends the JSON string whose content starts at k. */
  function StringEnd(s: string, k: nat): (r: Option<nat>)
    ensures r.Some? ==> k <= r.value < |s| && s[r.value] == '"'
    decreases |s| - k
  {
    if k >= |s| then None
    else if s[k] == '"' then Some(k)
    else if s[k] == '\\' then StringEnd(s, k + 2)
    else StringEnd(s, k + 1)
  }

  /** A client's reading of the array body `"m1","m2",...` of a data frame. */
  function ParseItems(s: string): Option<seq<string>>
  {
    ParseItemsWith(Unescape, s)
  }

  /** The same reading with the decoder of one string literal's content as a parameter. */
  function ParseItemsWith(unescape: string -> Option<string>, s: string): Option<seq<string>>
    decreases |s|
  {
    if |s| == 0 then Some([])
    else if s[0] != '"' then None
    else
      var e := StringEnd(s, 1);
      if e.None? then None
      else
        var content := unescape(s[1..e.value]);
        if content.None? then None
        else if e.value + 1 == |s| then Some([content.value])
        else if s[e.value + 1] == ',' && e.value + 2 < |s| then
          var tail := ParseItemsWith(unescape, s[e.value + 2..]);
          if tail.Some? then Some([content.value] + tail.value) else None
        else None
  }

  /** A client's reading of a data frame: the messages it carries. */
  function ParseDataFrame(f: string): Option<seq<string>>
  {
    if |f| >= 3 && f[..2] == "a[" && f[|f| - 1] == ']' then ParseItems(f[2..|f| - 1]) else None
  }

  /** Text made of whole escape units: StringEnd passes over it without stopping. */
  predicate Clean(x: string)
    decreases |x|
  {
    if |x| == 0 then true
    else if x[0] == '\\' then |x| >= 2 && Clean(x[2..])
    else x[0] != '"' && Clean(x[1..])
  }

  lemma {:induction false} CleanConcat(a: string, b: string)
    requires Clean(a) && Clean(b)
    ensures Clean(a + b)
    decreases |a|
  {
    if |a| == 0 {
      assert a + b == b;
    } else if a[0] == '\\' {
      assert (a + b)[2..] == a[2..] + b;
      CleanConcat(a[2..], b);
    } else {
      assert (a + b)[1..] == a[1..] + b;
      CleanConcat(a[1..], b);
    }
  }

  lemma {:induction false} CleanPlain(x: string)
    requires forall i :: 0 <= i < |x| ==> x[i] != '"' && x[i] != '\\'
    ensures Clean(x)
    decreases |x|
  {
    if |x| > 0 {
      CleanPlain(x[1..]);
    }
  }

  lemma CleanEscapeChar(c: char)
    ensures Clean(EscapeChar(c))
  {
    var e := EscapeChar(c);
    if c == '"' || c == '\\' || c == '\n' || c == '\r' || c == '\t' {
      assert e[2..] == "";
    } else if UnicodeEscaped(c) {
      var h := Hex4(c as int);
      assert e[2..] == h;
      CleanPlain(h);
    } else {
      assert e[1..] == "";
    }
  }

  lemma {:induction false} CleanEscape(m: string)
    ensures Clean(Escape(m))
    decreases |m|
  {
    if |m| > 0 {
      CleanEscapeChar(m[0]);
      CleanEscape(m[1..]);
      CleanConcat(EscapeChar(m[0]), Escape(m[1..]));
    }
  }

  /** Scanning for the closing quote passes over a clean chunk of s. */
  lemma {:induction false} StringEndOverClean(s: string, k: nat, x: string)
    requires k + |x| <= |s| && s[k..k + |x|] == x && Clean(x)
    ensures StringEnd(s, k) == StringEnd(s, k + |x|)
    decreases |x|
  {
    if |x| > 0 {
      assert s[k] == x[0];
      var n := if x[0] == '\\' then 2 else 1;
      assert s[k + n..k + |x|] == x[n..];
      StringEndOverClean(s, k + n, x[n..]);
    }
  }

  lemma StringEndOfEscape(s: string, k: nat, m: string)
    requires k + |Escape(m)| < |s| && s[k..k + |Escape(m)|] == Escape(m) && s[k + |Escape(m)|] == '"'
    ensures StringEnd(s, k) == Some(k + |Escape(m)|)
  {
    CleanEscape(m);
    StringEndAfterClean(s, k, Escape(m));
  }

  /** A clean chunk followed by a quote: the scan stops at that quote. */
  lemma StringEndAfterClean(s: string, k: nat, x: string)
    requires k + |x| < |s| && s[k..k + |x|] == x && s[k + |x|] == '"' && Clean(x)
    ensures StringEnd(s, k) == Some(k + |x|)
  {
    StringEndOverClean(s, k, x);
  }

  /** Reading one quoted message off the front of a string. */
  lemma ReadQuoted(m: string, rest: string)
    ensures var j := Quote(m) + rest;
      StringEnd(j, 1) == Some(|Quote(m)| - 1) && Unescape(j[1..|Quote(m)| - 1]) == Some(m)
      && j[|Quote(m)|..] == rest
  {
    var j := Quote(m) + rest;
    var n := |Escape(m)|;
    assert j[1..1 + n] == Escape(m);
    assert j[1 + n] == '"';
    StringEndOfEscape(j, 1, m);
    EscapeRoundTrip(m);
  }

  lemma ParseSingle(m: string)
    ensures ParseItems(Quote(m)) == Some([m])
  {
    var q := Quote(m);
    assert q == q + "";
    ReadQuoted(m, "");
  }

  lemma ParseCons(m: string, t: string)
    requires |t| > 0
    ensures ParseItems(Quote(m) + ("," + t))
         == if ParseItems(t).Some? then Some([m] + ParseItems(t).value) else None
  {
    var j := Quote(m) + ("," + t);
    var q := |Quote(m)|;
    ReadQuoted(m, "," + t);
    assert j[0] == '"';
    assert j[q + 1..] == t;
    ParseItemsStep(Unescape, j, q - 1);
  }

  /** One item read off the front, then a comma and more items. */
  lemma ParseItemsStep(unescape: string -> Option<string>, s: string, e: nat)
    requires |s| > 0 && s[0] == '"' && StringEnd(s, 1) == Some(e) && unescape(s[1..e]).Some?
    requires e + 2 < |s| && s[e + 1] == ','
    ensures ParseItemsWith(unescape, s) == if ParseItemsWith(unescape, s[e + 2..]).Some?
      then Some([unescape(s[1..e]).value] + ParseItemsWith(unescape, s[e + 2..]).value) else None
  {
  }

  lemma {:induction false} ParseQuotedItems(msgs: seq<string>)
    ensures ParseItems(Join(QuoteAll(msgs), ",")) == Some(msgs)
    decreases |msgs|
  {
    if |msgs| == 1 {
      assert QuoteAll(msgs) == [Quote(msgs[0])];
      assert msgs == [msgs[0]];
      ParseSingle(msgs[0]);
    } else if |msgs| > 1 {
      var q := Quote(msgs[0]);
      var rest := QuoteAll(msgs[1..]);
      var t := Join(rest, ",");
      JoinHead(rest, ",");
      assert QuoteAll(msgs) == [q] + rest;
      JoinCons(q, rest, ",");
      ParseCons(msgs[0], t);
      ParseQuotedItems(msgs[1..]);
      assert [msgs[0]] + msgs[1..] == msgs;
    }
  }

  lemma JoinCons(a: string, rest: seq<string>, sep: string)
    requires |rest| > 0
    ensures Join([a] + rest, sep) == a + (sep + Join(rest, sep))
  {
    assert ([a] + rest)[1..] == rest;
  }

  lemma JoinHead(parts: seq<string>, sep: string)
    requires |parts| > 0
    ensures |Join(parts, sep)| >= |parts[0]|
  {
  }

  /** A client parsing a data frame gets back exactly the messages sent, in order. */
  lemma DataFrameRoundTrip(msgs: seq<string>)
    ensures ParseDataFrame(DataFrame(msgs)) == Some(msgs)
  {
    var f := DataFrame(msgs);
    assert f[2..|f| - 1] == Join(QuoteAll(msgs), ",");
    ParseQuotedItems(msgs);
  }

  // ---------------------------------------------------------------- unsafe code points

  /** Code points that the jsonp and htmlfile transports never put on the wire as they are. */
  predicate Unsafe(c: char)
  {
    c < ' '
    || ('\U{200C}' <= c <= '\U{200F}')
    || ('\U{2028}' <= c <= '\U{202F}')
    || ('\U{2060}' <= c <= '\U{206F}')
    || ('\U{FFF0}' <= c <= '\U{FFFF}')
  }

  predicate SafeText(s: string)
  {
    forall i :: 0 <= i < |s| ==> !Unsafe(s[i])
  }

  /** The `re` rewrite: every unsafe code point becomes the six characters `\uXXXX`. */
  function EscapeUnsafe(s: string): (r: string)
    ensures SafeText(r)
    ensures SafeText(s) ==> r == s
  {
    if |s| == 0 then ""
    else
      var head := if Unsafe(s[0]) then "\\u" + Hex4(s[0] as int) else [s[0]];
      assert SafeText(head);
      assert SafeText(s) ==> SafeText(s[1..]);
      head + EscapeUnsafe(s[1..])
  }

  lemma EscapeCharSafe(c: char)
    requires !Unsafe(c)
    ensures SafeText(EscapeChar(c))
  {
    if UnicodeEscaped(c) && !(c == '"' || c == '\\' || c == '\n' || c == '\r' || c == '\t') {
      var h := Hex4(c as int);
      assert EscapeChar(c) == "\\u" + h;
      HexEscapeSafe(h);
    }
  }

  /** A `\uXXXX` escape is itself safe text. */
  lemma HexEscapeSafe(h: string)
    requires IsHex4(h)
    ensures SafeText("\\u" + h)
  {
    var e := "\\u" + h;
    forall i | 0 <= i < |e|
      ensures !Unsafe(e[i])
    {
      if i >= 2 {
        assert e[i] == h[i - 2];
      }
    }
  }

  /** JSON-escaping text that holds no unsafe code point adds none. */
  lemma {:induction false} EscapeKeepsSafe(s: string)
    requires SafeText(s)
    ensures SafeText(Escape(s))
  {
    if |s| > 0 {
      EscapeCharSafe(s[0]);
      EscapeKeepsSafe(s[1..]);
    }
  }

  /** `json.Marshal(x)` with its outer quotes cut off. */
  function MarshalInner(x: string): (r: string)
  {
    var q := Quote(x);
    q[1..|q| - 1]
  }

  lemma MarshalInnerIsEscape(x: string)
    ensures MarshalInner(x) == Escape(x)
  {
  }

  // ---------------------------------------------------------------- script frames

  /**
   * The frames of a jsonp or htmlfile data frame as the page reads them:
   * each one rewritten by `re`, then joined into `a[...]`.
   */
  function ScriptPayload(frames: seq<string>): string
  {
    "a[" + Join(SafeAll(frames), ",") + "]"
  }

  function SafeAll(frames: seq<string>): (r: seq<string>)
    ensures |r| == |frames|
  {
    if |frames| == 0 then [] else [EscapeUnsafe(frames[0])] + SafeAll(frames[1..])
  }

  /** What jsonp and htmlfile write for one frame: `re` applied, then json.Marshal with its quotes cut off. */
  function ScriptItems(frames: seq<string>): (r: seq<string>)
    ensures |r| == |frames|
  {
    if |frames| == 0 then [] else [MarshalInner(EscapeUnsafe(frames[0]))] + ScriptItems(frames[1..])
  }

  /** Item i of both lists comes from frame i. */
  lemma {:induction false} ScriptItemsAt(frames: seq<string>, i: nat)
    requires i < |frames|
    ensures SafeAll(frames)[i] == EscapeUnsafe(frames[i])
    ensures ScriptItems(frames)[i] == MarshalInner(EscapeUnsafe(frames[i]))
    decreases i
  {
    if i > 0 {
      ScriptItemsAt(frames[1..], i - 1);
    }
  }

  /** The text written between the quotes of the script call. */
  function ScriptBody(frames: seq<string>): string
  {
    "a[" + Join(ScriptItems(frames), ",") + "]"
  }

  /** Escaping item by item and joining with commas is escaping the joined text. */
  lemma {:induction false} EscapeJoin(xs: seq<string>, ys: seq<string>)
    requires |ys| == |xs| && forall i :: 0 <= i < |xs| ==> ys[i] == Escape(xs[i])
    ensures Join(ys, ",") == Escape(Join(xs, ","))
  {
    if |xs| > 1 {
      var xt, yt := xs[1..], ys[1..];
      assert forall i :: 0 <= i < |xt| ==> yt[i] == ys[i + 1] && xt[i] == xs[i + 1];
      EscapeJoin(xt, yt);
      var j := Join(xt, ",");
      assert Join(xs, ",") == xs[0] + "," + j;
      assert Join(ys, ",") == ys[0] + "," + Escape(j);
      assert Escape(",") == ",";
      EscapeConcat(xs[0], ",");
      EscapeConcat(xs[0] + ",", j);
    }
  }

  lemma SafeConcat(a: string, b: string)
    requires SafeText(a) && SafeText(b)
    ensures SafeText(a + b)
  {
    forall i | 0 <= i < |a + b|
      ensures !Unsafe((a + b)[i])
    {
      if i < |a| {
        assert (a + b)[i] == a[i];
      } else {
        assert (a + b)[i] == b[i - |a|];
      }
    }
  }

  lemma {:induction false} SafeJoin(parts: seq<string>)
    requires forall i :: 0 <= i < |parts| ==> SafeText(parts[i])
    ensures SafeText(Join(parts, ","))
  {
    if |parts| > 1 {
      SafeJoin(parts[1..]);
      SafeConcat(parts[0], ",");
      SafeConcat(parts[0] + ",", Join(parts[1..], ","));
    }
  }

  /**
   * The script body is a JavaScript string literal's content that reads back
   * as exactly the payload, stays on one line and carries no unsafe code
   * point, whatever the frames hold.
   */
  lemma ScriptBodyDecodes(frames: seq<string>)
    ensures ScriptBody(frames) == Escape(ScriptPayload(frames))
    ensures Unescape(ScriptBody(frames)) == Some(ScriptPayload(frames))
    ensures NoLineBreak(ScriptBody(frames)) && SafeText(ScriptBody(frames))
  {
    var p := ScriptPayload(frames);
    ScriptBodyIsEscape(frames);
    PayloadSafe(frames);
    EscapeRoundTrip(p);
    EscapeNoLineBreak(p);
    EscapeKeepsSafe(p);
  }

  lemma ScriptBodyIsEscape(frames: seq<string>)
    ensures ScriptBody(frames) == Escape(ScriptPayload(frames))
  {
    var xs := SafeAll(frames);
    var ys := ScriptItems(frames);
    forall i | 0 <= i < |xs|
      ensures ys[i] == Escape(xs[i])
    {
      ScriptItemsAt(frames, i);
      MarshalInnerIsEscape(EscapeUnsafe(frames[i]));
    }
    EscapeJoin(xs, ys);
    var j := Join(xs, ",");
    EscapeConcat("a[", j);
    EscapeConcat("a[" + j, "]");
    assert Escape("a[") == "a[";
    assert Escape("]") == "]";
  }

  lemma PayloadSafe(frames: seq<string>)
    ensures SafeText(ScriptPayload(frames))
  {
    var xs := SafeAll(frames);
    var j := Join(xs, ",");
    forall i | 0 <= i < |xs|
      ensures SafeText(xs[i])
    {
      ScriptItemsAt(frames, i);
    }
    SafeJoin(xs);
    SafeConcat("a[", j);
    SafeConcat("a[" + j, "]");
  }

  /** No `<`: the text cannot open a tag, nor end the script element it sits in. */
  predicate NoTagOpen(s: string)
  {
    forall i :: 0 <= i < |s| ==> s[i] != '<'
  }

  lemma {:induction false} EscapeNoTagOpen(s: string)
    ensures NoTagOpen(Escape(s))
  {
    if |s| > 0 {
      EscapeNoTagOpen(s[1..]);
      var e := EscapeChar(s[0]);
      EscapeCharText(s[0]);
      var t := Escape(s[1..]);
      assert Escape(s) == e + t;
      forall i | 0 <= i < |e + t|
        ensures (e + t)[i] != '<'
      {
        if i < |e| {
          assert (e + t)[i] == e[i];
        } else {
          assert (e + t)[i] == t[i - |e|];
        }
      }
    }
  }

  /** The outcome of json.NewDecoder(body).Decode(&messages) into []string. */
  datatype Decoded =
    | EndOfInput                    // io.EOF: nothing to decode
    | SyntaxError                   // *json.SyntaxError
    | UnexpectedEnd                 // io.ErrUnexpectedEOF
    | OtherError(partial: seq<string>)   // any other error; what was decoded so far
    | Messages(msgs: seq<string>)
}
