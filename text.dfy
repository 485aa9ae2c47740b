// Byte strings, 32-bit counters and decimal rendering shared by every module.
// A Go string is a byte string; the model writes it as seq<char> and counts one
// char as one byte, which is exact for the ASCII frames the server produces.

module Text {

  /** Go's uint32. */
  type u32 = x: nat | x < 0x1_0000_0000

  /** `a += uint32(n)` on a uint32 counter: the sum wraps around at 2^32. */
  function AddU32(a: u32, n: nat): (r: u32)
    ensures a + n < 0x1_0000_0000 ==> r == a + n
    ensures a + n >= 0x1_0000_0000 ==> r < a + n
  {
    (a + n) % 0x1_0000_0000
  }

  /** The bytes a sequence of writes put on a connection. */
  function Bytes(writes: seq<string>): nat
  {
    if |writes| == 0 then 0 else Bytes(writes[..|writes| - 1]) + |writes[|writes| - 1]|
  }

  /**
   * A uint32 counter that holds a byte total modulo 2^32 still does after
   * `+= uint32(n)` for the next n bytes.
   */
  lemma {:induction false} AddU32Counts(a: u32, total: nat, n: nat)
    requires a == total % 0x1_0000_0000
    ensures AddU32(a, n) == (total + n) % 0x1_0000_0000
    decreases total
  {
    if total >= 0x1_0000_0000 {
      AddU32Counts(a, total - 0x1_0000_0000, n);
    }
  }

  /** No CR or LF: the text stays on one line. */
  predicate NoLineBreak(s: string)
  {
    forall i :: 0 <= i < |s| ==> s[i] != '\n' && s[i] != '\r'
  }

  lemma NoLineBreakConcat(a: string, b: string)
    requires NoLineBreak(a) && NoLineBreak(b)
    ensures NoLineBreak(a + b)
  {
    forall i | 0 <= i < |a + b|
      ensures (a + b)[i] != '\n' && (a + b)[i] != '\r'
    {
      if i < |a| {
        assert (a + b)[i] == a[i];
      } else {
        assert (a + b)[i] == b[i - |a|];
      }
    }
  }

  lemma {:induction false} JoinNoLineBreak(parts: seq<string>, sep: string)
    requires NoLineBreak(sep) && forall i :: 0 <= i < |parts| ==> NoLineBreak(parts[i])
    ensures NoLineBreak(Join(parts, sep))
  {
    if |parts| > 1 {
      JoinNoLineBreak(parts[1..], sep);
      NoLineBreakConcat(parts[0], sep);
      NoLineBreakConcat(parts[0] + sep, Join(parts[1..], sep));
    }
  }

  /** strings.Join */
  function Join(parts: seq<string>, sep: string): string
  {
    if |parts| == 0 then ""
    else if |parts| == 1 then parts[0]
    else parts[0] + sep + Join(parts[1..], sep)
  }

  lemma {:induction false} JoinAppend(parts: seq<string>, last: string, sep: string)
    requires |parts| > 0
    ensures Join(parts + [last], sep) == Join(parts, sep) + sep + last
  {
    if |parts| == 1 {
      assert parts + [last] == [parts[0], last];
    } else {
      assert (parts + [last])[1..] == parts[1..] + [last];
      JoinAppend(parts[1..], last, sep);
    }
  }

  /**
   * A buffer grown part by part, with the separator written before every
   * part but the first, ends as the head followed by the joined parts.
   */
  method AppendJoined(head: string, parts: seq<string>, sep: string) returns (b: string)
    ensures b == head + Join(parts, sep)
  {
    b := head;
    var i := 0;
    while i < |parts|
      invariant 0 <= i <= |parts|
      invariant b == head + Join(parts[..i], sep)
    {
      JoinStep(head, parts, sep, i);
      if i > 0 {
        b := b + sep;
      }
      b := b + parts[i];
      i := i + 1;
    }
    assert parts[..i] == parts;
  }

  /** One more part on the buffer, after the separator unless it is the first. */
  lemma JoinStep(head: string, parts: seq<string>, sep: string, i: nat)
    requires i < |parts|
    ensures head + Join(parts[..i + 1], sep) == head + Join(parts[..i], sep) + (if i > 0 then sep else "") + parts[i]
  {
    assert parts[..i + 1] == parts[..i] + [parts[i]];
    if i > 0 {
      JoinAppend(parts[..i], parts[i], sep);
    } else {
      assert parts[..i + 1] == [parts[i]];
    }
  }

  /** strings.Repeat of one character. */
  function Repeat(c: char, n: nat): (r: string)
    ensures |r| == n && forall i :: 0 <= i < n ==> r[i] == c
  {
    if n == 0 then "" else [c] + Repeat(c, n - 1)
  }

  predicate StartsWith(s: string, p: string)
  {
    |p| <= |s| && s[..|p|] == p
  }

  /** ASCII lower-casing, as strings.ToLower does on ASCII text. */
  function LowerChar(c: char): char
  {
    if 'A' <= c <= 'Z' then (c as int + 32) as char else c
  }

  function ToLower(s: string): (r: string)
    ensures |r| == |s| && forall i :: 0 <= i < |s| ==> r[i] == LowerChar(s[i])
  {
    if |s| == 0 then "" else [LowerChar(s[0])] + ToLower(s[1..])
  }

  function DigitChar(d: nat): char
    requires d < 10
  {
    ("0123456789")[d]
  }

  predicate IsDigit(c: char)
  {
    '0' <= c <= '9'
  }

  /** fmt's %d of a non-negative number: no leading zeroes. */
  function NatString(n: nat): (r: string)
    ensures |r| > 0 && forall i :: 0 <= i < |r| ==> IsDigit(r[i])
    ensures |r| > 1 ==> r[0] != '0'
  {
    if n < 10 then [DigitChar(n)] else NatString(n / 10) + [DigitChar(n % 10)]
  }

  /** fmt's %d of any int. */
  function IntString(i: int): string
  {
    if i < 0 then "-" + NatString(-i) else NatString(i)
  }

  /** The value of a run of decimal digits: the reading back of NatString. */
  function DecimalValue(s: string): nat
    requires forall i :: 0 <= i < |s| ==> IsDigit(s[i])
  {
    if |s| == 0 then 0 else 10 * DecimalValue(s[..|s| - 1]) + DigitValue(s[|s| - 1])
  }

  function DigitValue(c: char): (d: nat)
    requires IsDigit(c)
    ensures d < 10 && DigitChar(d) == c
  {
    c as int - '0' as int
  }

  lemma {:induction false} NatStringRoundTrip(n: nat)
    ensures DecimalValue(NatString(n)) == n
  {
    if n >= 10 {
      var s := NatString(n);
      var p := NatString(n / 10);
      assert s[..|s| - 1] == p;
      NatStringRoundTrip(n / 10);
    }
  }

  /** Two numbers render alike only if they are equal. */
  lemma NatStringInjective(m: nat, n: nat)
    requires NatString(m) == NatString(n)
    ensures m == n
  {
    NatStringRoundTrip(m);
    NatStringRoundTrip(n);
  }

  // ---------------------------------------------------------------- path segments

  /** A character `[^/.]` accepts. */
  predicate SegmentChar(c: char)
  {
    c != '/' && c != '.'
  }

  predicate Segment(s: string)
  {
    |s| > 0 && forall i :: 0 <= i < |s| ==> SegmentChar(s[i])
  }

  /** The length of the longest run of segment characters starting at k. */
  function SegmentRun(s: string, k: nat): (n: nat)
    requires k <= |s|
    ensures k + n <= |s|
    ensures forall i :: k <= i < k + n ==> SegmentChar(s[i])
    ensures k + n < |s| ==> !SegmentChar(s[k + n])
    decreases |s| - k
  {
    if k < |s| && SegmentChar(s[k]) then 1 + SegmentRun(s, k + 1) else 0
  }

  lemma RunOfSegment(s: string, k: nat, seg: string)
    requires k + |seg| <= |s| && s[k..k + |seg|] == seg && Segment(seg)
    requires k + |seg| == |s| || !SegmentChar(s[k + |seg|])
    ensures SegmentRun(s, k) == |seg|
    decreases |seg|
  {
    if |seg| > 1 {
      assert s[k + 1..k + |seg|] == seg[1..];
      RunOfSegment(s, k + 1, seg[1..]);
    } else {
      assert s[k] == seg[0];
    }
  }
}
