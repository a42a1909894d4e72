/** Rust string operations used by the three commands: `char::is_whitespace`,
    `str::trim`, `str::starts_with`, `str::lines`, `char::to_ascii_lowercase`
    and `str::replace` of one character, and the UTF-8 encoding behind
    `str::as_bytes`.  A Rust `String` is modelled as a sequence of Unicode
    scalar values. */
module Text {

  /** `char::is_whitespace`: the characters with the Unicode White_Space property. */
  predicate IsWhitespace(c: char) {
    ('\t' <= c <= '\r') || c == ' ' || c == '\U{85}' || c == '\U{A0}' || c == '\U{1680}'
    || ('\U{2000}' <= c <= '\U{200A}') || c == '\U{2028}' || c == '\U{2029}'
    || c == '\U{202F}' || c == '\U{205F}' || c == '\U{3000}'
  }

  predicate AllWhitespace(s: string) {
    forall k :: 0 <= k < |s| ==> IsWhitespace(s[k])
  }

  /** Number of whitespace characters at the start of `s`. */
  function LeadingWhitespace(s: string): (n: nat)
    ensures n <= |s|
    ensures forall k :: 0 <= k < n ==> IsWhitespace(s[k])
    ensures n < |s| ==> !IsWhitespace(s[n])
  {
    if s != [] && IsWhitespace(s[0]) then
      var n := LeadingWhitespace(s[1..]);
      assert forall k :: 1 <= k < n + 1 ==> s[k] == s[1..][k - 1];
      n + 1
    else 0
  }

  /** Where the trailing whitespace of `s` begins. */
  function TrailingWhitespaceStart(s: string): (m: nat)
    ensures m <= |s|
    ensures forall k :: m <= k < |s| ==> IsWhitespace(s[k])
    ensures m > 0 ==> !IsWhitespace(s[m - 1])
  {
    if s != [] && IsWhitespace(s[|s| - 1]) then
      var m := TrailingWhitespaceStart(s[..|s| - 1]);
      assert forall k :: m <= k < |s| - 1 ==> s[k] == s[..|s| - 1][k];
      m
    else |s|
  }

  /** `str::trim`: the slice of `s` between its leading and its trailing
      whitespace; empty when `s` is all whitespace. */
  function Trim(s: string): (r: string)
    ensures var i := LeadingWhitespace(s);
      i + |r| <= |s| && r == s[i..i + |r|]
      && (forall k :: 0 <= k < i ==> IsWhitespace(s[k]))
      && (forall k :: i + |r| <= k < |s| ==> IsWhitespace(s[k]))
    ensures r != [] ==> !IsWhitespace(r[0]) && !IsWhitespace(r[|r| - 1])
    ensures r == [] <==> AllWhitespace(s)
  {
    var i := LeadingWhitespace(s);
    var t := s[i..];
    var j := TrailingWhitespaceStart(t);
    TrimSlice(s, i, t, j);
    t[..j]
  }

  lemma TrimSlice(s: string, i: nat, t: string, j: nat)
    requires i == LeadingWhitespace(s) && t == s[i..] && j == TrailingWhitespaceStart(t)
    ensures var r := t[..j];
      i + |r| <= |s| && r == s[i..i + |r|]
      && (forall k :: 0 <= k < i ==> IsWhitespace(s[k]))
      && (forall k :: i + |r| <= k < |s| ==> IsWhitespace(s[k]))
    ensures var r := t[..j];
      r != [] ==> !IsWhitespace(r[0]) && !IsWhitespace(r[|r| - 1])
    ensures var r := t[..j];
      r == [] <==> AllWhitespace(s)
  {
    TrailingOfSlice(s, i, t, j);
    if j > 0 {
      assert t[0] == s[i];
      NotAllWhitespace(s, i);
    } else {
      assert AllWhitespace(s);
    }
  }

  lemma TrailingOfSlice(s: string, i: nat, t: string, j: nat)
    requires i <= |s| && t == s[i..] && j <= |t|
    requires forall k :: j <= k < |t| ==> IsWhitespace(t[k])
    ensures forall k :: i + j <= k < |s| ==> IsWhitespace(s[k])
  {
    forall k | i + j <= k < |s|
      ensures IsWhitespace(s[k])
    {
      assert s[k] == t[k - i];
    }
  }

  lemma NotAllWhitespace(s: string, i: nat)
    requires i < |s| && !IsWhitespace(s[i])
    ensures !AllWhitespace(s)
  {
  }

  /** `str::starts_with` (and the test made by `str::strip_prefix`). */
  predicate StartsWith(s: string, prefix: string) {
    |prefix| <= |s| && s[..|prefix|] == prefix
  }

  /** `char::to_ascii_lowercase`: only 'A'..'Z' change. */
  function AsciiLower(c: char): (r: char)
    ensures 'A' <= c <= 'Z' ==> 'a' <= r <= 'z' && r as int - c as int == 32
    ensures !('A' <= c <= 'Z') ==> r == c
  {
    if 'A' <= c <= 'Z' then (c as int + 32) as char else c
  }

  /** `str::replace(c, d)` for one-character patterns. */
  function ReplaceChar(s: string, c: char, d: char): (r: string)
    ensures |r| == |s|
    ensures forall k :: 0 <= k < |s| ==> r[k] == if s[k] == c then d else s[k]
  {
    if s == [] then [] else [if s[0] == c then d else s[0]] + ReplaceChar(s[1..], c, d)
  }

  /** A character that is not replaced stays in front. */
  lemma ReplaceCharCons(x: char, s: string, c: char, d: char)
    requires x != c
    ensures ReplaceChar([x] + s, c, d) == [x] + ReplaceChar(s, c, d)
  {
    assert ([x] + s)[1..] == s;
  }

  // ---------------------------------------------------------------------------
  // UTF-8, for `str::as_bytes` and byte offsets

  newtype byte = x: int | 0 <= x < 0x100

  /** Number of bytes of the UTF-8 encoding of a character. */
  function Utf8Width(c: char): nat {
    if c < '\U{80}' then 1 else if c < '\U{800}' then 2 else if c < '\U{10000}' then 3 else 4
  }

  predicate IsContinuation(b: byte) {
    0x80 <= b < 0xC0
  }

  /** The UTF-8 encoding of one character: ASCII is one byte of the same
      value; longer encodings are a lead byte of 0xC0 or more followed by
      continuation bytes. */
  function EncodeChar(c: char): (r: seq<byte>)
    ensures |r| == Utf8Width(c)
    ensures |r| == 1 ==> r[0] as int == c as int
    ensures |r| > 1 ==> r[0] >= 0xC0 && forall k :: 1 <= k < |r| ==> IsContinuation(r[k])
  {
    var v := c as int;
    if v < 0x80 then [v as byte]
    else if v < 0x800 then [(0xC0 + v / 0x40) as byte, (0x80 + v % 0x40) as byte]
    else if v < 0x1_0000 then
      [(0xE0 + v / 0x1000) as byte, (0x80 + v / 0x40 % 0x40) as byte, (0x80 + v % 0x40) as byte]
    else
      [(0xF0 + v / 0x4_0000) as byte, (0x80 + v / 0x1000 % 0x40) as byte,
       (0x80 + v / 0x40 % 0x40) as byte, (0x80 + v % 0x40) as byte]
  }

  /** The scalar value a well-formed UTF-8 sequence of one character denotes. */
  function DecodeChar(r: seq<byte>): int
    requires 1 <= |r| <= 4
  {
    if |r| == 1 then r[0] as int
    else if |r| == 2 then (r[0] as int - 0xC0) * 0x40 + (r[1] as int - 0x80)
    else if |r| == 3 then (r[0] as int - 0xE0) * 0x1000 + (r[1] as int - 0x80) * 0x40 + (r[2] as int - 0x80)
    else (r[0] as int - 0xF0) * 0x4_0000 + (r[1] as int - 0x80) * 0x1000 + (r[2] as int - 0x80) * 0x40 + (r[3] as int - 0x80)
  }

  /** Encoding a character loses nothing. */
  lemma EncodeDecodeChar(c: char)
    ensures DecodeChar(EncodeChar(c)) == c as int
  {
    var v := c as int;
    if v >= 0x80 {
      var q := v / 0x40;
      assert v == q * 0x40 + v % 0x40;
      if v >= 0x800 {
        var q2 := q / 0x40;
        assert q == q2 * 0x40 + q % 0x40;
        assert v / 0x1000 == q2 by { SplitQuotient(v, q, q2); }
        if v >= 0x1_0000 {
          var q3 := q2 / 0x40;
          assert q2 == q3 * 0x40 + q2 % 0x40;
          assert v / 0x4_0000 == q3 by { SplitQuotient(q, q2, q3); assert v / 0x4_0000 == q / 0x1000; }
        }
      }
    }
  }

  /** Dividing by 64 twice divides by 4096. */
  lemma SplitQuotient(v: int, q: int, q2: int)
    requires v >= 0 && q == v / 0x40 && q2 == q / 0x40
    ensures v / 0x1000 == q2
  {
  }

  /** `str::as_bytes`: the characters' encodings one after the other. */
  function Utf8Encode(s: string): (r: seq<byte>)
    ensures |r| >= |s|
    ensures (forall k :: 0 <= k < |s| ==> s[k] < '\U{80}') ==> |r| == |s| && forall k :: 0 <= k < |s| ==> r[k] as int == s[k] as int
  {
    if s == [] then []
    else
      var rest := Utf8Encode(s[1..]);
      assert forall k :: 1 <= k < |s| ==> s[k] == s[1..][k - 1];
      EncodeChar(s[0]) + rest
  }

  // ---------------------------------------------------------------------------
  // Lines

  /** Index of the first '\n' in `s`, or `|s|` when there is none. */
  function NewlineIndex(s: string): (i: nat)
    ensures i <= |s| && (i < |s| ==> s[i] == '\n')
    ensures forall k :: 0 <= k < i ==> s[k] != '\n'
  {
    if s == [] || s[0] == '\n' then 0 else 1 + NewlineIndex(s[1..])
  }

  /** The '\r' of a "\r\n" line ending. */
  function StripCr(l: string): string {
    if l != [] && l[|l| - 1] == '\r' then l[..|l| - 1] else l
  }

  /** `str::lines`: the text is cut after every '\n'; each piece loses its "\n" or
      "\r\n" ending; a final line ending does not start an empty last line, and a
      lone '\r' is kept. */
  function Lines(s: string): (ls: seq<string>)
    ensures s == [] <==> ls == []
    ensures forall j :: 0 <= j < |ls| ==> '\n' !in ls[j]
    decreases |s|
  {
    if s == [] then []
    else
      var i := NewlineIndex(s);
      if i == |s| then
        assert forall k :: 0 <= k < |s| ==> s[k] != '\n';
        [s]
      else
        var head := StripCr(s[..i]);
        assert forall k :: 0 <= k < |head| ==> head[k] == s[k];
        [head] + Lines(s[i + 1..])
  }

  /** Every line followed by "\n", the inverse of `Lines` on text without '\r'. */
  function Terminated(ls: seq<string>): string {
    if ls == [] then [] else ls[0] + "\n" + Terminated(ls[1..])
  }

  /** On text without '\r', the first line is everything before the first '\n'. */
  lemma LinesUnfold(s: string, i: nat)
    requires '\r' !in s && i == NewlineIndex(s) < |s|
    ensures Lines(s) == [s[..i]] + Lines(s[i + 1..])
    ensures '\r' !in s[i + 1..]
  {
    NoCrAroundNewline(s, i);
  }

  lemma NoCrAroundNewline(s: string, i: nat)
    requires '\r' !in s && i < |s|
    ensures StripCr(s[..i]) == s[..i] && '\r' !in s[i + 1..]
  {
    NoCrInSlice(s, 0, i);
    assert s[0..i] == s[..i];
    StripCrNoCr(s[..i]);
    NoCrInSlice(s, i + 1, |s|);
    assert s[i + 1..|s|] == s[i + 1..];
  }

  lemma StripCrNoCr(l: string)
    requires '\r' !in l
    ensures StripCr(l) == l
  {
    if l != [] {
      assert l[|l| - 1] in l;
    }
  }

  lemma NoCrInSlice(s: string, a: nat, b: nat)
    requires '\r' !in s && a <= b <= |s|
    ensures '\r' !in s[a..b]
  {
    var t := s[a..b];
    forall k | 0 <= k < |t| ensures t[k] != '\r' {
      assert t[k] == s[a + k];
      assert s[a + k] in s;
    }
  }

  /** The text `Terminated` gives back: `s` itself when it is empty or ends in
      '\n', otherwise `s` with a '\n' added. */
  function WithFinalNewline(s: string): string {
    if s == [] || s[|s| - 1] == '\n' then s else s + "\n"
  }

  /** On text without '\r', joining the lines back gives the text, with a final
      '\n' added when it had none. */
  lemma {:induction false} LinesRoundTrip(s: string)
    requires '\r' !in s
    ensures Terminated(Lines(s)) == WithFinalNewline(s)
    decreases |s|
  {
    if s != [] {
      var i := NewlineIndex(s);
      if i == |s| {
        assert Lines(s) == [s];
        assert Terminated([s]) == s + "\n" + Terminated([]);
      } else {
        var t := s[i + 1..];
        LinesUnfold(s, i);
        LinesRoundTrip(t);
        assert Terminated(Lines(s)) == s[..i] + "\n" + Terminated(Lines(t)) by {
          assert Lines(s)[0] == s[..i] && Lines(s)[1..] == Lines(t);
        }
        WithFinalNewlineSplit(s, i);
      }
    }
  }

  lemma WithFinalNewlineSplit(s: string, i: nat)
    requires i < |s| && s[i] == '\n'
    ensures WithFinalNewline(s) == s[..i] + "\n" + WithFinalNewline(s[i + 1..])
  {
    var t := s[i + 1..];
    assert s == s[..i] + "\n" + t;
    if t != [] {
      assert s[|s| - 1] == t[|t| - 1];
    }
  }
}
