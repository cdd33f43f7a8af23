/** Reading a value back from what the keychain tool prints
    (internal/adapters/keychain/parse.go). */
module KeychainParsing {
  import opened Text
  import opened Catalogues
  import opened Redaction

  /** "password: " */
  const PREFIX: Bytes := [112, 97, 115, 115, 119, 111, 114, 100, 58, 32]
  const QUOTE: Byte := 34
  const BACKSLASH: Byte := 92
  const SPACE: Byte := 32
  const ZERO_X: Bytes := [48, 120]

  datatype Parsed = Password(value: Bytes) | BadHex | Unterminated | NoPasswordLine

  predicate StartsWith(s: Bytes, prefix: Bytes) {
    |prefix| <= |s| && s[..|prefix|] == prefix
  }

  // ---- Hexadecimal --------------------------------------------------------

  function DigitValue(c: Byte): Option<int> {
    if 48 <= c <= 57 then Some(c as int - 48)
    else if 97 <= c <= 102 then Some(c as int - 87)
    else if 65 <= c <= 70 then Some(c as int - 55)
    else None
  }

  /** `hex.DecodeString`: pairs of digits of either case, nothing else. */
  function DecodeHex(h: Bytes): Option<Bytes> {
    if h == [] then Some([])
    else if |h| == 1 then None
    else
      match (DigitValue(h[0]), DigitValue(h[1]), DecodeHex(h[2..]))
      case (Some(a), Some(b), Some(rest)) => PairOf(a, b, rest)
      case _ => None
  }

  function PairOf(a: int, b: int, rest: Bytes): Option<Bytes> {
    if 0 <= a < 16 && 0 <= b < 16 then Some([(a * 16 + b) as Byte] + rest) else None
  }

  function Digit(n: int, upper: bool): Byte
    requires 0 <= n < 16
  {
    if n < 10 then (48 + n) as Byte else if upper then (55 + n) as Byte else (87 + n) as Byte
  }

  function EncodeHex(v: Bytes, upper: bool): Bytes {
    if v == [] then []
    else [Digit(v[0] as int / 16, upper), Digit(v[0] as int % 16, upper)] + EncodeHex(v[1..], upper)
  }

  lemma DigitRoundTrip(n: int, upper: bool)
    requires 0 <= n < 16
    ensures DigitValue(Digit(n, upper)) == Some(n)
    ensures Digit(n, upper) != SPACE && Digit(n, upper) != NL
  {
  }

  lemma {:induction false} HexRoundTrip(v: Bytes, upper: bool)
    ensures DecodeHex(EncodeHex(v, upper)) == Some(v)
    ensures SPACE !in EncodeHex(v, upper) && NL !in EncodeHex(v, upper)
  {
    hide Digit, DigitValue;
    if v != [] {
      HexRoundTrip(v[1..], upper);
      var a, b := v[0] as int / 16, v[0] as int % 16;
      DigitRoundTrip(a, upper);
      DigitRoundTrip(b, upper);
      var h := EncodeHex(v, upper);
      assert h[2..] == EncodeHex(v[1..], upper);
      assert v == [v[0]] + v[1..];
    }
  }

  // ---- One line -----------------------------------------------------------

  /** What comes before the first `c`, or everything. */
  function Before(s: Bytes, c: Byte): Bytes {
    if s == [] || s[0] == c then [] else [s[0]] + Before(s[1..], c)
  }

  /** The position of the last `c`, or -1. */
  function LastIndex(s: Bytes, c: Byte): (i: int)
    ensures -1 <= i < |s|
    ensures i >= 0 ==> s[i] == c
    ensures forall k :: i < k < |s| ==> s[k] != c
  {
    if s == [] then -1
    else if s[|s| - 1] == c then |s| - 1
    else LastIndex(s[..|s| - 1], c)
  }

  /** Reads what follows the prefix. */
  function ParseRest(rest: Bytes): Parsed {
    if StartsWith(rest, ZERO_X) then
      match DecodeHex(Before(rest[2..], SPACE))
      case Some(v) => Password(v)
      case None => BadHex
    else if rest != [] && rest[0] == QUOTE then
      var end := LastIndex(rest, QUOTE);
      if end <= 0 then Unterminated else Password(rest[1..end])
    else Password([])
  }

  /** The first line with the prefix decides. */
  function ParseLines(lines: seq<Bytes>): Parsed {
    if lines == [] then NoPasswordLine
    else if StartsWith(lines[0], PREFIX) then ParseRest(lines[0][|PREFIX|..])
    else ParseLines(lines[1..])
  }

  method ParsePassword(stderr: Bytes) returns (r: Parsed)
    ensures r == ParseLines(Split(stderr))
  {
    var lines := Split(stderr);
    for i := 0 to |lines|
      invariant ParseLines(lines) == ParseLines(lines[i..])
    {
      assert lines[i..][1..] == lines[i + 1..];
      var line := lines[i];
      if !StartsWith(line, PREFIX) { continue; }
      var rest := line[|PREFIX|..];
      if StartsWith(rest, ZERO_X) {
        var h := rest[2..];
        var end := 0;
        while end < |h| && h[end] != SPACE
          invariant 0 <= end <= |h|
          invariant Before(h, SPACE) == h[..end] + Before(h[end..], SPACE)
        {
          assert h[end..][1..] == h[end + 1..];
          end := end + 1;
        }
        var decoded := DecodeHex(h[..end]);
        assert h[..end] == Before(h, SPACE);
        return if decoded.Some? then Password(decoded.value) else BadHex;
      }
      if |rest| > 0 && rest[0] == QUOTE {
        var end := LastIndex(rest, QUOTE);
        return if end == 0 then Unterminated else Password(rest[1..end]);
      }
      return Password([]);
    }
    r := NoPasswordLine;
  }

  // ---- The round trip -----------------------------------------------------

  /** Printable ASCII without a backslash: printed as it is, quotes included. */
  predicate Plain(v: Bytes) {
    v != [] && forall c :: c in v ==> 32 <= c <= 126 && c != BACKSLASH
  }

  /** How the tool prints a value: quoted, in hexadecimal with something after a
      space, or empty. */
  function RenderedLine(v: Bytes, upper: bool, after: Bytes): Bytes {
    PREFIX +
      if v == [] then []
      else if Plain(v) then [QUOTE] + v + [QUOTE]
      else ZERO_X + EncodeHex(v, upper) + [SPACE] + after
  }

  lemma {:induction false} BeforeStops(s: Bytes, c: Byte, after: Bytes)
    requires c !in s
    ensures Before(s + [c] + after, c) == s
  {
    if s != [] {
      BeforeStops(s[1..], c, after);
      assert (s + [c] + after)[1..] == s[1..] + [c] + after;
    } else {
      assert s + [c] + after == [c] + after;
    }
  }

  lemma HexIsRead(v: Bytes, upper: bool, after: Bytes)
    ensures ParseRest(ZERO_X + EncodeHex(v, upper) + [SPACE] + after) == Password(v)
  {
    hide DecodeHex, EncodeHex, Before;
    var rest := ZERO_X + EncodeHex(v, upper) + [SPACE] + after;
    HexRoundTrip(v, upper);
    BeforeStops(EncodeHex(v, upper), SPACE, after);
    assert rest[..2] == ZERO_X;
    assert rest[2..] == EncodeHex(v, upper) + [SPACE] + after;
  }

  /** The value ends at the last quote, so quotes inside it do no harm. */
  lemma QuotedIsRead(v: Bytes)
    requires Plain(v)
    ensures ParseRest([QUOTE] + v + [QUOTE]) == Password(v)
  {
    var rest := [QUOTE] + v + [QUOTE];
    var end := LastIndex(rest, QUOTE);
    assert rest[|rest| - 1] == QUOTE;
    assert end == |v| + 1;
    assert rest[1..end] == v;
    assert !StartsWith(rest, ZERO_X) by { assert rest[0] == QUOTE; }
  }

  lemma RenderedIsRead(v: Bytes, upper: bool, after: Bytes)
    ensures var line := RenderedLine(v, upper, after);
      StartsWith(line, PREFIX) && ParseRest(line[|PREFIX|..]) == Password(v)
    ensures OneLine(after) ==> OneLine(RenderedLine(v, upper, after))
  {
    hide ParseRest, EncodeHex;
    var line := RenderedLine(v, upper, after);
    var rest := line[|PREFIX|..];
    assert line == PREFIX + rest;
    if v == [] {
      EmptyIsRead();
    } else if Plain(v) {
      assert rest == [QUOTE] + v + [QUOTE];
      QuotedIsRead(v);
    } else {
      assert rest == ZERO_X + EncodeHex(v, upper) + [SPACE] + after;
      HexIsRead(v, upper, after);
      HexRoundTrip(v, upper);
    }
  }

  lemma EmptyIsRead()
    ensures ParseRest([]) == Password([])
  {
  }

  lemma {:induction false} FirstMatchDecides(before: seq<Bytes>, line: Bytes, after: seq<Bytes>)
    requires forall l :: l in before ==> !StartsWith(l, PREFIX)
    requires StartsWith(line, PREFIX)
    ensures ParseLines(before + [line] + after) == ParseRest(line[|PREFIX|..])
  {
    hide ParseRest, StartsWith;
    if before != [] {
      FirstMatchDecides(before[1..], line, after);
      assert (before + [line] + after)[1..] == before[1..] + [line] + after;
      assert before[0] in before;
    }
  }

  /** Whatever the value, what the tool prints for it reads back as the same
      bytes, between any other lines of output. */
  lemma PasswordRoundTrip(v: Bytes, upper: bool, suffix: Bytes, before: seq<Bytes>, after: seq<Bytes>)
    requires OneLine(suffix)
    requires forall l :: l in before ==> OneLine(l) && !StartsWith(l, PREFIX)
    requires forall l :: l in after ==> OneLine(l)
    ensures ParseLines(Split(Join(before + [RenderedLine(v, upper, suffix)] + after))) == Password(v)
  {
    hide ParseLines, ParseRest, RenderedLine, Split, Join;
    var line := RenderedLine(v, upper, suffix);
    RenderedIsRead(v, upper, suffix);
    SplitOfJoin(before + [line] + after);
    FirstMatchDecides(before, line, after);
  }

  // ---- What is refused ----------------------------------------------------

  ghost predicate HexDigit(c: Byte) {
    48 <= c <= 57 || 97 <= c <= 102 || 65 <= c <= 70
  }

  lemma {:induction false} HexIffDigits(h: Bytes)
    ensures DecodeHex(h).Some? <==> |h| % 2 == 0 && forall i :: 0 <= i < |h| ==> HexDigit(h[i])
    decreases |h|
  {
    if |h| > 1 {
      HexIffDigits(h[2..]);
      assert forall i :: 2 <= i < |h| ==> h[i] == h[2..][i - 2];
      assert h[2..] == h[2..][..];
    }
  }

  /** What comes before the first `c`. */
  lemma {:induction false} BeforeMeans(s: Bytes, c: Byte)
    ensures Before(s, c) <= s && c !in Before(s, c)
    ensures |Before(s, c)| < |s| ==> s[|Before(s, c)|] == c
  {
    if s != [] && s[0] != c { BeforeMeans(s[1..], c); }
  }

  /** The answers to a line that is not one the tool prints for a value: what
      follows "0x" up to a space must be pairs of hexadecimal digits, an opening
      quote needs another one, and anything else is an empty value. */
  lemma RestIsRefused(rest: Bytes)
    ensures var hex := |rest| >= 2 && rest[0] == 48 && rest[1] == 120;
      && (ParseRest(rest).BadHex? <==> hex && exists n :: BadDigits(rest[2..], n))
      && (ParseRest(rest).Unterminated? <==> rest != [] && rest[0] == 34 && 34 !in rest[1..])
      && (!hex && (rest == [] || rest[0] != 34) ==> ParseRest(rest) == Password([]))
      && !ParseRest(rest).NoPasswordLine?
  {
    hide DecodeHex, Before, HexDigit;
    var hex := |rest| >= 2 && rest[0] == 48 && rest[1] == 120;
    assert StartsWith(rest, ZERO_X) <==> hex by {
      if hex { assert rest[..2] == [rest[0], rest[1]]; }
      if StartsWith(rest, ZERO_X) { assert rest[..2][0] == ZERO_X[0] && rest[..2][1] == ZERO_X[1]; }
    }
    if hex {
      BadHexMeans(rest[2..]);
    } else if rest != [] && rest[0] == QUOTE {
      assert forall k :: 1 <= k < |rest| ==> rest[1..][k - 1] == rest[k];
    }
  }

  /** The first `n` bytes, up to a space or the end, are no pairs of digits. */
  ghost predicate BadDigits(s: Bytes, n: int) {
    && 0 <= n <= |s| && (forall i :: 0 <= i < n ==> s[i] != 32) && (n < |s| ==> s[n] == 32)
    && (n % 2 == 1 || exists i :: 0 <= i < n && !HexDigit(s[i]))
  }

  lemma BadHexMeans(s: Bytes)
    ensures DecodeHex(Before(s, SPACE)).None? <==> exists n :: BadDigits(s, n)
  {
    hide DecodeHex, HexDigit;
    var h := Before(s, SPACE);
    BeforeMeans(s, SPACE);
    HexIffDigits(h);
    assert forall i :: 0 <= i < |h| ==> s[i] == h[i] && h[i] in h;
    if n :| BadDigits(s, n) { OneEnd(s, |h|, n); }
    if DecodeHex(h).None? { assert BadDigits(s, |h|); }
  }

  lemma OneEnd(s: Bytes, m: nat, n: int)
    requires m <= |s| && (forall i :: 0 <= i < m ==> s[i] != 32) && (m < |s| ==> s[m] == 32)
    requires 0 <= n <= |s| && (forall i :: 0 <= i < n ==> s[i] != 32) && (n < |s| ==> s[n] == 32)
    ensures m == n
  {
  }
}
