/** Dropping the lines of an error text that carry part of a secret
    (internal/adapters/exec/redact.go). Text is bytes, as in Go. */
module Redaction {
  import opened Text
  import opened Catalogues

  const FRAGMENT_LEN := 16
  const NL: Byte := 10
  const X: Byte := 120

  // ---- Lines --------------------------------------------------------------

  /** The lines of a text that goes on with `c`. */
  function Extended(lines: seq<Bytes>, c: Byte): (longer: seq<Bytes>)
    requires lines != []
    ensures longer != []
  {
    if c == NL then lines + [[]] else lines[..|lines| - 1] + [lines[|lines| - 1] + [c]]
  }

  /** `strings.Split(s, "\n")`. */
  function Split(s: Bytes): (lines: seq<Bytes>)
    ensures lines != []
  {
    if s == [] then [[]] else Extended(Split(s[..|s| - 1]), s[|s| - 1])
  }

  /** `strings.Join(lines, "\n")`. */
  function Join(lines: seq<Bytes>): Bytes {
    if lines == [] then []
    else if |lines| == 1 then lines[0]
    else Join(lines[..|lines| - 1]) + [NL] + lines[|lines| - 1]
  }

  ghost predicate OneLine(l: Bytes) {
    NL !in l
  }

  lemma {:induction false} SplitLines(s: Bytes)
    ensures forall l :: l in Split(s) ==> OneLine(l) && |l| <= |s|
    ensures NL in s ==> forall l :: l in Split(s) ==> |l| < |s|
    ensures NL !in s ==> Split(s) == [s]
  {
    if s != [] {
      SplitLines(s[..|s| - 1]);
      assert s == s[..|s| - 1] + [s[|s| - 1]];
      var before := Split(s[..|s| - 1]);
      assert before[|before| - 1] in before;
    }
  }

  lemma ExtendedConcat(p: seq<Bytes>, q: seq<Bytes>, c: Byte)
    requires q != []
    ensures Extended(p + q, c) == p + Extended(q, c)
  {
    assert (p + q)[..|p + q| - 1] == p + q[..|q| - 1];
  }

  lemma {:induction false} SplitConcat(a: Bytes, b: Bytes)
    ensures Split(a + [NL] + b) == Split(a) + Split(b)
  {
    hide Extended;
    var s := a + [NL] + b;
    if b == [] {
      assert s[..|s| - 1] == a;
      assert Extended(Split(a), NL) == Split(a) + [[]] by { BreakStartsLine(Split(a)); }
    } else {
      var b', c := b[..|b| - 1], b[|b| - 1];
      SplitConcat(a, b');
      assert s[..|s| - 1] == a + [NL] + b' && s[|s| - 1] == c;
      ExtendedConcat(Split(a), Split(b'), c);
    }
  }

  lemma BreakStartsLine(lines: seq<Bytes>)
    requires lines != []
    ensures Extended(lines, NL) == lines + [[]]
  {
  }

  lemma JoinSnoc(init: seq<Bytes>, last: Bytes)
    ensures Join(init + [last]) == if init == [] then last else Join(init) + [NL] + last
  {
    assert (init + [last])[..|init|] == init;
  }

  lemma JoinExtended(lines: seq<Bytes>, c: Byte)
    requires lines != []
    ensures Join(Extended(lines, c)) == Join(lines) + [c]
  {
    hide Join;
    var init, last := lines[..|lines| - 1], lines[|lines| - 1];
    assert lines == init + [last];
    JoinSnoc(init, last);
    JoinSnoc(init, last + [c]);
    JoinSnoc(lines, []);
  }

  lemma EmptyLine()
    ensures Join([[]]) == []
  {
  }

  lemma {:induction false} JoinOfSplit(s: Bytes)
    ensures Join(Split(s)) == s
  {
    hide Extended, Join;
    if s == [] {
      EmptyLine();
    } else {
      JoinOfSplit(s[..|s| - 1]);
      JoinExtended(Split(s[..|s| - 1]), s[|s| - 1]);
    }
  }

  /** Lines can be told apart again after joining. */
  lemma {:induction false} SplitOfJoin(lines: seq<Bytes>)
    requires lines != [] && forall l :: l in lines ==> OneLine(l)
    ensures Split(Join(lines)) == lines
  {
    hide Join, Split;
    var init, last := lines[..|lines| - 1], lines[|lines| - 1];
    assert lines == init + [last];
    assert last in lines;
    SplitLines(last);
    JoinSnoc(init, last);
    if init != [] {
      SplitOfJoin(init);
      SplitConcat(Join(init), last);
    }
  }

  // ---- Leaks --------------------------------------------------------------

  predicate At(text: Bytes, part: Bytes, i: nat) {
    i + |part| <= |text| && text[i..i + |part|] == part
  }

  /** `strings.Contains`. */
  predicate Contains(text: Bytes, part: Bytes) {
    exists i: nat :: i <= |text| && At(text, part, i)
  }

  /** A part of the secret whose presence counts as a leak: a run of
      FRAGMENT_LEN bytes, or a shorter secret whole. */
  ghost predicate Fragment(secret: Bytes, w: Bytes) {
    if |secret| < FRAGMENT_LEN then w == secret else |w| == FRAGMENT_LEN && Contains(secret, w)
  }

  ghost predicate Leaks(text: Bytes, secret: Bytes) {
    exists w :: Fragment(secret, w) && Contains(text, w)
  }

  function Window(s: Bytes, i: nat): Bytes {
    if i + FRAGMENT_LEN <= |s| then s[i..i + FRAGMENT_LEN] else []
  }

  /** The windows of the secret that start before `n`. */
  ghost predicate Windows(fragments: set<Bytes>, secret: Bytes, n: nat) {
    forall w :: w in fragments <==> |w| == FRAGMENT_LEN && exists j: nat :: j < n && At(secret, w, j)
  }

  lemma WindowsGrow(fragments: set<Bytes>, secret: Bytes, i: nat)
    requires i + FRAGMENT_LEN <= |secret| && Windows(fragments, secret, i)
    ensures Windows(fragments + {secret[i..i + FRAGMENT_LEN]}, secret, i + 1)
  {
    var more, window := fragments + {secret[i..i + FRAGMENT_LEN]}, secret[i..i + FRAGMENT_LEN];
    assert At(secret, window, i);
    forall w ensures w in more <==> |w| == FRAGMENT_LEN && exists j: nat :: j < i + 1 && At(secret, w, j) {
      if w in fragments {
        var j: nat :| j < i && At(secret, w, j);
        assert j < i + 1;
      }
    }
  }

  /** Every window of the secret; none when it is too short to have one. */
  method FragmentSet(secret: Bytes) returns (fragments: Option<set<Bytes>>)
    ensures fragments.None? <==> |secret| < FRAGMENT_LEN
    ensures fragments.Some? ==> forall w :: w in fragments.value <==> Fragment(secret, w)
  {
    hide Windows;
    if |secret| < FRAGMENT_LEN { return None; }
    var windows: set<Bytes> := {};
    assert Windows(windows, secret, 0) by { NoWindows(secret); }
    var i := 0;
    while i + FRAGMENT_LEN <= |secret|
      invariant 0 <= i <= |secret| - FRAGMENT_LEN + 1
      invariant Windows(windows, secret, i)
    {
      WindowsGrow(windows, secret, i);
      windows := windows + {secret[i..i + FRAGMENT_LEN]};
      i := i + 1;
    }
    AllWindows(windows, secret, i);
    return Some(windows);
  }

  lemma NoWindows(secret: Bytes)
    ensures Windows({}, secret, 0)
  {
  }

  lemma AllWindows(fragments: set<Bytes>, secret: Bytes, n: nat)
    requires |secret| >= FRAGMENT_LEN && n + FRAGMENT_LEN > |secret| && n <= |secret| && Windows(fragments, secret, n)
    ensures forall w :: w in fragments <==> Fragment(secret, w)
  {
    forall w ensures w in fragments <==> Fragment(secret, w) {
      if w in fragments {
        var j: nat :| j < n && At(secret, w, j);
        assert j <= |secret|;
      }
      if Fragment(secret, w) {
        var j: nat :| j <= |secret| && At(secret, w, j);
        assert j < n;
      }
    }
  }

  lemma WindowFound(line: Bytes, secret: Bytes, i: nat)
    requires Fragment(secret, Window(line, i)) && i + FRAGMENT_LEN <= |line|
    ensures Leaks(line, secret)
  {
    assert At(line, Window(line, i), i);
    assert Contains(line, Window(line, i));
  }

  lemma NoWindowFound(line: Bytes, secret: Bytes)
    requires |secret| >= FRAGMENT_LEN
    requires forall k: nat :: k + FRAGMENT_LEN <= |line| ==> !Fragment(secret, Window(line, k))
    ensures !Leaks(line, secret)
  {
    forall w | |w| == FRAGMENT_LEN && Contains(line, w)
      ensures exists k: nat :: k + FRAGMENT_LEN <= |line| && Window(line, k) == w
    {
      var k: nat :| k <= |line| && At(line, w, k);
      assert Window(line, k) == w;
    }
  }

  lemma WholeSecret(line: Bytes, secret: Bytes)
    requires |secret| < FRAGMENT_LEN
    ensures Leaks(line, secret) <==> Contains(line, secret)
  {
    hide Contains;
    assert Fragment(secret, secret);
  }

  /** Walks the line, not the secret. */
  method Carries(line: Bytes, secret: Bytes, fragments: Option<set<Bytes>>) returns (r: bool)
    requires fragments.None? <==> |secret| < FRAGMENT_LEN
    requires fragments.Some? ==> forall w :: w in fragments.value <==> Fragment(secret, w)
    ensures r <==> Leaks(line, secret)
  {
    hide Leaks, Contains, Fragment;
    if fragments.None? {
      WholeSecret(line, secret);
      return Contains(line, secret);
    }
    var i := 0;
    while i + FRAGMENT_LEN <= |line|
      invariant 0 <= i
      invariant forall k: nat :: k < i && k + FRAGMENT_LEN <= |line| ==> !Fragment(secret, Window(line, k))
    {
      assert Window(line, i) == line[i..i + FRAGMENT_LEN];
      if line[i..i + FRAGMENT_LEN] in fragments.value {
        WindowFound(line, secret, i);
        return true;
      }
      i := i + 1;
    }
    NoWindowFound(line, secret);
    return false;
  }

  // ---- The filter ---------------------------------------------------------

  /** The lines that do not leak, in order. */
  ghost function Kept(lines: seq<Bytes>, secret: Bytes): seq<Bytes> {
    if lines == [] then []
    else
      var last := lines[|lines| - 1];
      Kept(lines[..|lines| - 1], secret) + if Leaks(last, secret) then [] else [last]
  }

  /** Filters into the front of the same array. */
  method FilterInPlace(lines: array<Bytes>, secret: Bytes) returns (k: nat)
    modifies lines
    ensures k <= lines.Length && lines[..k] == Kept(old(lines[..]), secret)
  {
    hide Leaks, Windows;
    k := 0;
    var fragments := FragmentSet(secret);
    for i := 0 to lines.Length
      invariant k <= i
      invariant lines[..k] == Kept(old(lines[..])[..i], secret)
      invariant forall j :: i <= j < lines.Length ==> lines[j] == old(lines[..])[j]
    {
      assert old(lines[..])[..i + 1][..i] == old(lines[..])[..i];
      var carries := Carries(lines[i], secret, fragments);
      if !carries {
        lines[k] := lines[i];
        k := k + 1;
        assert lines[..k] == lines[..k - 1] + [lines[k - 1]];
      }
    }
    assert old(lines[..])[..lines.Length] == old(lines[..]);
  }

  /** The white space of Unicode, encoded in UTF-8. */
  predicate IsSpace(s: Bytes) {
    (|s| == 1 && (s[0] == 32 || 9 <= s[0] <= 13))
    || s in WIDE_SPACES
    || (|s| == 3 && s[0] == 0xE2 && s[1] == 0x80 && (0x80 <= s[2] <= 0x8A || s[2] in {0xA8, 0xA9, 0xAF}))
  }

  /** U+0085, U+00A0, U+1680, U+205F and U+3000; the other wide spaces are
      U+2000 to U+200A, U+2028, U+2029 and U+202F. */
  const WIDE_SPACES: seq<Bytes> :=
    [[0xC2, 0x85], [0xC2, 0xA0], [0xE1, 0x9A, 0x80], [0xE2, 0x81, 0x9F], [0xE3, 0x80, 0x80]]

  /** The length of the white space character `s` starts with, or 0. */
  function SpaceAhead(s: Bytes): (n: nat)
    ensures n <= |s|
  {
    if |s| >= 1 && IsSpace(s[..1]) then 1
    else if |s| >= 2 && IsSpace(s[..2]) then 2
    else if |s| >= 3 && IsSpace(s[..3]) then 3
    else 0
  }

  function SpaceBehind(s: Bytes): (n: nat)
    ensures n <= |s|
  {
    if |s| >= 1 && IsSpace(s[|s| - 1..]) then 1
    else if |s| >= 2 && IsSpace(s[|s| - 2..]) then 2
    else if |s| >= 3 && IsSpace(s[|s| - 3..]) then 3
    else 0
  }

  function TrimLeft(s: Bytes): Bytes {
    if SpaceAhead(s) > 0 then TrimLeft(s[SpaceAhead(s)..]) else s
  }

  function TrimRight(s: Bytes): Bytes {
    if SpaceBehind(s) > 0 then TrimRight(s[..|s| - SpaceBehind(s)]) else s
  }

  /** `strings.TrimSpace`. */
  function Trim(s: Bytes): Bytes {
    TrimRight(TrimLeft(s))
  }

  /** An error of a finished command, or any other error. */
  datatype Failure = ExitError(code: int, stderr: Bytes) | OtherError(id: int)

  ghost function Redacted(stderr: Bytes, secret: Bytes): Bytes {
    Trim(Join(Kept(Split(stderr), secret)))
  }

  method Redact(err: Failure, secret: Bytes) returns (r: Failure)
    ensures err.OtherError? || secret == [] || err.stderr == [] ==> r == err
    ensures err.ExitError? && secret != [] && err.stderr != [] ==>
      r == ExitError(err.code, Redacted(err.stderr, secret))
  {
    if err.OtherError? || secret == [] || err.stderr == [] { return err; }
    var split := Split(err.stderr);
    var lines := new Bytes[|split|](i requires 0 <= i < |split| => split[i]);
    assert lines[..] == split;
    var k := FilterInPlace(lines, secret);
    r := ExitError(err.code, Trim(Join(lines[..k])));
  }

  // ---- What is kept -------------------------------------------------------

  lemma {:induction false} KeptMeans(lines: seq<Bytes>, secret: Bytes)
    ensures forall l :: l in Kept(lines, secret) <==> l in lines && !Leaks(l, secret)
  {
    hide Leaks;
    if lines != [] {
      KeptMeans(lines[..|lines| - 1], secret);
      assert lines == lines[..|lines| - 1] + [lines[|lines| - 1]];
    }
  }

  /** Before the final trim, the lines of the result are exactly the lines of
      the input that do not leak, in order. */
  lemma KeptLines(stderr: Bytes, secret: Bytes)
    ensures var kept := Kept(Split(stderr), secret);
      && (kept != [] ==> Split(Join(kept)) == kept)
      && (forall l :: l in kept <==> l in Split(stderr) && !Leaks(l, secret))
      && ((forall l :: l in Split(stderr) ==> !Leaks(l, secret)) ==> Join(kept) == stderr)
  {
    hide Leaks;
    var lines := Split(stderr);
    SplitLines(stderr);
    KeptMeans(lines, secret);
    if Kept(lines, secret) != [] { SplitOfJoin(Kept(lines, secret)); }
    if forall l :: l in lines ==> !Leaks(l, secret) {
      KeptAll(lines, secret);
      JoinOfSplit(stderr);
    }
  }

  lemma {:induction false} KeptAll(lines: seq<Bytes>, secret: Bytes)
    requires forall l :: l in lines ==> !Leaks(l, secret)
    ensures Kept(lines, secret) == lines
  {
    hide Leaks;
    if lines != [] {
      var init, last := lines[..|lines| - 1], lines[|lines| - 1];
      assert lines == init + [last] && last in lines;
      KeptAll(init, secret);
    }
  }

  // ---- What cannot get through --------------------------------------------

  lemma SlicedContains(text: Bytes, a: nat, b: nat, part: Bytes)
    requires a <= b <= |text| && Contains(text[a..b], part)
    ensures Contains(text, part)
  {
    var i: nat :| i <= |text[a..b]| && At(text[a..b], part, i);
    SliceOfSlice(text, a, b, i, i + |part|);
    assert At(text, part, a + i);
  }

  lemma SliceOfSlice(s: Bytes, a: nat, b: nat, i: nat, j: nat)
    requires i <= j <= b - a && b <= |s|
    ensures s[a..b][i..j] == s[a + i..a + j]
  {
    var x, y := s[a..b][i..j], s[a + i..a + j];
    assert forall k :: 0 <= k < |x| ==> x[k] == s[a..b][i + k] == y[k];
    assert x == y;
  }

  lemma AtIndex(text: Bytes, part: Bytes, i: nat, k: nat)
    requires At(text, part, i) && k < |part|
    ensures part[k] == text[i + k]
  {
    assert part[k] == text[i..i + |part|][k];
  }

  /** What has no line break cannot lie across one. */
  lemma BesideBreak(text: Bytes, part: Bytes, i: nat, p: nat)
    requires At(text, part, i) && OneLine(part) && p < |text| && text[p] == NL
    ensures p < i || i + |part| <= p
  {
    if i <= p < i + |part| { AtIndex(text, part, i, p - i); }
  }

  lemma PartOfLine(l: Bytes, w: Bytes)
    requires OneLine(l) && Contains(l, w)
    ensures OneLine(w) && |w| <= |l|
  {
    var i: nat :| i <= |l| && At(l, w, i);
    forall k | 0 <= k < |w| ensures w[k] != NL { AtIndex(l, w, i, k); }
  }

  /** Something without a line break that occurs in joined lines occurs in one
      of them. */
  lemma {:induction false} InOneLine(lines: seq<Bytes>, part: Bytes)
    requires part != [] && OneLine(part) && Contains(Join(lines), part)
    ensures exists l :: l in lines && Contains(l, part)
  {
    hide Contains;
    if |lines| == 1 {
      assert lines[0] in lines;
    } else if |lines| > 1 {
      var init, last := lines[..|lines| - 1], lines[|lines| - 1];
      if Contains(last, part) {
        assert last in lines;
      } else {
        AcrossBreak(Join(init), last, part);
        InOneLine(init, part);
        var l :| l in init && Contains(l, part);
        assert l in lines;
      }
    } else {
      NotInNothing(part);
    }
  }

  lemma NotInNothing(part: Bytes)
    requires part != []
    ensures !Contains([], part)
  {
  }

  lemma AcrossBreak(a: Bytes, b: Bytes, part: Bytes)
    requires part != [] && OneLine(part) && Contains(a + [NL] + b, part)
    ensures Contains(a, part) || Contains(b, part)
  {
    var s := a + [NL] + b;
    var i: nat :| i <= |s| && At(s, part, i);
    BesideBreak(s, part, i, |a|);
    if i + |part| <= |a| {
      assert a[i..i + |part|] == s[i..i + |part|];
      assert At(a, part, i);
    } else {
      var k := i - |a| - 1;
      assert b[k..k + |part|] == s[i..i + |part|];
      assert At(b, part, k);
    }
  }

  /** Every white space character of Unicode, as UTF-8. */
  ghost predicate WhiteSpace(c: Bytes) {
    || c == [9] || c == [10] || c == [11] || c == [12] || c == [13] || c == [32]
    || c == [0xC2, 0x85] || c == [0xC2, 0xA0] || c == [0xE1, 0x9A, 0x80]
    || c == [0xE2, 0x80, 0x80] || c == [0xE2, 0x80, 0x81] || c == [0xE2, 0x80, 0x82] || c == [0xE2, 0x80, 0x83]
    || c == [0xE2, 0x80, 0x84] || c == [0xE2, 0x80, 0x85] || c == [0xE2, 0x80, 0x86] || c == [0xE2, 0x80, 0x87]
    || c == [0xE2, 0x80, 0x88] || c == [0xE2, 0x80, 0x89] || c == [0xE2, 0x80, 0x8A]
    || c == [0xE2, 0x80, 0xA8] || c == [0xE2, 0x80, 0xA9] || c == [0xE2, 0x80, 0xAF]
    || c == [0xE2, 0x81, 0x9F] || c == [0xE3, 0x80, 0x80]
  }

  lemma SpaceIsWhite(c: Bytes)
    ensures IsSpace(c) <==> WhiteSpace(c)
  {
    if |c| == 1 {
      assert c == [c[0]];
    } else if |c| == 2 {
      assert c == [c[0], c[1]];
    } else if |c| == 3 {
      assert c == [c[0], c[1], c[2]];
    }
    assert c in WIDE_SPACES <==>
      c == WIDE_SPACES[0] || c == WIDE_SPACES[1] || c == WIDE_SPACES[2] || c == WIDE_SPACES[3] || c == WIDE_SPACES[4];
  }

  /** Nothing but white space. */
  ghost predicate Blank(s: Bytes) {
    s == [] || exists k: nat :: 0 < k <= |s| && WhiteSpace(s[..k]) && Blank(s[k..])
  }

  lemma {:induction false} BlankBoth(a: Bytes, b: Bytes)
    requires Blank(a) && Blank(b)
    ensures Blank(a + b)
  {
    hide WhiteSpace;
    if a == [] {
      assert a + b == b;
    } else {
      var k: nat :| 0 < k <= |a| && WhiteSpace(a[..k]) && Blank(a[k..]);
      BlankBoth(a[k..], b);
      assert (a + b)[..k] == a[..k] && (a + b)[k..] == a[k..] + b;
    }
  }

  lemma BlankOne(c: Bytes)
    requires WhiteSpace(c)
    ensures Blank(c)
  {
    assert c[..|c|] == c && c[|c|..] == [];
  }

  lemma {:induction false} TrimLeftMeans(s: Bytes) returns (a: nat)
    ensures a <= |s| && TrimLeft(s) == s[a..] && Blank(s[..a]) && SpaceAhead(s[a..]) == 0
  {
    hide WhiteSpace, IsSpace;
    var n := SpaceAhead(s);
    if n > 0 {
      SpaceIsWhite(s[..n]);
      var k := TrimLeftMeans(s[n..]);
      a := k + n;
      assert s[n..][k..] == s[a..] && s[..a] == s[..n] + s[n..][..k];
      BlankOne(s[..n]);
      BlankBoth(s[..n], s[n..][..k]);
    } else {
      a := 0;
      assert s[..0] == [] && s[0..] == s;
    }
  }

  lemma CutTwice(s: Bytes, m: nat, b: nat)
    requires b <= m <= |s|
    ensures s[..m][..b] == s[..b] && s[b..] == s[..m][b..] + s[m..]
  {
  }

  lemma {:induction false} TrimRightMeans(s: Bytes) returns (b: nat)
    ensures b <= |s| && TrimRight(s) == s[..b] && Blank(s[b..]) && SpaceBehind(s[..b]) == 0
  {
    hide WhiteSpace, SpaceBehind, Blank;
    var n := SpaceBehind(s);
    assert Blank([]) by { NothingIsBlank(); }
    if n > 0 {
      SpaceBehindIsWhite(s);
      b := TrimRightMeans(s[..|s| - n]);
      CutTwice(s, |s| - n, b);
      BlankOne(s[|s| - n..]);
      BlankBoth(s[..|s| - n][b..], s[|s| - n..]);
    } else {
      b := |s|;
      assert s[|s|..] == [] && s[..|s|] == s;
    }
  }

  lemma NothingIsBlank()
    ensures Blank([])
  {
  }

  lemma SpaceBehindIsWhite(s: Bytes)
    requires SpaceBehind(s) > 0
    ensures WhiteSpace(s[|s| - SpaceBehind(s)..])
  {
    hide IsSpace, WhiteSpace;
    SpaceIsWhite(s[|s| - SpaceBehind(s)..]);
  }

  /** What the trim takes off is white space, and nothing of it is left at
      either end unless the characters of the end overlap it. */
  lemma TrimMeans(s: Bytes) returns (before: Bytes, after: Bytes)
    ensures s == before + Trim(s) + after && Blank(before) && Blank(after)
    ensures forall i :: 0 <= i < |Trim(s)| ==> !WhiteSpace(Trim(s)[i..])
    ensures forall i :: 0 <= i <= |Trim(s)| ==> !WhiteSpace(Trim(s)[..i])
  {
    hide WhiteSpace, SpaceAhead, SpaceBehind, Blank, TrimLeft, TrimRight;
    var a := TrimLeftMeans(s);
    var left := s[a..];
    var b := TrimRightMeans(left);
    before, after := s[..a], left[b..];
    assert left == left[..b] + left[b..] && s == s[..a] + left;
    var t := left[..b];
    assert Trim(s) == t;
    NoSpaceBehind(t);
    forall i | 0 <= i <= |t| ensures !WhiteSpace(t[..i]) {
      assert t[..i] == left[..i];
      NoSpaceAhead(left, i);
    }
  }

  lemma NoSpaceAhead(s: Bytes, k: nat)
    requires SpaceAhead(s) == 0 && k <= |s|
    ensures !WhiteSpace(s[..k])
  {
    SpaceIsWhite(s[..k]);
  }

  lemma NoSpaceBehind(s: Bytes)
    requires SpaceBehind(s) == 0
    ensures forall i :: 0 <= i < |s| ==> !WhiteSpace(s[i..])
  {
    forall i | 0 <= i < |s| ensures !WhiteSpace(s[i..]) { NoSpaceFrom(s, i); }
  }

  lemma NoSpaceFrom(s: Bytes, i: nat)
    requires SpaceBehind(s) == 0 && i < |s|
    ensures !WhiteSpace(s[i..])
  {
    SpaceIsWhite(s[i..]);
  }

  /** The text of a redacted error: the lines that do not leak, without the white
      space around them. */
  lemma RedactedIsTrimmed(stderr: Bytes, secret: Bytes) returns (before: Bytes, after: Bytes)
    ensures Join(Kept(Split(stderr), secret)) == before + Redacted(stderr, secret) + after
    ensures Blank(before) && Blank(after)
    ensures var r := Redacted(stderr, secret);
      forall i :: 0 <= i < |r| ==> !WhiteSpace(r[..i + 1]) && !WhiteSpace(r[i..])
  {
    hide WhiteSpace, Blank, Kept, Split, Join, Trim;
    before, after := TrimMeans(Join(Kept(Split(stderr), secret)));
  }

  lemma TrimmedContains(s: Bytes, part: Bytes)
    requires Contains(Trim(s), part)
    ensures Contains(s, part)
  {
    hide Contains, TrimLeft, TrimRight, Blank, SpaceAhead, SpaceBehind;
    var a := TrimLeftMeans(s);
    var b := TrimRightMeans(TrimLeft(s));
    assert s[a..][..b] == s[a..a + b];
    SlicedContains(s, a, a + b, part);
  }

  lemma LeakMeans(text: Bytes, secret: Bytes)
    ensures Leaks(text, secret) <==> exists w :: Fragment(secret, w) && Contains(text, w)
  {
    hide Fragment, Contains;
  }

  lemma FragmentIsOneLine(secret: Bytes, w: Bytes)
    requires secret != [] && OneLine(secret) && Fragment(secret, w)
    ensures w != [] && OneLine(w)
  {
    if |secret| >= FRAGMENT_LEN {
      var i: nat :| i <= |secret| && At(secret, w, i);
      assert forall k :: 0 <= k < |w| ==> w[k] == secret[i + k];
    }
  }

  /** A secret without a line break never leaks, whatever the error text. */
  lemma NothingLeaks(stderr: Bytes, secret: Bytes)
    requires secret != [] && OneLine(secret)
    ensures !Leaks(Redacted(stderr, secret), secret)
  {
    hide Leaks, Contains, Fragment, Trim;
    var kept := Kept(Split(stderr), secret);
    LeakMeans(Trim(Join(kept)), secret);
    if w :| Fragment(secret, w) && Contains(Trim(Join(kept)), w) {
      FragmentIsOneLine(secret, w);
      TrimmedContains(Join(kept), w);
      InOneLine(kept, w);
      var l :| l in kept && Contains(l, w);
      LeakMeans(l, secret);
      KeptMeans(Split(stderr), secret);
    }
  }

  /** A fragment of the secret that spans a line break. */
  lemma BrokenFragment(secret: Bytes) returns (w: Bytes)
    requires NL in secret
    ensures Fragment(secret, w) && NL in w && |w| <= FRAGMENT_LEN
  {
    if |secret| < FRAGMENT_LEN {
      w := secret;
    } else {
      var p :| 0 <= p < |secret| && secret[p] == NL;
      var j := if p <= |secret| - FRAGMENT_LEN then p else |secret| - FRAGMENT_LEN;
      w := secret[j..j + FRAGMENT_LEN];
      assert At(secret, w, j) && w[p - j] == NL;
    }
  }

  lemma ShortLineIsQuiet(l: Bytes, secret: Bytes)
    requires OneLine(l) && NL in secret && |l| < FRAGMENT_LEN
    ensures !Leaks(l, secret)
  {
    hide Contains;
    forall w | Contains(l, w) ensures OneLine(w) && |w| <= |l| { PartOfLine(l, w); }
  }

  function Framed(w: Bytes): Bytes {
    [X] + [NL] + (w + [NL] + [X])
  }

  lemma FramedLines(w: Bytes)
    requires NL in w && |w| <= FRAGMENT_LEN
    ensures forall l :: l in Split(Framed(w)) ==> OneLine(l) && |l| < FRAGMENT_LEN
  {
    hide Split;
    SplitConcat([X], w + [NL] + [X]);
    SplitConcat(w, [X]);
    SplitLines([X]);
    SplitLines(w);
  }

  lemma NotSpaces(s: Bytes)
    requires |s| >= 1 && s[0] == X && s[|s| - 1] == X
    ensures SpaceAhead(s) == 0 && SpaceBehind(s) == 0
  {
    hide IsSpace;
    forall k | 1 <= k <= |s| ensures !IsSpace(s[..k]) { NoSpace(s[..k]); }
    forall k | 0 <= k < |s| ensures !IsSpace(s[k..]) { NoSpace(s[k..]); }
  }

  lemma NoSpace(c: Bytes)
    requires c != [] && (c[0] == X || c[|c| - 1] == X)
    ensures !IsSpace(c)
  {
    hide IsSpace;
    SpaceIsWhite(c);
  }

  lemma FramedStays(w: Bytes)
    ensures Trim(Framed(w)) == Framed(w) && Contains(Framed(w), w)
  {
    var s := Framed(w);
    assert s[0] == X && s[|s| - 1] == X;
    NotSpaces(s);
    assert s[2..2 + |w|] == w;
    assert At(s, w, 2);
  }

  /** A secret with a line break leaks from some error text: the promise that no
      run of the secret survives needs a secret on one line. */
  lemma BrokenSecretLeaks(secret: Bytes) returns (stderr: Bytes)
    requires NL in secret
    ensures Leaks(Redacted(stderr, secret), secret)
  {
    hide Leaks, Contains, Fragment, Trim, Split;
    var w := BrokenFragment(secret);
    stderr := Framed(w);
    FramedLines(w);
    FramedStays(w);
    forall l | l in Split(stderr) ensures !Leaks(l, secret) { ShortLineIsQuiet(l, secret); }
    KeptAll(Split(stderr), secret);
    JoinOfSplit(stderr);
    LeakMeans(Redacted(stderr, secret), secret);
  }

  /** Redaction is safe for a secret exactly when the secret has no line break. */
  lemma RedactsIff(secret: Bytes)
    requires secret != []
    ensures (forall stderr :: !Leaks(Redacted(stderr, secret), secret)) <==> OneLine(secret)
  {
    hide Leaks, Redacted;
    if OneLine(secret) {
      forall stderr ensures !Leaks(Redacted(stderr, secret), secret) { NothingLeaks(stderr, secret); }
    } else {
      var stderr := BrokenSecretLeaks(secret);
    }
  }

  // ---- Secrets that wrapped -----------------------------------------------

  /** The text without its line breaks. */
  ghost function Flat(s: Bytes): Bytes {
    if s == [] then [] else Flat(s[..|s| - 1]) + if s[|s| - 1] == NL then [] else [s[|s| - 1]]
  }

  ghost function Concat(pieces: seq<Bytes>): Bytes {
    if pieces == [] then [] else Concat(pieces[..|pieces| - 1]) + pieces[|pieces| - 1]
  }

  /** The length from which on a part of the secret counts as a leak. */
  function LeakLength(secret: Bytes): nat {
    if |secret| < FRAGMENT_LEN then |secret| else FRAGMENT_LEN
  }

  ghost function Shorter(pieces: seq<Bytes>, n: nat): seq<Bytes> {
    if pieces == [] then []
    else
      var last := pieces[|pieces| - 1];
      Shorter(pieces[..|pieces| - 1], n) + if |last| < n then [last] else []
  }

  lemma {:induction false} FlatConcat(a: Bytes, b: Bytes)
    ensures Flat(a + b) == Flat(a) + Flat(b)
  {
    if b == [] {
      assert a + b == a;
    } else {
      FlatConcat(a, b[..|b| - 1]);
      assert (a + b)[..|a + b| - 1] == a + b[..|b| - 1];
    }
  }

  lemma {:induction false} FlatLine(l: Bytes)
    requires OneLine(l)
    ensures Flat(l) == l
  {
    if l != [] { FlatLine(l[..|l| - 1]); }
  }

  /** Taking the line breaks out of joined lines puts the lines together. */
  lemma {:induction false} FlatOfJoin(lines: seq<Bytes>)
    requires forall l :: l in lines ==> OneLine(l)
    ensures Flat(Join(lines)) == Concat(lines)
  {
    hide Flat;
    if lines == [] {
      FlatLine([]);
    } else {
      var init, last := lines[..|lines| - 1], lines[|lines| - 1];
      assert lines == init + [last] && last in lines;
      JoinSnoc(init, last);
      FlatOfJoin(init);
      FlatLine(last);
      if init != [] {
        FlatConcat(Join(init) + [NL], last);
        FlatConcat(Join(init), [NL]);
        FlatBreak();
      }
    }
  }

  lemma FlatBreak()
    ensures Flat([NL]) == []
  {
    assert [NL][..0] == [];
  }

  lemma {:induction false} PieceIsPart(pieces: seq<Bytes>, p: Bytes)
    requires p in pieces
    ensures Contains(Concat(pieces), p)
  {
    hide Contains;
    var init, last := pieces[..|pieces| - 1], pieces[|pieces| - 1];
    var all := Concat(pieces);
    if p == last {
      EndsWith(Concat(init), p);
    } else {
      assert p in init;
      PieceIsPart(init, p);
      assert all[0..|Concat(init)|] == Concat(init);
      SlicedContains(all, 0, |Concat(init)|, p);
    }
  }

  lemma EndsWith(a: Bytes, p: Bytes)
    ensures Contains(a + p, p)
  {
    assert (a + p)[|a|..|a| + |p|] == p;
    assert At(a + p, p, |a|);
  }

  /** A part of the secret leaks exactly when it is long enough. */
  lemma PartLeaksIff(secret: Bytes, p: Bytes)
    requires Contains(secret, p)
    ensures Leaks(p, secret) <==> |p| >= LeakLength(secret)
  {
    var i: nat :| i <= |secret| && At(secret, p, i);
    if |p| >= LeakLength(secret) {
      var w := p[..LeakLength(secret)];
      assert p[0..|w|] == w;
      assert At(p, w, 0);
      assert secret[i..i + |w|] == w;
      assert At(secret, w, i);
      assert Fragment(secret, w);
    }
  }

  /** Of a secret broken across lines, in whatever way, exactly the pieces too
      short to count as a leak come through. */
  lemma {:induction false} WrappedPieces(secret: Bytes, pieces: seq<Bytes>)
    requires forall p :: p in pieces ==> Contains(secret, p)
    ensures Kept(pieces, secret) == Shorter(pieces, LeakLength(secret))
  {
    hide Leaks, Contains;
    if pieces != [] {
      WrappedPieces(secret, pieces[..|pieces| - 1]);
      PartLeaksIff(secret, pieces[|pieces| - 1]);
    }
  }

  lemma WrappedKept(secret: Bytes, pieces: seq<Bytes>)
    requires pieces != [] && Concat(pieces) == secret && forall p :: p in pieces ==> OneLine(p)
    ensures Kept(Split(Join(pieces)), secret) == Shorter(pieces, LeakLength(secret))
  {
    hide Contains, Join, Split;
    SplitOfJoin(pieces);
    forall p | p in pieces ensures Contains(secret, p) { PieceIsPart(pieces, p); }
    WrappedPieces(secret, pieces);
  }

  /** The secret filled into lines of `width` bytes, the last one shorter or not. */
  ghost predicate Fills(secret: Bytes, pieces: seq<Bytes>, width: nat) {
    && pieces != [] && Concat(pieces) == secret
    && (forall i :: 0 <= i < |pieces| - 1 ==> |pieces[i]| == width)
    && 0 < |pieces[|pieces| - 1]| <= width
  }

  lemma {:induction false} AllShort(pieces: seq<Bytes>, n: nat)
    requires forall p :: p in pieces ==> |p| < n
    ensures Shorter(pieces, n) == pieces
  {
    if pieces != [] { AllShort(pieces[..|pieces| - 1], n); }
  }

  lemma {:induction false} NoneShort(pieces: seq<Bytes>, n: nat)
    requires forall p :: p in pieces ==> |p| >= n
    ensures Shorter(pieces, n) == []
  {
    if pieces != [] { NoneShort(pieces[..|pieces| - 1], n); }
  }

  /** Wide lines are dropped but for a last one that is too short. */
  lemma WideIsDropped(pieces: seq<Bytes>, n: nat)
    requires pieces != [] && forall i :: 0 <= i < |pieces| - 1 ==> |pieces[i]| >= n
    ensures Shorter(pieces, n) == if |pieces[|pieces| - 1]| < n then [pieces[|pieces| - 1]] else []
  {
    NoneShort(pieces[..|pieces| - 1], n);
  }

  lemma ShortIsSafe(text: Bytes, secret: Bytes)
    requires |text| < LeakLength(secret)
    ensures !Leaks(text, secret)
  {
  }

  lemma WholeLeaks(secret: Bytes)
    ensures Leaks(secret, secret)
  {
    assert secret[0..|secret|] == secret;
    assert At(secret, secret, 0);
    PartLeaksIff(secret, secret);
  }

  /** A secret on one line that a tool wrapped at `width` and that is put together
      again from what the filter kept: it leaks exactly when the lines are
      shorter than what counts as a leak. Then the text comes through whole. */
  lemma WrappedLeaksIff(secret: Bytes, pieces: seq<Bytes>, width: nat)
    requires OneLine(secret) && Fills(secret, pieces, width)
    ensures var kept := Kept(Split(Join(pieces)), secret);
      && (Leaks(Flat(Join(kept)), secret) <==> width < LeakLength(secret))
      && (width < LeakLength(secret) ==> kept == pieces && Flat(Join(kept)) == secret)
    ensures width < LeakLength(secret) ==> Redacted(Join(pieces), secret) == Trim(Join(pieces))
  {
    hide Leaks, Contains, Join, Split, Kept, Flat, Trim, Concat, Shorter;
    var n, last := LeakLength(secret), pieces[|pieces| - 1];
    forall p | p in pieces ensures OneLine(p) && |p| <= width {
      PieceIsPart(pieces, p);
      PartOfLine(secret, p);
    }
    WrappedKept(secret, pieces);
    if width < n {
      AllShort(pieces, n);
      FlatOfJoin(pieces);
      WholeLeaks(secret);
    } else {
      WideIsDropped(pieces, n);
      var kept := Shorter(pieces, n);
      PieceIsPart(pieces, last);
      PartOfLine(secret, last);
      FlatOfJoin(kept);
      OnePiece(last);
      ShortIsSafe(Concat(kept), secret);
    }
  }

  lemma OnePiece(p: Bytes)
    ensures Concat([p]) == p && Concat([]) == []
  {
    assert [p][..0] == [];
  }
}
