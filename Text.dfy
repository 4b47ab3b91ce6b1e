/** Python string behaviour the collector and the archive rely on: `str.strip`,
    `str.splitlines`, `str.join`, decimal formatting of integers, and the
    code-point order that `sorted` applies to strings. */
module Text {

  /** `c.isspace()` in Python: the characters of Unicode category Zs or of
      bidirectional class WS, B or S. */
  predicate IsSpace(c: char) {
    || '\U{0009}' <= c <= '\U{000D}'
    || '\U{001C}' <= c <= '\U{0020}'
    || c == '\U{0085}' || c == '\U{00A0}' || c == '\U{1680}'
    || '\U{2000}' <= c <= '\U{200A}'
    || c == '\U{2028}' || c == '\U{2029}' || c == '\U{202F}' || c == '\U{205F}' || c == '\U{3000}'
  }

  /** The characters at which `str.splitlines` breaks a string. */
  predicate IsLineBreak(c: char) {
    || c == '\n' || c == '\r' || c == '\U{000B}' || c == '\U{000C}'
    || c == '\U{001C}' || c == '\U{001D}' || c == '\U{001E}'
    || c == '\U{0085}' || c == '\U{2028}' || c == '\U{2029}'
  }

  /** `a` is `b` with some elements deleted and the rest kept in order. */
  predicate IsSubseq<T(==)>(a: seq<T>, b: seq<T>)
    decreases |b|
  {
    if a == [] then true
    else if b == [] then false
    else if a[0] == b[0] then IsSubseq(a[1..], b[1..])
    else IsSubseq(a, b[1..])
  }

  /** A subsequence of the tail is a subsequence of the whole. */
  lemma {:induction false} IsSubseqDropHead<T>(a: seq<T>, b: seq<T>)
    requires b != [] && IsSubseq(a, b[1..])
    ensures IsSubseq(a, b)
    decreases |b|, 0
  {
    if a != [] && a[0] == b[0] {
      IsSubseqShrink(a, b[1..]);
    }
  }

  /** Dropping the first element of a subsequence keeps it one. */
  lemma {:induction false} IsSubseqShrink<T>(a: seq<T>, b: seq<T>)
    requires a != [] && IsSubseq(a, b)
    ensures IsSubseq(a[1..], b)
    decreases |b|, 1
  {
    if a[0] == b[0] {
      IsSubseqDropHead(a[1..], b);
    } else {
      IsSubseqShrink(a, b[1..]);
      IsSubseqDropHead(a[1..], b);
    }
  }

  // ---------------------------------------------------------------- strip

  /** How many whitespace characters `s` starts with. */
  function Leading(s: string): (i: nat)
    ensures i <= |s|
    ensures forall k :: 0 <= k < i ==> IsSpace(s[k])
    ensures i < |s| ==> !IsSpace(s[i])
  {
    if s == [] || !IsSpace(s[0]) then 0 else 1 + Leading(s[1..])
  }

  /** Where the trailing whitespace of `s` begins. */
  function Trailing(s: string): (j: nat)
    ensures j <= |s|
    ensures forall k :: j <= k < |s| ==> IsSpace(s[k])
    ensures 0 < j ==> !IsSpace(s[j - 1])
  {
    if s == [] || !IsSpace(s[|s| - 1]) then |s| else Trailing(s[..|s| - 1])
  }

  /** `s.strip()`: leading and trailing whitespace removed. */
  function Strip(s: string): (r: string)
    ensures |r| <= |s|
    ensures Leading(s) + |r| <= |s| && r == s[Leading(s)..Leading(s) + |r|]
  {
    var i := Leading(s);
    s[i..i + Trailing(s[i..])]
  }

  /** The stripped string is a contiguous piece of `s` that neither starts
      nor ends with whitespace, and only whitespace was cut on either side. */
  lemma StripIsCore(s: string)
    ensures var r := Strip(s); var i := Leading(s);
      && i + |r| <= |s| && r == s[i..i + |r|]
      && (forall k :: 0 <= k < i ==> IsSpace(s[k]))
      && (forall k :: i + |r| <= k < |s| ==> IsSpace(s[k]))
      && (r != [] ==> !IsSpace(r[0]) && !IsSpace(r[|r| - 1]))
  {
    StripCutsSpace(s);
    StripEdges(s);
  }

  lemma StripCutsSpace(s: string)
    ensures var r := Strip(s); var i := Leading(s);
      forall k :: i + |r| <= k < |s| ==> IsSpace(s[k])
  {
    var i := Leading(s);
    var t := s[i..];
    forall k | i + Trailing(t) <= k < |s|
      ensures IsSpace(s[k])
    {
      assert s[k] == t[k - i];
    }
  }

  lemma StripEdges(s: string)
    ensures var r := Strip(s); r != [] ==> !IsSpace(r[0]) && !IsSpace(r[|r| - 1])
  {
    var i := Leading(s);
    var t := s[i..];
    var j := Trailing(t);
    if j > 0 {
      assert s[i..i + j][0] == t[0] && s[i..i + j][j - 1] == t[j - 1];
    }
  }

  lemma {:induction false} LeadingOfTrimmed(s: string)
    requires s == [] || !IsSpace(s[0])
    ensures Leading(s) == 0
  {
  }

  lemma {:induction false} TrailingOfTrimmed(s: string)
    requires s == [] || !IsSpace(s[|s| - 1])
    ensures Trailing(s) == |s|
  {
  }

  /** Stripping twice is stripping once. */
  lemma {:induction false} StripIdempotent(s: string)
    ensures Strip(Strip(s)) == Strip(s)
  {
    var r := Strip(s);
    StripIsCore(s);
    LeadingOfTrimmed(r);
    assert r[0..] == r;
    TrailingOfTrimmed(r);
  }

  /** `s.strip()` is empty exactly when `s` is all whitespace. */
  lemma {:induction false} StripEmptyIff(s: string)
    ensures Strip(s) == [] <==> forall k :: 0 <= k < |s| ==> IsSpace(s[k])
  {
    if !forall k :: 0 <= k < |s| ==> IsSpace(s[k]) {
      StripIsCore(s);
    }
  }

  // ----------------------------------------------------------- splitlines

  /** Index of the first line break in `s`, or `|s|` if there is none. */
  function FirstBreak(s: string): (i: nat)
    ensures i <= |s|
    ensures forall k :: 0 <= k < i ==> !IsLineBreak(s[k])
    ensures i < |s| ==> IsLineBreak(s[i])
  {
    if s == [] || IsLineBreak(s[0]) then 0 else 1 + FirstBreak(s[1..])
  }

  /** `s.splitlines()`: "\r\n" is one break, and a break at the very end
      does not open an empty last line. */
  function SplitLines(s: string): (lines: seq<string>)
    ensures forall j, k :: 0 <= j < |lines| && 0 <= k < |lines[j]| ==> !IsLineBreak(lines[j][k])
    ensures s == [] <==> lines == []
    decreases |s|
  {
    if s == [] then []
    else
      var i := FirstBreak(s);
      if i == |s| then [s]
      else [s[..i]] + SplitLines(s[BreakEnd(s, i)..])
  }

  /** Where the line break at `i` ends: "\r\n" is one break of two
      characters, every other break is one character. */
  function BreakEnd(s: string, i: nat): (j: nat)
    requires i < |s|
    ensures i < j <= |s|
    ensures j == i + 2 <==> s[i] == '\r' && i + 1 < |s| && s[i + 1] == '\n'
    ensures j == i + 1 || j == i + 2
  {
    if s[i] == '\r' && i + 1 < |s| && s[i + 1] == '\n' then i + 2 else i + 1
  }

  /** `s` with every line-break character deleted. */
  function Unbroken(s: string): string {
    if s == [] then [] else (if IsLineBreak(s[0]) then [] else [s[0]]) + Unbroken(s[1..])
  }

  /** The lines written one after the other. */
  function Concat(lines: seq<string>): string {
    if lines == [] then [] else lines[0] + Concat(lines[1..])
  }

  lemma {:induction false} UnbrokenAppend(a: string, b: string)
    ensures Unbroken(a + b) == Unbroken(a) + Unbroken(b)
  {
    if a == [] {
      assert a + b == b;
    } else {
      assert (a + b)[1..] == a[1..] + b;
      UnbrokenAppend(a[1..], b);
    }
  }

  lemma {:induction false} UnbrokenOfLine(s: string)
    requires forall k :: 0 <= k < |s| ==> !IsLineBreak(s[k])
    ensures Unbroken(s) == s
  {
    if s != [] {
      UnbrokenOfLine(s[1..]);
    }
  }

  /** The lines are the pieces of text between the breaks: written one
      after the other they are the text with its break characters deleted. */
  lemma {:induction false} SplitLinesKeepsText(s: string)
    ensures Concat(SplitLines(s)) == Unbroken(s)
    decreases |s|
  {
    if s != [] {
      var i := FirstBreak(s);
      if i == |s| {
        UnbrokenOfLine(s);
      } else {
        var rest := s[BreakEnd(s, i)..];
        SplitLinesKeepsText(rest);
        UnbrokenAtBreak(s);
        var lines := SplitLines(s);
        assert lines == [s[..i]] + SplitLines(rest);
        assert lines[1..] == SplitLines(rest);
      }
    }
  }

  /** Deleting the breaks of a text with a break: the first line, then
      the rest after that break with its breaks deleted. */
  lemma UnbrokenAtBreak(s: string)
    requires s != [] && FirstBreak(s) < |s|
    ensures var i := FirstBreak(s);
      Unbroken(s) == s[..i] + Unbroken(s[BreakEnd(s, i)..])
  {
    var i := FirstBreak(s);
    var j := BreakEnd(s, i);
    BreakUnbroken(s, i);
    ThreePieces(s, i, j);
    UnbrokenPieces(s[..i], s[i..j], s[j..]);
  }

  lemma ThreePieces<T>(s: seq<T>, i: nat, j: nat)
    requires i <= j <= |s|
    ensures s == s[..i] + (s[i..j] + s[j..])
  {
  }

  lemma UnbrokenPieces(line: string, brk: string, rest: string)
    requires forall k :: 0 <= k < |line| ==> !IsLineBreak(line[k])
    requires Unbroken(brk) == []
    ensures Unbroken(line + (brk + rest)) == line + Unbroken(rest)
  {
    UnbrokenOfLine(line);
    UnbrokenAppend(line, brk + rest);
    UnbrokenAppend(brk, rest);
  }

  /** A line break, one or two characters long, leaves nothing. */
  lemma BreakUnbroken(s: string, i: nat)
    requires i < |s| && IsLineBreak(s[i])
    ensures Unbroken(s[i..BreakEnd(s, i)]) == []
  {
    var brk := s[i..BreakEnd(s, i)];
    if |brk| == 2 {
      var tail := brk[1..];
      assert IsLineBreak(brk[0]) && IsLineBreak(tail[0]) && tail[1..] == [];
      assert Unbroken(tail) == [];
    } else {
      assert brk == [s[i]];
    }
  }

  /** Text whose only line breaks are '\n'. */
  predicate NewlinesOnly(s: string) {
    forall k :: 0 <= k < |s| && IsLineBreak(s[k]) ==> s[k] == '\n'
  }

  /** `s` without one final '\n'. */
  function Unterminated(s: string): string {
    if s != [] && s[|s| - 1] == '\n' then s[..|s| - 1] else s
  }

  /** For text whose only breaks are '\n', joining the lines with "\n"
      gives the text back, less one final '\n'. */
  lemma {:induction false} SplitLinesJoin(s: string)
    requires NewlinesOnly(s)
    ensures Join(SplitLines(s), "\n") == Unterminated(s)
    decreases |s|
  {
    if s != [] {
      var i := FirstBreak(s);
      if i < |s| {
        var rest := s[i + 1..];
        NewlineSplit(s, i);
        if rest == [] {
          assert SplitLines(s) == [s[..i]];
        } else {
          NewlinesOnlySuffix(s, i + 1);
          SplitLinesJoin(rest);
          JoinCons(s[..i], SplitLines(rest), "\n");
          UnterminatedAppend(s[..i] + "\n", rest);
        }
      }
    }
  }

  /** At a '\n' the text splits into the first line, the break, and the
      rest, and the lines are the first line and the rest's lines. */
  lemma NewlineSplit(s: string, i: nat)
    requires NewlinesOnly(s) && s != [] && i == FirstBreak(s) < |s|
    ensures BreakEnd(s, i) == i + 1
    ensures s == s[..i] + "\n" + s[i + 1..]
    ensures SplitLines(s) == [s[..i]] + SplitLines(s[i + 1..])
  {
    NewlineAt(s, i);
    ThreePieces(s, i, i + 1);
    assert s[i..i + 1] == "\n";
  }

  lemma NewlinesOnlySuffix(s: string, j: nat)
    requires NewlinesOnly(s) && j <= |s|
    ensures NewlinesOnly(s[j..])
  {
    var rest := s[j..];
    forall k | 0 <= k < |rest| && IsLineBreak(rest[k]) ensures rest[k] == '\n' {
      assert rest[k] == s[j + k];
    }
  }

  lemma NewlineAt(s: string, k: nat)
    requires NewlinesOnly(s) && k < |s| && IsLineBreak(s[k])
    ensures s[k] == '\n'
  {
  }

  lemma JoinCons(a: string, rest: seq<string>, sep: string)
    requires rest != []
    ensures Join([a] + rest, sep) == a + sep + Join(rest, sep)
  {
    assert ([a] + rest)[1..] == rest;
  }

  lemma UnterminatedAppend(a: string, b: string)
    requires b != []
    ensures Unterminated(a + b) == a + Unterminated(b)
  {
    if b[|b| - 1] == '\n' {
      assert (a + b)[..|a + b| - 1] == a + b[..|b| - 1];
    }
  }

  // ----------------------------------------------------------------- join

  /** `sep.join(parts)`. */
  function Join(parts: seq<string>, sep: string): string {
    if parts == [] then ""
    else if |parts| == 1 then parts[0]
    else parts[0] + sep + Join(parts[1..], sep)
  }

  predicate IsPrefix<T(==)>(a: seq<T>, b: seq<T>) {
    |a| <= |b| && b[..|a|] == a
  }

  /** A joined list starts with its first part. */
  lemma JoinStartsWithFirst(parts: seq<string>, sep: string)
    requires parts != []
    ensures IsPrefix(parts[0], Join(parts, sep))
  {
    if |parts| > 1 {
      var j := Join(parts, sep);
      assert j == parts[0] + (sep + Join(parts[1..], sep));
      assert j[..|parts[0]|] == parts[0];
    }
  }

  /** Joining two non-empty lists is joining each and gluing them with
      one more separator. */
  lemma {:induction false} JoinAppend(a: seq<string>, b: seq<string>, sep: string)
    requires a != [] && b != []
    ensures Join(a + b, sep) == Join(a, sep) + sep + Join(b, sep)
  {
    if |a| == 1 {
      assert a + b == [a[0]] + b;
    } else {
      assert (a + b)[1..] == a[1..] + b;
      JoinAppend(a[1..], b, sep);
    }
  }

  // -------------------------------------------------------------- decimal

  predicate IsDigit(c: char) {
    '0' <= c <= '9'
  }

  function DigitChar(d: nat): (c: char)
    requires d < 10
    ensures IsDigit(c)
  {
    ['0', '1', '2', '3', '4', '5', '6', '7', '8', '9'][d]
  }

  function DigitValue(c: char): (d: nat)
    requires IsDigit(c)
    ensures d < 10 && DigitChar(d) == c
  {
    (c as int - '0' as int) as nat
  }

  /** `str(n)` for a non-negative integer: no leading zeros. */
  function Decimal(n: nat): (s: string)
    ensures s != [] && forall k :: 0 <= k < |s| ==> IsDigit(s[k])
    ensures |s| > 1 ==> s[0] != '0'
  {
    if n < 10 then [DigitChar(n)] else Decimal(n / 10) + [DigitChar(n % 10)]
  }

  /** The number a string of digits denotes. */
  function DecimalValue(s: string): nat
    requires forall k :: 0 <= k < |s| ==> IsDigit(s[k])
  {
    if s == [] then 0 else 10 * DecimalValue(s[..|s| - 1]) + DigitValue(s[|s| - 1])
  }

  /** Reading back the decimal text of `n` gives `n`. */
  lemma {:induction false} DecimalRoundTrip(n: nat)
    ensures DecimalValue(Decimal(n)) == n
  {
    var s := Decimal(n);
    if n >= 10 {
      DecimalRoundTrip(n / 10);
      assert s[..|s| - 1] == Decimal(n / 10);
    }
  }

  // ---------------------------------------------------- code-point order

  /** `a < b` on Python strings: lexicographic on code points, a proper
      prefix coming first. */
  predicate Below(a: string, b: string) {
    if a == [] then b != []
    else if b == [] then false
    else a[0] < b[0] || (a[0] == b[0] && Below(a[1..], b[1..]))
  }

  lemma {:induction false} BelowIrreflexive(a: string)
    ensures !Below(a, a)
  {
    if a != [] {
      BelowIrreflexive(a[1..]);
    }
  }

  lemma {:induction false} BelowTransitive(a: string, b: string, c: string)
    requires Below(a, b) && Below(b, c)
    ensures Below(a, c)
  {
    if a != [] && a[0] == b[0] && b[0] == c[0] {
      BelowTransitive(a[1..], b[1..], c[1..]);
    }
  }

  /** Any two different strings are ordered one way round. */
  lemma {:induction false} BelowTotal(a: string, b: string)
    requires a != b
    ensures Below(a, b) || Below(b, a)
  {
    if a != [] && b != [] && a[0] == b[0] {
      assert a == [a[0]] + a[1..] && b == [b[0]] + b[1..];
      BelowTotal(a[1..], b[1..]);
    }
  }

  /** `m` comes before every other element of `s`. */
  predicate IsLeast(m: string, s: set<string>) {
    m in s && forall x :: x in s && x != m ==> Below(m, x)
  }

  lemma {:induction false} LeastExists(s: set<string>)
    requires s != {}
    ensures exists m :: IsLeast(m, s)
    decreases |s|
  {
    var x :| x in s;
    if s == {x} {
      assert IsLeast(x, s);
    } else {
      var rest := s - {x};
      LeastExists(rest);
      var m :| IsLeast(m, rest);
      if Below(m, x) {
        assert IsLeast(m, s);
      } else {
        BelowTotal(m, x);
        forall y | y in s && y != x
          ensures Below(x, y)
        {
          if y != m {
            BelowTransitive(x, m, y);
          }
        }
        assert IsLeast(x, s);
      }
    }
  }

  lemma LeastUnique(s: set<string>, m: string, m': string)
    requires IsLeast(m, s) && IsLeast(m', s)
    ensures m == m'
  {
    if m != m' {
      assert Below(m, m') && Below(m', m);
      BelowTransitive(m, m', m);
      BelowIrreflexive(m);
    }
  }

  function Least(s: set<string>): (m: string)
    requires s != {}
    ensures IsLeast(m, s)
  {
    LeastExists(s);
    assert forall m, m' :: IsLeast(m, s) && IsLeast(m', s) ==> m == m' by {
      forall m, m' | IsLeast(m, s) && IsLeast(m', s) ensures m == m' {
        LeastUnique(s, m, m');
      }
    }
    var m :| IsLeast(m, s);
    m
  }

  /** Strictly increasing in code-point order (so also free of duplicates). */
  predicate StrictlySorted(r: seq<string>) {
    forall i, j :: 0 <= i < j < |r| ==> Below(r[i], r[j])
  }

  /** `sorted(names)` for a collection of distinct names: exactly the
      names, in increasing order. */
  function SortedNames(s: set<string>): (r: seq<string>)
    ensures StrictlySorted(r)
    ensures forall x :: x in r <==> x in s
    ensures |r| == |s|
    decreases s
  {
    if s == {} then []
    else
      var m := Least(s);
      var rest := SortedNames(s - {m});
      assert forall j :: 0 <= j < |rest| ==> rest[j] in s - {m};
      [m] + rest
  }

  /** Only one sequence is strictly increasing and lists exactly `s`, so
      the listing is determined by the set of names alone. */
  lemma {:induction false} SortedNamesUnique(s: set<string>, r: seq<string>)
    requires StrictlySorted(r)
    requires forall x :: x in r <==> x in s
    ensures r == SortedNames(s)
    decreases |r|
  {
    if r == [] {
      assert s == {};
    } else {
      assert IsLeast(r[0], s) by {
        forall x | x in s && x != r[0]
          ensures Below(r[0], x)
        {
          var j :| 0 <= j < |r| && r[j] == x;
        }
      }
      LeastUnique(s, r[0], Least(s));
      forall x
        ensures x in r[1..] <==> x in s - {r[0]}
      {
        if x in r[1..] {
          var j :| 1 <= j < |r| && r[j] == x;
          BelowIrreflexive(r[0]);
        }
      }
      SortedNamesUnique(s - {r[0]}, r[1..]);
    }
  }

  // ------------------------------------------------------------- newlines

  /** What a file opened in text mode with universal newlines reads as:
      every "\r\n" and every lone '\r' becomes '\n'. */
  function ReadText(s: string): (r: string)
    ensures '\r' !in r
    ensures |r| <= |s|
  {
    if s == [] then []
    else if s[0] == '\r' then
      if |s| > 1 && s[1] == '\n' then "\n" + ReadText(s[2..]) else "\n" + ReadText(s[1..])
    else [s[0]] + ReadText(s[1..])
  }

  /** Text without a carriage return reads back as written, and only such
      text does. */
  lemma {:induction false} ReadTextIdentity(s: string)
    ensures ReadText(s) == s <==> '\r' !in s
  {
    if s != [] && s[0] != '\r' {
      ReadTextIdentity(s[1..]);
      assert '\r' !in s <==> '\r' !in s[1..] by {
        assert s == [s[0]] + s[1..];
      }
    }
  }

  /** What a file opened in text mode on Windows receives: every '\n'
      written goes out as "\r\n". */
  function Crlf(s: string): (r: string)
    ensures |r| == |s| + multiset(s)['\n']
  {
    if s == [] then []
    else
      assert s == [s[0]] + s[1..];
      (if s[0] == '\n' then "\r\n" else [s[0]]) + Crlf(s[1..])
  }

  /** Text without a carriage return survives a Windows write followed by
      a universal-newline read. */
  lemma {:induction false} CrlfReadBack(s: string)
    requires '\r' !in s
    ensures ReadText(Crlf(s)) == s
  {
    if s != [] {
      CrlfReadBack(s[1..]);
      var rest := Crlf(s[1..]);
      if s[0] == '\n' {
        assert ("\r\n" + rest)[2..] == rest;
      } else {
        assert ([s[0]] + rest)[1..] == rest;
      }
    }
  }
}
