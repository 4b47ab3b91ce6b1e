/** How the agent names what it writes (collector.py): the per-machine
    folder derived from host and user names, and the per-run file name
    derived from the local clock. */
module Namer {
  import opened Text
  import opened Options

  /** The characters the agent deletes from a folder name: those Windows
      refuses in a path segment. */
  const Forbidden: set<char> := {'<', '>', ':', '"', '/', '\\', '|', '?', '*'}

  predicate Clean(s: string) {
    forall k :: 0 <= k < |s| ==> s[k] !in Forbidden
  }

  /** Every forbidden character deleted, the others kept in order. */
  function DropForbidden(s: string): (r: string)
    ensures Clean(r)
    ensures |r| <= |s|
  {
    if s == [] then []
    else (if s[0] in Forbidden then [] else [s[0]]) + DropForbidden(s[1..])
  }

  /** What is kept is the input with characters deleted, never reordered. */
  lemma {:induction false} DropForbiddenIsSubseq(s: string)
    ensures IsSubseq(DropForbidden(s), s)
  {
    if s != [] {
      DropForbiddenIsSubseq(s[1..]);
      if s[0] !in Forbidden {
        assert DropForbidden(s)[1..] == DropForbidden(s[1..]);
      } else {
        var r := DropForbidden(s);
        assert r == DropForbidden(s[1..]);
        if r != [] {
          assert r[0] != s[0];
        }
      }
    }
  }

  /** Every permitted character survives as often as it occurs, and no
      forbidden one does. */
  lemma {:induction false} DropForbiddenCounts(s: string, c: char)
    ensures multiset(DropForbidden(s))[c] == if c in Forbidden then 0 else multiset(s)[c]
  {
    if s != [] {
      DropForbiddenCounts(s[1..], c);
      assert s == [s[0]] + s[1..];
      assert multiset(s) == multiset{s[0]} + multiset(s[1..]);
    } else {
      assert multiset(DropForbidden(s)) == multiset{};
    }
  }

  /** A name without forbidden characters passes unchanged. */
  lemma {:induction false} DropForbiddenOfClean(s: string)
    requires Clean(s)
    ensures DropForbidden(s) == s
  {
    if s != [] {
      DropForbiddenOfClean(s[1..]);
    }
  }

  /** Cleaning twice is cleaning once. */
  lemma DropForbiddenIdempotent(s: string)
    ensures DropForbidden(DropForbidden(s)) == DropForbidden(s)
  {
    DropForbiddenOfClean(DropForbidden(s));
  }

  /** Cleaning works piece by piece. */
  lemma {:induction false} DropForbiddenConcat(a: string, b: string)
    ensures DropForbidden(a + b) == DropForbidden(a) + DropForbidden(b)
  {
    if a != [] {
      assert (a + b)[1..] == a[1..] + b;
      DropForbiddenConcat(a[1..], b);
    } else {
      assert a + b == b;
    }
  }

  /** The machine folder: "<host>-<user>" with the forbidden characters
      deleted (collector.py:136-138). */
  function FolderName(host: string, user: string): (r: string)
    ensures Clean(r)
  {
    DropForbidden(host + "-" + user)
  }

  /** The folder name is the two names, each cleaned, around the hyphen. */
  lemma FolderNameParts(host: string, user: string)
    ensures FolderName(host, user) == DropForbidden(host) + "-" + DropForbidden(user)
  {
    var h := "-";
    calc {
      FolderName(host, user);
      DropForbidden(host + h + user);
      { assert host + h + user == host + (h + user); }
      DropForbidden(host + (h + user));
      { DropForbiddenConcat(host, h + user); }
      DropForbidden(host) + DropForbidden(h + user);
      { DropForbiddenConcat(h, user); }
      DropForbidden(host) + (DropForbidden(h) + DropForbidden(user));
      { HyphenKept(); }
      DropForbidden(host) + h + DropForbidden(user);
    }
  }

  lemma HyphenKept()
    ensures DropForbidden("-") == "-"
  {
    assert "-"[0] !in Forbidden && "-"[1..] == [];
  }

  /** The folder name keeps its hyphen, so it is never empty and never the
      "." or ".." of a path, and it holds no path separator. */
  lemma FolderNameIsSegment(host: string, user: string)
    ensures '-' in FolderName(host, user)
    ensures FolderName(host, user) !in {"", ".", ".."}
    ensures '/' !in FolderName(host, user) && '\\' !in FolderName(host, user)
  {
    FolderNameParts(host, user);
    HyphenJoinIsSegment(DropForbidden(host), DropForbidden(user));
  }

  lemma HyphenJoinIsSegment(a: string, b: string)
    requires Clean(a) && Clean(b)
    ensures var r := a + "-" + b;
      && '-' in r && r !in {"", ".", ".."}
      && '/' !in r && '\\' !in r
  {
    var r := a + "-" + b;
    assert r[|a|] == '-';
    assert '/' in Forbidden && '\\' in Forbidden;
    assert forall k :: 0 <= k < |r| ==> r[k] == '-' || r[k] !in Forbidden;
  }

  // ------------------------------------------------------------ file name

  /** A local wall-clock reading, as `datetime.now()` gives it. */
  datatype Timestamp = Timestamp(year: int, month: int, day: int, hour: int, minute: int, second: int)

  predicate IsLeapYear(y: int) {
    y % 4 == 0 && (y % 100 != 0 || y % 400 == 0)
  }

  function DaysInMonth(y: int, m: int): int
    requires 1 <= m <= 12
  {
    if m == 2 then (if IsLeapYear(y) then 29 else 28)
    else if m in {4, 6, 9, 11} then 30
    else 31
  }

  /** A real date and time whose year has four digits. */
  predicate ValidTimestamp(t: Timestamp) {
    && 1000 <= t.year <= 9999
    && 1 <= t.month <= 12
    && 1 <= t.day <= DaysInMonth(t.year, t.month)
    && 0 <= t.hour < 24 && 0 <= t.minute < 60 && 0 <= t.second < 60
  }

  function Pow10(w: nat): nat {
    if w == 0 then 1 else 10 * Pow10(w - 1)
  }

  /** `n` written with exactly `w` digits, zero-padded on the left. */
  function Padded(n: nat, w: nat): (s: string)
    ensures |s| == w && forall k :: 0 <= k < w ==> IsDigit(s[k])
  {
    if w == 0 then [] else Padded(n / 10, w - 1) + [DigitChar(n % 10)]
  }

  /** Reading back a padded number gives the number, when it fits. */
  lemma {:induction false} PaddedRoundTrip(n: nat, w: nat)
    requires n < Pow10(w)
    ensures DecimalValue(Padded(n, w)) == n
  {
    if w > 0 {
      PaddedRoundTrip(n / 10, w - 1);
      var s := Padded(n, w);
      assert s[..|s| - 1] == Padded(n / 10, w - 1);
    }
  }

  /** Padding the value of a digit string to its own width restores it. */
  lemma {:induction false} DigitsRoundTrip(s: string)
    requires forall k :: 0 <= k < |s| ==> IsDigit(s[k])
    ensures DecimalValue(s) < Pow10(|s|)
    ensures Padded(DecimalValue(s), |s|) == s
  {
    if s != [] {
      var init := s[..|s| - 1];
      DigitsRoundTrip(init);
      var v := DecimalValue(s);
      assert v / 10 == DecimalValue(init) && v % 10 == DigitValue(s[|s| - 1]);
      assert s == init + [s[|s| - 1]];
    }
  }

  /** `strftime("%Y-%m-%d_%H-%M-%S")` (collector.py:144). */
  function FileStamp(t: Timestamp): (r: string)
    requires ValidTimestamp(t)
    ensures |r| == 19
  {
    Padded(t.year, 4) + "-" + Padded(t.month, 2) + "-" + Padded(t.day, 2) + "_"
      + Padded(t.hour, 2) + "-" + Padded(t.minute, 2) + "-" + Padded(t.second, 2)
  }

  /** The artifact name "info_<stamp>.txt" (collector.py:145). */
  function FileName(t: Timestamp): (r: string)
    requires ValidTimestamp(t)
    ensures |r| == 28 && r[..5] == "info_" && r[24..] == ".txt"
  {
    "info_" + FileStamp(t) + ".txt"
  }

  /** `strftime('%Y-%m-%d %H:%M:%S')`, the collection time printed in the
      report (collector.py:56). */
  function ClockText(t: Timestamp): (r: string)
    requires ValidTimestamp(t)
    ensures |r| == 19 && r[4] == '-' && r[7] == '-' && r[10] == ' ' && r[13] == ':' && r[16] == ':'
  {
    Padded(t.year, 4) + "-" + Padded(t.month, 2) + "-" + Padded(t.day, 2) + " "
      + Padded(t.hour, 2) + ":" + Padded(t.minute, 2) + ":" + Padded(t.second, 2)
  }

  predicate AllDigits(s: string) {
    forall k :: 0 <= k < |s| ==> IsDigit(s[k])
  }

  /** Recognises a stamp and recovers the clock reading it shows. */
  function ParseStamp(s: string): Option<Timestamp> {
    if !(&& |s| == 19
         && AllDigits(s[0..4]) && s[4] == '-' && AllDigits(s[5..7]) && s[7] == '-'
         && AllDigits(s[8..10]) && s[10] == '_' && AllDigits(s[11..13]) && s[13] == '-'
         && AllDigits(s[14..16]) && s[16] == '-' && AllDigits(s[17..19]))
    then None
    else
      var t := Timestamp(DecimalValue(s[0..4]), DecimalValue(s[5..7]), DecimalValue(s[8..10]),
                         DecimalValue(s[11..13]), DecimalValue(s[14..16]), DecimalValue(s[17..19]));
      if ValidTimestamp(t) then Some(t) else None
  }

  /** Recognises an artifact name and recovers the clock reading it was
      made from; the inverse of `FileName`. */
  function ParseFileName(name: string): Option<Timestamp> {
    if |name| != 28 || name[..5] != "info_" || name[24..] != ".txt" then None
    else ParseStamp(name[5..24])
  }

  /** The layout of a stamp, "YYYY-MM-DD_HH-MM-SS": a string is the six
      fields joined by the separators exactly when each field sits at its
      place and each separator at its own. */
  lemma StampLayout(s: string, a: string, b: string, c: string, d: string, e: string, f: string)
    requires |a| == 4 && |b| == 2 && |c| == 2 && |d| == 2 && |e| == 2 && |f| == 2
    ensures s == a + "-" + b + "-" + c + "_" + d + "-" + e + "-" + f <==>
      && |s| == 19
      && s[0..4] == a && s[4] == '-' && s[5..7] == b && s[7] == '-'
      && s[8..10] == c && s[10] == '_' && s[11..13] == d && s[13] == '-'
      && s[14..16] == e && s[16] == '-' && s[17..19] == f
  {
    var u := a + "-" + b + "-" + c + "_" + d + "-" + e + "-" + f;
    assert |u| == 19;
    assert u[0..4] == a by { forall k | 0 <= k < 4 ensures u[k] == a[k] { } }
    assert u[5..7] == b by { forall k | 0 <= k < 2 ensures u[5 + k] == b[k] { } }
    assert u[8..10] == c by { forall k | 0 <= k < 2 ensures u[8 + k] == c[k] { } }
    assert u[11..13] == d by { forall k | 0 <= k < 2 ensures u[11 + k] == d[k] { } }
    assert u[14..16] == e by { forall k | 0 <= k < 2 ensures u[14 + k] == e[k] { } }
    assert u[17..19] == f by { forall k | 0 <= k < 2 ensures u[17 + k] == f[k] { } }
    assert u[4] == '-' && u[7] == '-' && u[10] == '_' && u[13] == '-' && u[16] == '-';
    if && |s| == 19
       && s[0..4] == a && s[4] == '-' && s[5..7] == b && s[7] == '-'
       && s[8..10] == c && s[10] == '_' && s[11..13] == d && s[13] == '-'
       && s[14..16] == e && s[16] == '-' && s[17..19] == f
    {
      forall k | 0 <= k < 19
        ensures s[k] == u[k]
      {
        if k < 4 { assert s[k] == s[0..4][k] && u[k] == u[0..4][k]; }
        else if 5 <= k < 7 { assert s[k] == s[5..7][k - 5] && u[k] == u[5..7][k - 5]; }
        else if 8 <= k < 10 { assert s[k] == s[8..10][k - 8] && u[k] == u[8..10][k - 8]; }
        else if 11 <= k < 13 { assert s[k] == s[11..13][k - 11] && u[k] == u[11..13][k - 11]; }
        else if 14 <= k < 16 { assert s[k] == s[14..16][k - 14] && u[k] == u[14..16][k - 14]; }
        else if 17 <= k { assert s[k] == s[17..19][k - 17] && u[k] == u[17..19][k - 17]; }
      }
      assert s == u;
    }
  }

  /** Where each field sits in a stamp. */
  lemma StampFields(t: Timestamp)
    requires ValidTimestamp(t)
    ensures var s := FileStamp(t);
      && |s| == 19
      && s[0..4] == Padded(t.year, 4) && s[4] == '-'
      && s[5..7] == Padded(t.month, 2) && s[7] == '-'
      && s[8..10] == Padded(t.day, 2) && s[10] == '_'
      && s[11..13] == Padded(t.hour, 2) && s[13] == '-'
      && s[14..16] == Padded(t.minute, 2) && s[16] == '-'
      && s[17..19] == Padded(t.second, 2)
  {
    StampLayout(FileStamp(t), Padded(t.year, 4), Padded(t.month, 2), Padded(t.day, 2),
                Padded(t.hour, 2), Padded(t.minute, 2), Padded(t.second, 2));
  }

  /** A string laid out as a stamp parses to the fields it shows, when
      they make a real date and time. */
  lemma StampOfFields(s: string)
    requires |s| == 19 && s[4] == '-' && s[7] == '-' && s[10] == '_' && s[13] == '-' && s[16] == '-'
    requires AllDigits(s[0..4]) && AllDigits(s[5..7]) && AllDigits(s[8..10])
    requires AllDigits(s[11..13]) && AllDigits(s[14..16]) && AllDigits(s[17..19])
    ensures var t := Timestamp(DecimalValue(s[0..4]), DecimalValue(s[5..7]), DecimalValue(s[8..10]),
                               DecimalValue(s[11..13]), DecimalValue(s[14..16]), DecimalValue(s[17..19]));
      ParseStamp(s) == if ValidTimestamp(t) then Some(t) else None
  {
  }

  /** The stamp of every valid clock reading parses back to it. */
  lemma StampRoundTrip(t: Timestamp)
    requires ValidTimestamp(t)
    ensures ParseStamp(FileStamp(t)) == Some(t)
  {
    var s := FileStamp(t);
    StampFields(t);
    StampOfFields(s);
    PaddedRoundTrip(t.year, 4);
    PaddedRoundTrip(t.month, 2);
    PaddedRoundTrip(t.day, 2);
    PaddedRoundTrip(t.hour, 2);
    PaddedRoundTrip(t.minute, 2);
    PaddedRoundTrip(t.second, 2);
  }

  /** The file name of every valid clock reading parses back to it. */
  lemma FileNameRoundTrip(t: Timestamp)
    requires ValidTimestamp(t)
    ensures ParseFileName(FileName(t)) == Some(t)
  {
    var name := FileName(t);
    StampFields(t);
    assert name[..5] == "info_" && name[24..] == ".txt" && name[5..24] == FileStamp(t);
    StampRoundTrip(t);
  }

  /** What a stamp that parses is made of. */
  lemma ParsedStampFields(s: string)
    requires ParseStamp(s).Some?
    ensures |s| == 19 && s[4] == '-' && s[7] == '-' && s[10] == '_' && s[13] == '-' && s[16] == '-'
    ensures AllDigits(s[0..4]) && AllDigits(s[5..7]) && AllDigits(s[8..10])
    ensures AllDigits(s[11..13]) && AllDigits(s[14..16]) && AllDigits(s[17..19])
    ensures ParseStamp(s).value == Timestamp(DecimalValue(s[0..4]), DecimalValue(s[5..7]),
      DecimalValue(s[8..10]), DecimalValue(s[11..13]), DecimalValue(s[14..16]), DecimalValue(s[17..19]))
    ensures ValidTimestamp(ParseStamp(s).value)
  {
  }

  /** Only stamps parse, and each is the stamp of what it parses to. */
  lemma ParseStampSound(s: string)
    requires ParseStamp(s).Some?
    ensures ValidTimestamp(ParseStamp(s).value)
    ensures FileStamp(ParseStamp(s).value) == s
  {
    ParsedStampFields(s);
    var t := ParseStamp(s).value;
    DigitsRoundTrip(s[0..4]);
    DigitsRoundTrip(s[5..7]);
    DigitsRoundTrip(s[8..10]);
    DigitsRoundTrip(s[11..13]);
    DigitsRoundTrip(s[14..16]);
    DigitsRoundTrip(s[17..19]);
    StampLayout(s, s[0..4], s[5..7], s[8..10], s[11..13], s[14..16], s[17..19]);
  }

  /** Only artifact names parse, and each is the name of what it parses to. */
  lemma ParseFileNameSound(name: string)
    requires ParseFileName(name).Some?
    ensures ValidTimestamp(ParseFileName(name).value)
    ensures FileName(ParseFileName(name).value) == name
  {
    var s := name[5..24];
    ParseStampSound(s);
    assert name == name[..5] + s + name[24..];
  }

  /** Two runs at different seconds write two different files. */
  lemma FileNameInjective(t: Timestamp, u: Timestamp)
    requires ValidTimestamp(t) && ValidTimestamp(u)
    requires t != u
    ensures FileName(t) != FileName(u)
  {
    FileNameRoundTrip(t);
    FileNameRoundTrip(u);
  }

  /** An artifact name is a single safe path segment: no forbidden
      character (so no separator), and neither "." nor "..". */
  lemma FileNameIsSegment(t: Timestamp)
    requires ValidTimestamp(t)
    ensures Clean(FileName(t))
    ensures |FileName(t)| == 28 && FileName(t) !in {"", ".", ".."}
  {
    var name := FileName(t);
    forall k | 0 <= k < |name|
      ensures name[k] !in Forbidden
    {
      if 5 <= k < 24 {
        var s := FileStamp(t);
        assert name[k] == s[k - 5];
      }
    }
  }
}
