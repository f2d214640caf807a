/** Versions of cluster stacks: the dashed and the dotted syntax, printing and order. */
module Versions {
  import opened Results
  import opened Text

  const STABLE := "stable"

  datatype Version = Version(major: int, channel: string, patch: string)

  /** The patterns `^v\d+(-\b\w+\b-\w+)?$` and `^v\d+(-\b\w+\b\.\w+)?$`, by the separator before the patch. */
  predicate Matches(s: string, sep: char) {
    && s != "" && s[0] == 'v'
    && var t := s[1..];
    var d := Span(t, IsDigit);
    && d > 0
    && (d == |t|
        || (t[d] == '-'
            && var u := t[d + 1..];
            var c := Span(u, IsWord);
            c > 0 && c < |u| && u[c] == sep && Word(u[c + 1..])))
  }

  function TrimV(s: string): string {
    if s != "" && s[0] == 'v' then s[1..] else s
  }

  predicate Valid(v: Version) {
    && v.major >= 0
    && (v.channel != STABLE ==>
          (Atoi(v.patch).Ok? ==> Atoi(v.patch).value >= 0) && v.patch != "")
  }

  function Checked(v: Version): Result<Version> {
    if Valid(v) then Ok(v) else Err(InvalidVersion)
  }

  /** ParseVersionString: "v1", "v1-alpha-1". */
  function ParseDashed(s: string): Result<Version> {
    if !Matches(s, '-') then Err(InvalidVersion)
    else
      var ver := Split(s, '-');
      match Atoi(TrimV(ver[0]))
      case Err(_) => Err(InvalidVersion)
      case Ok(major) =>
        if |ver| == 3 then Checked(Version(major, ver[1], ver[2])) else Checked(Version(major, STABLE, ""))
  }

  /** New: "v1", "v1-alpha.1". */
  function ParseDotted(s: string): Result<Version> {
    if !Matches(s, '.') then Err(InvalidVersion)
    else
      var ver := Split(s, '-');
      match Atoi(TrimV(ver[0]))
      case Err(_) => Err(InvalidVersion)
      case Ok(major) =>
        if |ver| == 2 then
          var cp := Split(ver[1], '.');
          if |cp| != 2 then Err(InvalidVersion) else Checked(Version(major, cp[0], cp[1]))
        else Checked(Version(major, STABLE, ""))
  }

  /** FromReleaseTag: the version at the end of a tag of five or seven parts. */
  function FromReleaseTag(tag: string): Result<Version> {
    var v := Split(tag, '-');
    if |v| != 5 && |v| != 7 then Err(InvalidVersion)
    else if |v| == 5 then ParseDashed(v[4])
    else ParseDashed(v[4] + "-" + v[5] + "-" + v[6])
  }

  function Print(v: Version, sep: char): string {
    if v.channel == STABLE then "v" + Itoa(v.major) else "v" + Itoa(v.major) + "-" + v.channel + [sep] + v.patch
  }

  /** String. */
  function Dashed(v: Version): string {
    Print(v, '-')
  }

  /** StringWithDot. */
  function Dotted(v: Version): string {
    Print(v, '.')
  }

  // ---------------------------------------------------------------------------------------
  // The patterns
  // ---------------------------------------------------------------------------------------

  function Short(d: string): string {
    "v" + d
  }

  function Long(d: string, c: string, sep: char, p: string): string {
    "v" + d + "-" + c + [sep] + p
  }

  lemma {:induction false} SpanOf(a: string, b: string, p: char -> bool)
    requires forall i :: 0 <= i < |a| ==> p(a[i])
    requires b == "" || !p(b[0])
    ensures Span(a + b, p) == |a|
  {
    if a == "" {
      assert a + b == b;
    } else {
      assert (a + b)[1..] == a[1..] + b;
      SpanOf(a[1..], b, p);
    }
  }

  lemma ShortMatches(d: string, sep: char)
    requires Digits(d)
    ensures Matches(Short(d), sep)
  {
    assert Short(d)[1..] == d;
    SpanOf(d, "", IsDigit);
    assert d + "" == d;
  }

  lemma LongMatches(d: string, c: string, sep: char, p: string)
    requires Digits(d) && Word(c) && Word(p) && !IsWord(sep)
    ensures Matches(Long(d, c, sep, p), sep)
  {
    var s := Long(d, c, sep, p);
    var t, u := s[1..], c + [sep] + p;
    assert t == d + (['-'] + u);
    SpanOf(d, ['-'] + u, IsDigit);
    assert t[|d| + 1..] == u;
    assert u == c + ([sep] + p);
    SpanOf(c, [sep] + p, IsWord);
    assert u[|c| + 1..] == p;
  }

  /** A string cut around position `n`. */
  lemma Cut(s: string, n: nat, sep: char)
    requires n < |s| && s[n] == sep
    ensures s == s[..n] + [sep] + s[n + 1..]
  {
  }

  lemma LongFrom(s: string, d: string, u: string, c: string, sep: char, p: string)
    requires s == "v" + (d + "-" + u) && u == c + [sep] + p
    ensures s == Long(d, c, sep, p)
  {
    assert "v" + (d + "-" + u) == "v" + d + "-" + u;
    Regroup("v" + d, "-", c, [sep], p);
  }

  /** The end of a long version: channel, separator, patch. */
  lemma MatchTail(u: string, sep: char) returns (c: string, p: string)
    requires var m := Span(u, IsWord); 0 < m < |u| && u[m] == sep && Word(u[m + 1..])
    ensures Word(c) && Word(p) && u == c + [sep] + p
  {
    var m := Span(u, IsWord);
    c, p := u[..m], u[m + 1..];
    Cut(u, m, sep);
  }

  /** The parts that a matching string is made of. */
  lemma MatchParts(s: string, sep: char) returns (long: bool, d: string, c: string, p: string)
    requires Matches(s, sep)
    ensures Digits(d)
    ensures if long then Word(c) && Word(p) && s == Long(d, c, sep, p) else s == Short(d)
  {
    var t := s[1..];
    assert s == "v" + t;
    var n := Span(t, IsDigit);
    d := t[..n];
    long, c, p := n < |t|, "", "";
    if long {
      var u := t[n + 1..];
      Cut(t, n, '-');
      c, p := MatchTail(u, sep);
      LongFrom(s, d, u, c, sep, p);
    } else {
      assert t == d;
    }
  }

  // ---------------------------------------------------------------------------------------
  // What the parsers answer
  // ---------------------------------------------------------------------------------------

  function Accept(d: string, channel: string, patch: string): Result<Version>
    requires Digits(d)
  {
    if Value(d) <= MAX_INT then Ok(Version(Value(d), channel, patch)) else Err(InvalidVersion)
  }

  lemma AtoiDigits(d: string)
    requires Digits(d)
    ensures Atoi(d) == if Value(d) <= MAX_INT then Ok(Value(d)) else Err(NotANumber)
  {
    assert IsDigit(d[0]);
  }

  lemma VFree(d: string, sep: char)
    requires Digits(d) && !IsWord(sep)
    ensures Free("v" + d, sep) && TrimV("v" + d) == d
  {
    assert IsWord('v');
    ClassesFree(d, sep);
  }

  lemma ParsesShort(d: string)
    requires Digits(d)
    ensures Split(Short(d), '-') == [Short(d)]
    ensures ParseDashed(Short(d)) == Accept(d, STABLE, "") && ParseDotted(Short(d)) == Accept(d, STABLE, "")
  {
    ShortMatches(d, '-');
    ShortMatches(d, '.');
    VFree(d, '-');
    SplitFree(Short(d), '-');
    AtoiDigits(d);
  }

  lemma WordPatch(p: string)
    requires Word(p)
    ensures Atoi(p).Ok? ==> Atoi(p).value >= 0
  {
    ClassesFree(p, '-');
    if Atoi(p).Ok? { AtoiAccepts(p); }
  }

  lemma LongSplits(d: string, c: string, sep: char, p: string)
    requires Digits(d) && Word(c) && Word(p) && !IsWord(sep)
    ensures Split(Long(d, c, sep, p), '-') == ["v" + d] + Split(c + [sep] + p, '-')
    ensures Split(c + [sep] + p, sep) == [c, p]
  {
    VFree(d, '-');
    Regroup("v" + d, "-", c, [sep], p);
    SplitCons("v" + d, c + [sep] + p, '-');
    ClassesFree(c, sep);
    ClassesFree(p, sep);
    SplitFree(p, sep);
    SplitCons(c, p, sep);
  }

  lemma ParsesDashed(d: string, c: string, p: string)
    requires Digits(d) && Word(c) && Word(p)
    ensures Split(Long(d, c, '-', p), '-') == ["v" + d, c, p]
    ensures ParseDashed(Long(d, c, '-', p)) == Accept(d, c, p)
  {
    LongMatches(d, c, '-', p);
    LongSplits(d, c, '-', p);
    VFree(d, '-');
    AtoiDigits(d);
    WordPatch(p);
  }

  lemma DottedTail(c: string, p: string)
    requires Word(c) && Word(p)
    ensures Split(c + "." + p, '-') == [c + "." + p]
  {
    ClassesFree(c, '-');
    ClassesFree(p, '-');
    SplitFree(c + "." + p, '-');
  }

  lemma ParsesDotted(d: string, c: string, p: string)
    requires Digits(d) && Word(c) && Word(p)
    ensures Split(Long(d, c, '.', p), '-') == ["v" + d, c + "." + p]
    ensures ParseDotted(Long(d, c, '.', p)) == Accept(d, c, p)
  {
    LongMatches(d, c, '.', p);
    LongSplits(d, c, '.', p);
    DottedTail(c, p);
    VFree(d, '-');
    AtoiDigits(d);
    WordPatch(p);
  }

  /** What either parser can return. */
  predicate Parsed(v: Version) {
    && 0 <= v.major <= MAX_INT
    && ((v.channel == STABLE && v.patch == "") || (Word(v.channel) && Word(v.patch)))
  }

  lemma DashedParserReturnsParsed(s: string)
    ensures ParseDashed(s).Ok? ==> Parsed(ParseDashed(s).value)
  {
    if Matches(s, '-') {
      var long, d, c, p := MatchParts(s, '-');
      if long { ParsesDashed(d, c, p); } else { ParsesShort(d); }
    }
  }

  lemma DottedParserReturnsParsed(s: string)
    ensures ParseDotted(s).Ok? ==> Parsed(ParseDotted(s).value)
  {
    if Matches(s, '.') {
      var long, d, c, p := MatchParts(s, '.');
      if long { ParsesDotted(d, c, p); } else { ParsesShort(d); }
    }
  }

  lemma ParsersReturnParsed(s: string)
    ensures ParseDashed(s).Ok? ==> Parsed(ParseDashed(s).value)
    ensures ParseDotted(s).Ok? ==> Parsed(ParseDotted(s).value)
  {
    DashedParserReturnsParsed(s);
    DottedParserReturnsParsed(s);
  }

  /** A stable version has no patch: the channel "stable" with a patch can be written, but is not printed back. */
  predicate Printable(v: Version) {
    Parsed(v) && (v.channel == STABLE ==> v.patch == "")
  }

  lemma PrintableParses(v: Version)
    requires Parsed(v)
    ensures ParseDashed(Dashed(v)) == ParseDotted(Dotted(v))
      == Ok(if v.channel == STABLE then Version(v.major, STABLE, "") else v)
  {
    var d := Itoa(v.major);
    AtoiItoa(v.major);
    AtoiDigits(d);
    if v.channel == STABLE {
      ParsesShort(d);
    } else {
      ParsesDashed(d, v.channel, v.patch);
      ParsesDotted(d, v.channel, v.patch);
    }
  }

  /** Round trips: both syntaxes give back exactly the printable versions. */
  lemma VersionRoundTrips(v: Version)
    ensures ParseDashed(Dashed(v)) == Ok(v) <==> Printable(v)
    ensures ParseDotted(Dotted(v)) == Ok(v) <==> Printable(v)
  {
    ParsersReturnParsed(Dashed(v));
    ParsersReturnParsed(Dotted(v));
    if Parsed(v) {
      PrintableParses(v);
    }
  }

  /** Hence neither syntax writes two printable versions alike. */
  lemma PrintingIsInjective(v: Version, w: Version)
    requires Printable(v) && Printable(w)
    ensures Dashed(v) == Dashed(w) || Dotted(v) == Dotted(w) ==> v == w
  {
    VersionRoundTrips(v);
    VersionRoundTrips(w);
  }

  /** "v1-stable.5" is accepted with a patch that printing drops. */
  lemma StablePatchIsLost(d: string, p: string)
    requires Digits(d) && Value(d) <= MAX_INT && Word(p)
    ensures ParseDotted(Long(d, STABLE, '.', p)) == Ok(Version(Value(d), STABLE, p))
    ensures ParseDotted(Dotted(Version(Value(d), STABLE, p))) == Ok(Version(Value(d), STABLE, ""))
  {
    ParsesDotted(d, STABLE, p);
    PrintableParses(Version(Value(d), STABLE, p));
  }

  /** A decimal number that fits into an integer. */
  predicate Number(d: string) {
    d != "" && (forall i :: 0 <= i < |d| ==> '0' <= d[i] <= '9') && Value(d) <= MAX_INT
  }

  predicate Letters(w: string) {
    && w != ""
    && forall i :: 0 <= i < |w| ==>
        '0' <= w[i] <= '9' || 'a' <= w[i] <= 'z' || 'A' <= w[i] <= 'Z' || w[i] == '_'
  }

  /** The string writes a major version, and a channel and a patch or neither. */
  predicate Writes(s: string, sep: char, d: string, c: string, p: string) {
    && Number(d)
    && (s == "v" + d || (Letters(c) && Letters(p) && s == "v" + d + "-" + c + [sep] + p))
  }

  function ParseBy(s: string, sep: char): Result<Version> {
    if sep == '-' then ParseDashed(s) else ParseDotted(s)
  }

  /** What is read of a string that is written so. */
  lemma WrittenIsRead(s: string, sep: char, d: string, c: string, p: string)
    requires (sep == '-' || sep == '.') && Writes(s, sep, d, c, p)
    ensures ParseBy(s, sep) == Ok(if s == "v" + d then Version(Value(d), "stable", "") else Version(Value(d), c, p))
  {
    if s == "v" + d {
      ParsesShort(d);
    } else {
      ParsesDashed(d, c, p);
      ParsesDotted(d, c, p);
    }
  }

  lemma AcceptedIsWritten(s: string, sep: char) returns (d: string, c: string, p: string)
    requires (sep == '-' || sep == '.') && ParseBy(s, sep).Ok?
    ensures Writes(s, sep, d, c, p)
  {
    var long;
    long, d, c, p := MatchParts(s, sep);
    if long {
      ParsesDashed(d, c, p);
      ParsesDotted(d, c, p);
    } else {
      ParsesShort(d);
    }
  }

  /** Exactly the strings that are written so are accepted, in either syntax. */
  lemma AcceptedIff(s: string, sep: char)
    requires sep == '-' || sep == '.'
    ensures ParseBy(s, sep).Ok? <==> exists d, c, p :: Writes(s, sep, d, c, p)
  {
    if ParseBy(s, sep).Ok? {
      var d, c, p := AcceptedIsWritten(s, sep);
    } else {
      forall d, c, p ensures !Writes(s, sep, d, c, p) {
        if Writes(s, sep, d, c, p) {
          WrittenIsRead(s, sep, d, c, p);
        }
      }
    }
  }

  // ---------------------------------------------------------------------------------------
  // Order
  // ---------------------------------------------------------------------------------------

  /** The order of Go strings: -1, 0 or 1. */
  function CompareText(a: string, b: string): int {
    if a == "" && b == "" then 0
    else if a == "" then -1
    else if b == "" then 1
    else if a[0] < b[0] then -1
    else if a[0] > b[0] then 1
    else CompareText(a[1..], b[1..])
  }

  /** Compare: versions of different channels cannot be compared. */
  function Compare(v: Version, w: Version): Option<int> {
    if v.channel != w.channel then None
    else if v.major > w.major then Some(1)
    else if v.major < w.major then Some(-1)
    else Some(CompareText(v.patch, w.patch))
  }

  lemma {:induction false} CompareTextLaws(a: string, b: string, c: string)
    ensures CompareText(a, b) in {-1, 0, 1} && CompareText(b, a) == -CompareText(a, b)
    ensures CompareText(a, b) == 0 <==> a == b
    ensures CompareText(a, b) <= 0 && CompareText(b, c) <= 0 ==> CompareText(a, c) <= 0
  {
    if a != "" && b != "" {
      CompareTextLaws(a[1..], b[1..], if c == "" then "" else c[1..]);
      assert a == [a[0]] + a[1..] && b == [b[0]] + b[1..];
    }
  }

  /** Within a channel Compare is a total order: antisymmetric, transitive, zero only on equal versions. */
  lemma CompareLaws(v: Version, w: Version, x: Version)
    requires v.channel == w.channel == x.channel
    ensures Compare(v, w).Some? && Compare(w, v).Some? && Compare(w, v).value == -Compare(v, w).value
    ensures Compare(v, w).value in {-1, 0, 1}
    ensures Compare(v, w) == Some(0) <==> v == w
    ensures Compare(v, w).value <= 0 && Compare(w, x).value <= 0 ==> Compare(v, x).value <= 0
  {
    CompareTextLaws(v.patch, w.patch, x.patch);
  }

  /** In dictionary order: where they first differ, `a` ends or has the smaller character. */
  ghost predicate TextLess(a: string, b: string) {
    exists n: nat | n <= |a| && n < |b| :: a[..n] == b[..n] && (n == |a| || a[n] < b[n])
  }

  /** `v` has the greater major, or the same and the greater patch. */
  ghost predicate Newer(v: Version, w: Version) {
    v.major > w.major || (v.major == w.major && TextLess(w.patch, v.patch))
  }

  lemma TextLessCons(c: char, a: string, b: string)
    ensures TextLess([c] + a, [c] + b) <==> TextLess(a, b)
  {
    var x, y := [c] + a, [c] + b;
    if TextLess(a, b) {
      var n: nat :| n <= |a| && n < |b| && a[..n] == b[..n] && (n == |a| || a[n] < b[n]);
      assert x[..n + 1] == [c] + a[..n] && y[..n + 1] == [c] + b[..n];
    }
    if TextLess(x, y) {
      var n: nat :| n <= |x| && n < |y| && x[..n] == y[..n] && (n == |x| || x[n] < y[n]);
      assert n > 0;
      assert x[1..] == a && y[1..] == b;
      assert a[..n - 1] == x[..n][1..] && b[..n - 1] == y[..n][1..];
    }
  }

  lemma {:induction false} CompareTextIff(a: string, b: string)
    ensures CompareText(a, b) == -1 <==> TextLess(a, b)
  {
    if a != "" && b != "" {
      assert a == [a[0]] + a[1..] && b == [b[0]] + b[1..];
      if a[0] == b[0] {
        CompareTextIff(a[1..], b[1..]);
        TextLessCons(a[0], a[1..], b[1..]);
      } else {
        assert a[0] < b[0] ==> a[..0] == b[..0];
        forall n: nat | 0 < n <= |a| && n < |b| ensures a[..n] != b[..n] {
          assert a[..n][0] != b[..n][0];
        }
      }
    } else {
      assert a[..0] == b[..0];
    }
  }

  /** What the comparison answers: the greater major, then the greater patch; nothing across channels. */
  lemma CompareIff(v: Version, w: Version)
    ensures v.channel != w.channel ==> Compare(v, w) == None
    ensures v.channel == w.channel ==>
      && (Compare(v, w) == Some(1) <==> Newer(v, w))
      && (Compare(v, w) == Some(-1) <==> Newer(w, v))
      && (Compare(v, w) == Some(0) <==> v == w)
  {
    CompareTextIff(v.patch, w.patch);
    CompareTextIff(w.patch, v.patch);
    CompareTextLaws(v.patch, w.patch, v.patch);
  }
}
