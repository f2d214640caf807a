/** Strings as the parsers use them: split, join, decimal numbers, runs of characters. */
module Text {
  import opened Results

  // ---------------------------------------------------------------------------------------
  // Split and join
  // ---------------------------------------------------------------------------------------

  function Split(s: string, sep: char): (parts: seq<string>)
    ensures |parts| >= 1
  {
    if s == "" then [""]
    else
      var rest := Split(s[1..], sep);
      if s[0] == sep then [""] + rest else [[s[0]] + rest[0]] + rest[1..]
  }

  function Join(parts: seq<string>, sep: char): string {
    if parts == [] then "" else if |parts| == 1 then parts[0] else parts[0] + [sep] + Join(parts[1..], sep)
  }

  lemma Regroup(a: string, s: string, b: string, t: string, c: string)
    ensures a + s + b + t + c == a + s + (b + t + c)
  {
    assert a + s + b + t + c == a + s + b + (t + c);
    assert b + t + c == b + (t + c);
  }

  predicate Free(s: string, sep: char) {
    sep !in s
  }

  lemma {:induction false} SplitFree(s: string, sep: char)
    requires Free(s, sep)
    ensures Split(s, sep) == [s]
  {
    if s != "" {
      SplitFree(s[1..], sep);
      assert s == [s[0]] + s[1..];
    }
  }

  lemma TailOf(a: string, b: string, sep: char)
    requires a != ""
    ensures (a + [sep] + b)[0] == a[0] && (a + [sep] + b)[1..] == a[1..] + [sep] + b
  {
  }

  /** Splitting at a separator in the middle. */
  lemma {:induction false} SplitAppend(a: string, b: string, sep: char)
    ensures Split(a + [sep] + b, sep) == Split(a, sep) + Split(b, sep)
  {
    if a == "" {
      assert ("" + [sep] + b)[1..] == b;
    } else {
      SplitAppend(a[1..], b, sep);
      TailOf(a, b, sep);
      GrowFirst(Split(a[1..], sep), Split(b, sep), a[0]);
      assert [""] + (Split(a[1..], sep) + Split(b, sep)) == ([""] + Split(a[1..], sep)) + Split(b, sep);
    }
  }

  lemma SplitCons(a: string, b: string, sep: char)
    requires Free(a, sep)
    ensures Split(a + [sep] + b, sep) == [a] + Split(b, sep)
  {
    SplitFree(a, sep);
    SplitAppend(a, b, sep);
  }

  lemma GrowFirst(l: seq<string>, r: seq<string>, c: char)
    requires l != []
    ensures [[c] + (l + r)[0]] + (l + r)[1..] == ([[c] + l[0]] + l[1..]) + r
  {
    assert (l + r)[1..] == l[1..] + r;
  }

  lemma {:induction false} JoinSplit(s: string, sep: char)
    ensures Join(Split(s, sep), sep) == s
  {
    if s != "" {
      JoinSplit(s[1..], sep);
      var rest := Split(s[1..], sep);
      var parts := Split(s, sep);
      if s[0] == sep {
        assert parts[1..] == rest;
        assert s == "" + [sep] + s[1..];
      } else {
        assert parts[1..] == rest[1..];
        assert s == [s[0]] + s[1..];
      }
    }
  }

  lemma {:induction false} SplitParts(s: string, sep: char)
    ensures forall i :: 0 <= i < |Split(s, sep)| ==> Free(Split(s, sep)[i], sep)
  {
    if s != "" {
      SplitParts(s[1..], sep);
      var rest := Split(s[1..], sep);
      assert Free(rest[0], sep);
      var parts := Split(s, sep);
      forall i | 0 <= i < |parts| ensures Free(parts[i], sep) {
        if i > 0 { assert parts[i] == rest[if s[0] == sep then i - 1 else i]; }
      }
    }
  }

  lemma {:induction false} SplitJoin(parts: seq<string>, sep: char)
    requires parts != [] && forall i :: 0 <= i < |parts| ==> Free(parts[i], sep)
    ensures Split(Join(parts, sep), sep) == parts
  {
    SplitFree(parts[0], sep);
    if |parts| > 1 {
      SplitJoin(parts[1..], sep);
      SplitAppend(parts[0], Join(parts[1..], sep), sep);
      assert parts == [parts[0]] + parts[1..];
    }
  }

  function Occurrences(s: string, c: char): nat {
    if s == "" then 0 else (if s[0] == c then 1 else 0) + Occurrences(s[1..], c)
  }

  lemma {:induction false} OccurrencesAppend(a: string, b: string, c: char)
    ensures Occurrences(a + b, c) == Occurrences(a, c) + Occurrences(b, c)
  {
    if a == "" {
      assert a + b == b;
    } else {
      OccurrencesAppend(a[1..], b, c);
      assert (a + b)[1..] == a[1..] + b;
    }
  }

  lemma {:induction false} OccurrencesFree(s: string, c: char)
    ensures Free(s, c) <==> Occurrences(s, c) == 0
  {
    if s != "" {
      OccurrencesFree(s[1..], c);
      assert s == [s[0]] + s[1..];
    }
  }

  lemma {:induction false} SplitLength(s: string, sep: char)
    ensures |Split(s, sep)| == Occurrences(s, sep) + 1
  {
    if s != "" {
      SplitLength(s[1..], sep);
    }
  }

  // ---------------------------------------------------------------------------------------
  // Characters
  // ---------------------------------------------------------------------------------------

  predicate IsDigit(c: char) {
    '0' <= c <= '9'
  }

  /** The class `\w` of the version patterns. */
  predicate IsWord(c: char) {
    IsDigit(c) || 'a' <= c <= 'z' || 'A' <= c <= 'Z' || c == '_'
  }

  predicate Digits(s: string) {
    s != "" && forall i :: 0 <= i < |s| ==> IsDigit(s[i])
  }

  predicate Word(s: string) {
    s != "" && forall i :: 0 <= i < |s| ==> IsWord(s[i])
  }

  /** Length of the longest prefix whose characters satisfy `p`. */
  function Span(s: string, p: char -> bool): (n: nat)
    ensures n <= |s| && (forall i :: 0 <= i < n ==> p(s[i])) && (n < |s| ==> !p(s[n]))
  {
    if s == "" || !p(s[0]) then 0 else 1 + Span(s[1..], p)
  }

  // ---------------------------------------------------------------------------------------
  // Decimal numbers: strconv.Atoi and %d on 64-bit integers
  // ---------------------------------------------------------------------------------------

  const MAX_INT := 0x7FFF_FFFF_FFFF_FFFF
  const MIN_INT := -0x8000_0000_0000_0000

  function Value(s: string): nat
    requires forall i :: 0 <= i < |s| ==> IsDigit(s[i])
  {
    if s == "" then 0
    else
      assert IsDigit(s[|s| - 1]);
      10 * Value(s[..|s| - 1]) + (s[|s| - 1] as int - '0' as int)
  }

  function Atoi(s: string): Result<int> {
    var signed := s != "" && (s[0] == '-' || s[0] == '+');
    var body := if signed then s[1..] else s;
    if !Digits(body) then Err(NotANumber)
    else
      var v: int := if signed && s[0] == '-' then 0 - Value(body) else Value(body);
      if MIN_INT <= v <= MAX_INT then Ok(v) else Err(NotANumber)
  }

  function Digit(d: nat): char
    requires d < 10
  {
    ('0' as int + d) as char
  }

  function ItoaNat(n: nat): string {
    if n < 10 then [Digit(n)] else ItoaNat(n / 10) + [Digit(n % 10)]
  }

  function Itoa(n: int): string {
    if n < 0 then "-" + ItoaNat(-n) else ItoaNat(n)
  }

  lemma {:induction false} ItoaNatDigits(n: nat)
    ensures Digits(ItoaNat(n)) && Value(ItoaNat(n)) == n
  {
    if n < 10 {
      assert ItoaNat(n)[..0] == "";
      assert Value("") == 0;
    } else {
      ItoaNatDigits(n / 10);
      var s := ItoaNat(n);
      assert s[..|s| - 1] == ItoaNat(n / 10);
    }
  }

  /** Numbers within the integer range survive printing and parsing; a printed non-negative one is all digits. */
  lemma AtoiItoa(n: int)
    requires MIN_INT <= n <= MAX_INT
    ensures Atoi(Itoa(n)) == Ok(n)
    ensures n >= 0 ==> Digits(Itoa(n))
  {
    ItoaNatDigits(if n < 0 then -n else n);
    if n < 0 {
      assert Itoa(n)[1..] == ItoaNat(-n);
    } else {
      assert IsDigit(Itoa(n)[0]);
    }
  }

  /** What Atoi accepts without a minus sign is not negative and has no dot. */
  lemma AtoiAccepts(s: string)
    requires Atoi(s).Ok?
    ensures Free(s, '.')
    ensures Free(s, '-') ==> 0 <= Atoi(s).value <= MAX_INT
  {
    if s[0] == '-' || s[0] == '+' {
      assert s == [s[0]] + s[1..];
    }
  }

  lemma ClassesFree(s: string, sep: char)
    requires Word(s) || Digits(s)
    requires !IsWord(sep)
    ensures Free(s, sep)
  {
  }
}
