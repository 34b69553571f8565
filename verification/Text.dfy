/** The string operations of the source that the two env-file formats rely on. */
module Text {
  import opened Basics

  // --- Splitting and joining -------------------------------------------------

  /** `strings.Split(s, sep)` for a one-character separator. */
  function Split(s: string, sep: char): (parts: seq<string>)
    ensures |parts| >= 1
  {
    if s == "" then [""]
    else
      var rest := Split(s[1..], sep);
      if s[0] == sep then [""] + rest else [[s[0]] + rest[0]] + rest[1..]
  }

  /** `strings.Join(parts, sep)` for a one-character separator. */
  function Join(parts: seq<string>, sep: char): string {
    if |parts| == 0 then ""
    else if |parts| == 1 then parts[0]
    else parts[0] + [sep] + Join(parts[1..], sep)
  }

  lemma {:induction false} SplitHasNoSeparator(s: string, sep: char)
    ensures forall part :: part in Split(s, sep) ==> sep !in part
  {
    if s != "" {
      SplitHasNoSeparator(s[1..], sep);
      var rest := Split(s[1..], sep);
      assert rest[0] in rest;
      forall part | part in Split(s, sep) ensures sep !in part {
        if s[0] != sep && part != [s[0]] + rest[0] {
          assert part in rest[1..];
        }
      }
    }
  }

  lemma {:induction false} SplitCons(line: string, tail: string, sep: char)
    requires sep !in line
    ensures Split(line + [sep] + tail, sep) == [line] + Split(tail, sep)
  {
    var s := line + [sep] + tail;
    if line == "" {
      assert s[1..] == tail;
    } else {
      assert s[1..] == line[1..] + [sep] + tail;
      SplitCons(line[1..], tail, sep);
      assert [line[0]] + line[1..] == line;
    }
  }

  lemma {:induction false} SplitSingle(line: string, sep: char)
    requires sep !in line
    ensures Split(line, sep) == [line]
  {
    if line != "" {
      SplitSingle(line[1..], sep);
      assert [line[0]] + line[1..] == line;
    }
  }

  /** Splitting is the inverse of joining separator-free parts. */
  lemma {:induction false} SplitJoin(parts: seq<string>, sep: char)
    requires |parts| >= 1
    requires forall part :: part in parts ==> sep !in part
    ensures Split(Join(parts, sep), sep) == parts
  {
    assert parts[0] in parts;
    if |parts| == 1 {
      SplitSingle(parts[0], sep);
    } else {
      SplitCons(parts[0], Join(parts[1..], sep), sep);
      SplitJoin(parts[1..], sep);
      assert [parts[0]] + parts[1..] == parts;
    }
  }

  /** Every character is a separator or lies in some part. */
  lemma {:induction false} SplitCovers(s: string, sep: char, c: char)
    requires c in s && c != sep
    ensures exists part :: part in Split(s, sep) && c in part
  {
    var rest := Split(s[1..], sep);
    if c == s[0] {
      assert c in Split(s, sep)[0];
    } else {
      SplitCovers(s[1..], sep, c);
      var part :| part in rest && c in part;
      if s[0] != sep && part == rest[0] {
        assert c in Split(s, sep)[0];
      } else {
        assert part in Split(s, sep);
      }
    }
  }

  lemma {:induction false} JoinAppend(parts: seq<string>, part: string, sep: char)
    requires |parts| >= 1
    ensures Join(parts + [part], sep) == Join(parts, sep) + [sep] + part
  {
    if |parts| > 1 {
      assert (parts + [part])[1..] == parts[1..] + [part];
      JoinAppend(parts[1..], part, sep);
    }
  }

  /** Joining is the inverse of splitting. */
  lemma {:induction false} SplitsBack(s: string, sep: char)
    ensures Join(Split(s, sep), sep) == s
  {
    if s != "" {
      SplitsBack(s[1..], sep);
      var rest := Split(s[1..], sep);
      if s[0] == sep {
        assert ([""] + rest)[1..] == rest;
      } else if |rest| > 1 {
        assert ([[s[0]] + rest[0]] + rest[1..])[1..] == rest[1..];
      }
    }
  }

  /** Three terminated lines. */
  function ThreeLines(a: string, b: string, c: string, sep: char): string {
    a + [sep] + (b + [sep] + (c + [sep] + ""))
  }

  lemma SplitThreeLines(a: string, b: string, c: string, sep: char)
    requires sep !in a && sep !in b && sep !in c
    ensures Split(ThreeLines(a, b, c, sep), sep) == [a, b, c, ""]
  {
    SplitCons(c, "", sep);
    SplitCons(b, c + [sep] + "", sep);
    SplitCons(a, b + [sep] + (c + [sep] + ""), sep);
  }

  // --- Decimal integers ------------------------------------------------------

  predicate IsDigit(c: char) {
    '0' <= c <= '9'
  }

  function DigitChar(d: nat): (c: char)
    requires d < 10
    ensures IsDigit(c) && DigitValue(c) == d
  {
    ('0' as int + d) as char
  }

  function DigitValue(c: char): (d: nat)
    requires IsDigit(c)
    ensures d < 10
  {
    c as int - '0' as int
  }

  /** `strconv.Itoa` and `strconv.FormatInt(n, 10)` on non-negative numbers. */
  function PrintNat(n: nat): (s: string)
    ensures |s| >= 1 && forall i :: 0 <= i < |s| ==> IsDigit(s[i])
    ensures n > 0 ==> s[0] != '0'
  {
    if n < 10 then [DigitChar(n)] else PrintNat(n / 10) + [DigitChar(n % 10)]
  }

  function DecimalValue(s: string): nat
    requires forall i :: 0 <= i < |s| ==> IsDigit(s[i])
  {
    if s == "" then 0 else 10 * DecimalValue(s[..|s| - 1]) + DigitValue(s[|s| - 1])
  }

  lemma {:induction false} DecimalValueOfPrint(n: nat)
    ensures DecimalValue(PrintNat(n)) == n
  {
    if n >= 10 {
      DecimalValueOfPrint(n / 10);
      assert PrintNat(n)[..|PrintNat(n)| - 1] == PrintNat(n / 10);
    }
  }

  /** `strconv.ParseInt(s, 10, 64)`: an optional sign, digits only, 64-bit range. */
  function ParseInt64(s: string): (r: Option<Int64>)
  {
    var negative := s != "" && s[0] == '-';
    var digits := if s != "" && (s[0] == '-' || s[0] == '+') then s[1..] else s;
    if digits == "" || exists i :: 0 <= i < |digits| && !IsDigit(digits[i]) then None
    else
      var value: int := DecimalValue(digits);
      if negative && value <= -MIN_INT64 then Some(-value)
      else if !negative && value <= MAX_INT64 then Some(value)
      else None
  }

  lemma ParsePrintedInt64(n: nat)
    requires n <= MAX_INT64
    ensures ParseInt64(PrintNat(n)) == Some(n)
  {
    DecimalValueOfPrint(n);
  }

  /** `strings.HasPrefix`. */
  predicate HasPrefix(s: string, prefix: string) {
    prefix <= s
  }

  // --- Selecting lines --------------------------------------------------------

  /** The values `f` finds in a sequence, in order. */
  function Select<T, U>(f: T -> Option<U>, s: seq<T>): seq<U> {
    if s == [] then []
    else (match f(s[0]) case Some(u) => [u] case None => []) + Select(f, s[1..])
  }

  lemma {:induction false} SelectConcat<T, U>(f: T -> Option<U>, a: seq<T>, b: seq<T>)
    ensures Select(f, a + b) == Select(f, a) + Select(f, b)
  {
    if a == [] {
      assert a + b == b;
    } else {
      assert (a + b)[1..] == a[1..] + b;
      SelectConcat(f, a[1..], b);
    }
  }

  lemma SelectOne<T, U>(f: T -> Option<U>, x: T)
    ensures Select(f, [x]) == match f(x) case Some(u) => [u] case None => []
  {
    assert Select(f, [x][1..]) == [];
  }

  lemma SelectNext<T, U>(f: T -> Option<U>, s: seq<T>, i: nat)
    requires i < |s|
    ensures Select(f, s[..i + 1]) == Select(f, s[..i]) + match f(s[i]) case Some(u) => [u] case None => []
  {
    assert s[..i + 1] == s[..i] + [s[i]];
    SelectConcat(f, s[..i], [s[i]]);
    SelectOne(f, s[i]);
  }

  lemma SelectPrefix<T, U>(f: T -> Option<U>, s: seq<T>, i: nat)
    requires i <= |s|
    ensures Select(f, s[..i]) <= Select(f, s)
  {
    assert s == s[..i] + s[i..];
    SelectConcat(f, s[..i], s[i..]);
  }

  /** Two sequences in which `f` finds the same values position by position. */
  lemma {:induction false} SelectSame<T, U>(f: T -> Option<U>, a: seq<T>, b: seq<T>)
    requires |a| == |b| && forall k :: 0 <= k < |a| ==> f(a[k]) == f(b[k])
    ensures Select(f, a) == Select(f, b)
  {
    if a != [] {
      SelectSame(f, a[1..], b[1..]);
    }
  }

  // --- Trimming ---------------------------------------------------------------

  /** `unicode.IsSpace` */
  predicate IsSpace(c: char) {
    || '\t' <= c <= '\r' || c == ' ' || c == '\U{85}' || c == '\U{A0}' || c == '\U{1680}'
    || '\U{2000}' <= c <= '\U{200A}' || c == '\U{2028}' || c == '\U{2029}'
    || c == '\U{202F}' || c == '\U{205F}' || c == '\U{3000}'
  }

  function TrimLeft(s: string): string {
    if s != "" && IsSpace(s[0]) then TrimLeft(s[1..]) else s
  }

  function TrimRight(s: string): string {
    if s != "" && IsSpace(s[|s| - 1]) then TrimRight(s[..|s| - 1]) else s
  }

  /** `strings.TrimSpace` */
  function TrimSpace(s: string): string {
    TrimRight(TrimLeft(s))
  }
}
