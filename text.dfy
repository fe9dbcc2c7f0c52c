/**
 * ASCII models of the Foundation string operations the generator relies on:
 * whitespace trimming, prefix tests, `split` (keeping or omitting empty
 * pieces), `joined`, case mapping, and the ascending order that
 * `sorted(by: <)` puts dictionary keys in.
 */
module Text {

  /** `CharacterSet.whitespacesAndNewlines`, restricted to ASCII. */
  predicate IsSpace(c: char) {
    c == ' ' || c == '\t' || c == '\n' || c == '\r' || c == '\U{000B}' || c == '\U{000C}'
  }

  function TrimStart(s: string): string {
    if |s| > 0 && IsSpace(s[0]) then TrimStart(s[1..]) else s
  }

  /** What `TrimStart` removes is blank, and what it keeps is a suffix starting with a non-blank. */
  lemma {:induction false} TrimStartFacts(s: string)
    ensures var r := TrimStart(s);
      && |r| <= |s| && r == s[|s| - |r|..]
      && (forall i :: 0 <= i < |s| - |r| ==> IsSpace(s[i]))
      && (|r| > 0 ==> !IsSpace(r[0]))
  {
    if |s| > 0 && IsSpace(s[0]) {
      TrimStartFacts(s[1..]);
      var r := TrimStart(s[1..]);
      assert s[1..][|s| - 1 - |r|..] == s[|s| - |r|..];
    }
  }

  function TrimEnd(s: string): string {
    if |s| > 0 && IsSpace(s[|s| - 1]) then TrimEnd(s[..|s| - 1]) else s
  }

  /** What `TrimEnd` removes is blank, and what it keeps is a prefix ending with a non-blank. */
  lemma {:induction false} TrimEndFacts(s: string)
    ensures var r := TrimEnd(s);
      && |r| <= |s| && r == s[..|r|]
      && (forall i :: |r| <= i < |s| ==> IsSpace(s[i]))
      && (|r| > 0 ==> !IsSpace(r[|r| - 1]))
  {
    if |s| > 0 && IsSpace(s[|s| - 1]) {
      TrimEndFacts(s[..|s| - 1]);
      var r := TrimEnd(s[..|s| - 1]);
      assert s[..|s| - 1][..|r|] == s[..|r|];
    }
  }

  /** `trimmingCharacters(in: .whitespacesAndNewlines)`. */
  function Trim(s: string): string {
    TrimEnd(TrimStart(s))
  }

  /** The trimmed text neither starts nor ends with a blank, and it is empty
      exactly when the text is all blanks. */
  lemma TrimFacts(s: string)
    ensures var r := Trim(s);
      && (|r| > 0 ==> !IsSpace(r[0]) && !IsSpace(r[|r| - 1]))
      && ((forall i :: 0 <= i < |s| ==> IsSpace(s[i])) <==> r == "")
  {
    TrimStartFacts(s);
    TrimEndFacts(TrimStart(s));
    var t := TrimStart(s);
    var r := Trim(s);
    if |r| > 0 {
      assert r[0] == t[0];
    }
  }

  predicate HasPrefix(s: string, p: string) {
    |p| <= |s| && s[..|p|] == p
  }

  /** `split(separator: d, omittingEmptySubsequences: false)`. */
  function SplitKeeping(s: string, d: char): (r: seq<string>)
    ensures |r| >= 1
  {
    if |s| == 0 then [""]
    else
      var rest := SplitKeeping(s[1..], d);
      if s[0] == d then [""] + rest
      else [[s[0]] + rest[0]] + rest[1..]
  }

  /** No piece contains the separator. */
  lemma {:induction false} SplitKeepingExcludes(s: string, d: char)
    ensures forall i :: 0 <= i < |SplitKeeping(s, d)| ==> d !in SplitKeeping(s, d)[i]
  {
    if |s| > 0 {
      SplitKeepingExcludes(s[1..], d);
      var rest := SplitKeeping(s[1..], d);
      if s[0] != d {
        assert d !in rest[0];
        assert d !in [s[0]] + rest[0];
      }
    }
  }

  /** The pieces of `parts` that are not empty, in order. */
  function NonEmpty(parts: seq<string>): seq<string> {
    if |parts| == 0 then []
    else if parts[0] == "" then NonEmpty(parts[1..])
    else [parts[0]] + NonEmpty(parts[1..])
  }

  /** `NonEmpty` keeps only pieces of its input, none of them empty, and
      keeps everything when nothing is empty. */
  lemma {:induction false} NonEmptyFacts(parts: seq<string>)
    ensures var r := NonEmpty(parts);
      && |r| <= |parts|
      && (forall i :: 0 <= i < |r| ==> r[i] != "" && r[i] in parts)
      && ((forall i :: 0 <= i < |parts| ==> parts[i] != "") ==> r == parts)
  {
    if |parts| > 0 {
      NonEmptyFacts(parts[1..]);
      var rest := NonEmpty(parts[1..]);
      forall i | 0 <= i < |rest| ensures rest[i] in parts {
        assert rest[i] in parts[1..];
      }
      if parts[0] != "" {
        assert parts == [parts[0]] + parts[1..];
      }
    }
  }

  /** `split(separator: d)`: Swift's default drops the empty pieces. */
  function Split(s: string, d: char): seq<string> {
    NonEmpty(SplitKeeping(s, d))
  }

  /** No piece of a split is empty or contains the separator. */
  lemma SplitFacts(s: string, d: char)
    ensures forall i :: 0 <= i < |Split(s, d)| ==> Split(s, d)[i] != "" && d !in Split(s, d)[i]
  {
    NonEmptyFacts(SplitKeeping(s, d));
    SplitKeepingExcludes(s, d);
    var r := Split(s, d);
    forall i | 0 <= i < |r| ensures d !in r[i] {
      var j :| 0 <= j < |SplitKeeping(s, d)| && SplitKeeping(s, d)[j] == r[i];
    }
  }

  /** `joined(separator: [d])`. */
  function Join(parts: seq<string>, d: char): string {
    if |parts| == 0 then ""
    else if |parts| == 1 then parts[0]
    else parts[0] + [d] + Join(parts[1..], d)
  }

  /** `joined(separator: sep)` for a string separator. */
  function JoinWith(parts: seq<string>, sep: string): string {
    if |parts| == 0 then ""
    else if |parts| == 1 then parts[0]
    else parts[0] + sep + JoinWith(parts[1..], sep)
  }

  /** Joining one more piece adds the separator and the piece at the end. */
  lemma {:induction false} JoinWithSnoc(parts: seq<string>, x: string, sep: string)
    requires |parts| >= 1
    ensures JoinWith(parts + [x], sep) == JoinWith(parts, sep) + sep + x
    decreases |parts|
  {
    if |parts| == 1 {
      assert (parts + [x])[1..] == [x];
    } else {
      JoinWithSnoc(parts[1..], x, sep);
      assert (parts + [x])[1..] == parts[1..] + [x];
    }
  }

  lemma {:induction false} JoinSplitKeeping(s: string, d: char)
    ensures Join(SplitKeeping(s, d), d) == s
  {
    if |s| > 0 {
      var rest := SplitKeeping(s[1..], d);
      JoinSplitKeeping(s[1..], d);
      if s[0] == d {
        assert s == [d] + s[1..];
      } else if |rest| == 1 {
        assert s == [s[0]] + s[1..];
      } else {
        assert rest == [rest[0]] + rest[1..];
        assert s == [s[0]] + s[1..];
      }
    }
  }

  lemma {:induction false} SplitKeepingPrefix(a: string, s: string, d: char)
    requires d !in a
    ensures SplitKeeping(a + s, d) == [a + SplitKeeping(s, d)[0]] + SplitKeeping(s, d)[1..]
  {
    if |a| > 0 {
      SplitKeepingPrefix(a[1..], s, d);
      assert (a + s)[1..] == a[1..] + s;
      assert [a[0]] + (a[1..] + SplitKeeping(s, d)[0]) == a + SplitKeeping(s, d)[0];
    } else {
      var r := SplitKeeping(s, d);
      assert a + s == s && a + r[0] == r[0];
      assert r == [r[0]] + r[1..];
    }
  }

  /** Splitting the joined pieces gives the pieces back. */
  lemma {:induction false} SplitKeepingJoin(parts: seq<string>, d: char)
    requires |parts| >= 1
    requires forall i :: 0 <= i < |parts| ==> d !in parts[i]
    ensures SplitKeeping(Join(parts, d), d) == parts
  {
    if |parts| == 1 {
      SplitKeepingPrefix(parts[0], "", d);
      assert parts[0] + "" == parts[0];
    } else {
      SplitKeepingJoin(parts[1..], d);
      var tail := [d] + Join(parts[1..], d);
      assert SplitKeeping(tail, d) == [""] + SplitKeeping(Join(parts[1..], d), d);
      SplitKeepingPrefix(parts[0], tail, d);
      assert parts[0] + [d] + Join(parts[1..], d) == parts[0] + tail;
      assert SplitKeeping(tail, d)[1..] == parts[1..];
      assert parts[0] + SplitKeeping(tail, d)[0] == parts[0];
      assert parts == [parts[0]] + parts[1..];
    }
  }

  /** `split(separator: "\n", omittingEmptySubsequences: false)` over Swift
      `Character`s. A carriage return directly before a line feed forms the
      single `Character` "\r\n", which is not "\n", so that line feed does not
      split. */
  function SplitLines(s: string): (r: seq<string>)
    ensures |r| >= 1
  {
    if |s| == 0 then [""]
    else if |s| >= 2 && s[0] == '\r' && s[1] == '\n' then
      var rest := SplitLines(s[2..]);
      [s[..2] + rest[0]] + rest[1..]
    else
      var rest := SplitLines(s[1..]);
      if s[0] == '\n' then [""] + rest
      else [[s[0]] + rest[0]] + rest[1..]
  }

  /** Joining the lines with line feeds gives the text back. */
  lemma {:induction false} JoinSplitLines(s: string)
    ensures Join(SplitLines(s), '\n') == s
  {
    if |s| >= 2 && s[0] == '\r' && s[1] == '\n' {
      var rest := SplitLines(s[2..]);
      JoinSplitLines(s[2..]);
      if |rest| > 1 {
        assert rest == [rest[0]] + rest[1..];
      }
      assert s == s[..2] + s[2..];
    } else if |s| > 0 {
      var rest := SplitLines(s[1..]);
      JoinSplitLines(s[1..]);
      if s[0] == '\n' {
        assert s == [s[0]] + s[1..];
      } else {
        if |rest| > 1 {
          assert rest == [rest[0]] + rest[1..];
        }
        assert s == [s[0]] + s[1..];
      }
    }
  }

  /** Every line feed left inside a line ends a "\r\n". */
  predicate OnlyCrLf(line: string) {
    forall j :: 0 <= j < |line| && line[j] == '\n' ==> 0 < j && line[j - 1] == '\r'
  }

  lemma {:induction false} SplitLinesOnlyCrLf(s: string)
    ensures forall i :: 0 <= i < |SplitLines(s)| ==> OnlyCrLf(SplitLines(s)[i])
  {
    if |s| >= 2 && s[0] == '\r' && s[1] == '\n' {
      SplitLinesOnlyCrLf(s[2..]);
      var rest := SplitLines(s[2..]);
      var first := s[..2] + rest[0];
      forall j | 0 <= j < |first| && first[j] == '\n' ensures 0 < j && first[j - 1] == '\r' {
        if j >= 2 {
          assert first[j] == rest[0][j - 2];
          if j > 2 {
            assert first[j - 1] == rest[0][j - 3];
          }
        }
      }
    } else if |s| > 0 {
      SplitLinesOnlyCrLf(s[1..]);
      var rest := SplitLines(s[1..]);
      if s[0] != '\n' {
        var first := [s[0]] + rest[0];
        forall j | 0 <= j < |first| && first[j] == '\n' ensures 0 < j && first[j - 1] == '\r' {
          assert first[j] == rest[0][j - 1];
          if j > 1 {
            assert first[j - 1] == rest[0][j - 2];
          }
        }
      }
    }
  }

  /** Without carriage returns the lines are the plain split at line feeds. */
  lemma {:induction false} SplitLinesWithoutCr(s: string)
    requires '\r' !in s
    ensures SplitLines(s) == SplitKeeping(s, '\n')
  {
    if |s| > 0 {
      assert s[0] != '\r';
      assert '\r' !in s[1..];
      SplitLinesWithoutCr(s[1..]);
    }
  }

  /** Text without a line feed is one line. */
  lemma {:induction false} SplitLinesNoLineFeed(s: string)
    requires '\n' !in s
    ensures SplitLines(s) == [s]
  {
    if |s| > 0 {
      if |s| >= 2 {
        assert s[1] in s;
      }
      assert '\n' !in s[1..];
      SplitLinesNoLineFeed(s[1..]);
      assert [s[0]] + s[1..] == s;
    }
  }

  /** `split(separator: "\n")` over Swift `Character`s: the lines of
      `SplitLines`, the empty ones dropped. */
  function NonEmptyLines(s: string): seq<string> {
    NonEmpty(SplitLines(s))
  }

  /** A "\r\n" line ending does not split: Windows line endings give one line. */
  lemma CrLfNotSplit()
    ensures SplitLines("a\r\nb") == ["a\r\nb"]
    ensures SplitLines("a\nb") == ["a", "b"]
  {
    var b := "b";
    assert b[1..] == "" && [b[0]] + "" == b;
    assert SplitLines(b) == [b];
    var crlf := "\r\nb";
    assert crlf[..2] == "\r\n" && crlf[2..] == b;
    assert |crlf| >= 2 && crlf[0] == '\r' && crlf[1] == '\n';
    var bs: seq<string> := [b];
    assert bs[1..] == [];
    assert SplitLines(crlf) == [crlf[..2] + b];
    assert crlf[..2] + b == crlf;
    var one := "a\r\nb";
    assert one[1..] == crlf && [one[0]] + crlf == one;
    var lf := "\nb";
    assert lf[1..] == b;
    assert SplitLines(lf) == ["", "b"];
    var two := "a\nb";
    assert two[1..] == lf && [two[0]] + "" == "a";
  }

  /** The key-path round trip: splitting the re-joined parts of a key gives the parts back. */
  lemma SplitJoin(parts: seq<string>, d: char)
    requires forall i :: 0 <= i < |parts| ==> parts[i] != "" && d !in parts[i]
    ensures Split(Join(parts, d), d) == parts
  {
    if |parts| > 0 {
      SplitKeepingJoin(parts, d);
      NonEmptyFacts(parts);
    } else {
      assert [""][1..] == [];
    }
  }

  function Repeat(c: char, n: nat): (r: string)
    ensures |r| == n
  {
    seq(n, _ => c)
  }

  // Decimal numerals

  predicate IsDigit(c: char) {
    '0' <= c <= '9'
  }

  /** The value of a run of decimal digits, most significant first. */
  function DecimalValue(digits: string): nat
    requires forall i :: 0 <= i < |digits| ==> IsDigit(digits[i])
  {
    if |digits| == 0 then 0
    else
      assert IsDigit(digits[|digits| - 1]);
      10 * DecimalValue(digits[..|digits| - 1]) + (digits[|digits| - 1] as int - '0' as int)
  }

  /** An `Int` interpolated into a string: its decimal numeral. */
  function NatToString(n: nat): (r: string)
    ensures |r| >= 1 && forall i :: 0 <= i < |r| ==> IsDigit(r[i])
    decreases n
  {
    if n < 10 then [('0' as int + n) as char]
    else NatToString(n / 10) + [('0' as int + n % 10) as char]
  }

  /** Reading the numeral back gives the number. */
  lemma {:induction false} NatToStringRoundTrip(n: nat)
    ensures DecimalValue(NatToString(n)) == n
    decreases n
  {
    var r := NatToString(n);
    if n < 10 {
      assert r[..0] == [];
    } else {
      NatToStringRoundTrip(n / 10);
      assert r[..|r| - 1] == NatToString(n / 10);
    }
  }

  /** Different numbers have different numerals. */
  lemma NatToStringInjective(m: nat, n: nat)
    requires NatToString(m) == NatToString(n)
    ensures m == n
  {
    NatToStringRoundTrip(m);
    NatToStringRoundTrip(n);
  }

  // ASCII case mapping

  function LowerChar(c: char): char {
    if 'A' <= c <= 'Z' then (c as int + 32) as char else c
  }

  function UpperChar(c: char): char {
    if 'a' <= c <= 'z' then (c as int - 32) as char else c
  }

  /** `lowercased()`. */
  function Lowercased(s: string): (r: string)
    ensures |r| == |s| && forall i :: 0 <= i < |s| ==> r[i] == LowerChar(s[i])
  {
    seq(|s|, i requires 0 <= i < |s| => LowerChar(s[i]))
  }

  predicate IsAsciiLetter(c: char) {
    'a' <= c <= 'z' || 'A' <= c <= 'Z'
  }

  /** The ASCII characters of Unicode's `Case_Ignorable` property. */
  predicate IsCaseIgnorable(c: char) {
    c == '\'' || c == '.' || c == ':' || c == '^' || c == '`'
  }

  /** Whether Foundation's `capitalized` counts position `i` as inside a word:
      the character before it is a letter, or is case-ignorable and itself
      inside a word. */
  predicate AfterCased(s: string, i: nat)
    requires i <= |s|
    decreases i
  {
    i > 0 && (IsAsciiLetter(s[i - 1]) || (IsCaseIgnorable(s[i - 1]) && AfterCased(s, i - 1)))
  }

  /** Foundation's `capitalized`: a letter that does not follow a cased
      letter (case-ignorable characters in between are skipped) is
      upper-cased, every other letter lower-cased. So a digit, a blank or an
      underscore starts a new word, and an apostrophe inside a word does not. */
  function Capitalized(s: string): (r: string)
    ensures |r| == |s|
    ensures forall i :: 0 <= i < |s| ==> r[i] == CapitalizedAt(s, i)
  {
    seq(|s|, i requires 0 <= i < |s| => CapitalizedAt(s, i))
  }

  /** The character at `i` of `capitalized`. */
  function CapitalizedAt(s: string, i: nat): char
    requires i < |s|
  {
    if AfterCased(s, i) then LowerChar(s[i]) else UpperChar(s[i])
  }

  /** Word starts of `capitalized`: after a digit, an underscore or a blank,
      but not after an apostrophe that follows a letter. */
  lemma CapitalizedExamples()
    ensures Capitalized("1st") == "1St"
    ensures Capitalized("x_y") == "X_Y"
    ensures Capitalized("it's") == "It's"
    ensures Capitalized("'s") == "'S"
  {
    var a := "1st";
    assert !AfterCased(a, 1) && AfterCased(a, 2);
    var b := "x_y";
    assert AfterCased(b, 1) && !AfterCased(b, 2);
    var c := "it's";
    assert AfterCased(c, 1) && AfterCased(c, 2) && AfterCased(c, 3);
    var d := "'s";
    assert !AfterCased(d, 1);
  }

  // Ascending order of keys, as `sorted(by: { $0.key < $1.key })` uses it

  /** Lexicographic order on characters, a proper prefix first. */
  predicate LessEq(a: string, b: string) {
    if |a| == 0 then true
    else if |b| == 0 then false
    else if a[0] < b[0] then true
    else if a[0] > b[0] then false
    else LessEq(a[1..], b[1..])
  }

  predicate Less(a: string, b: string) {
    LessEq(a, b) && a != b
  }

  lemma {:induction false} LessEqAntisymmetric(a: string, b: string)
    requires LessEq(a, b) && LessEq(b, a)
    ensures a == b
  {
    if |a| > 0 && |b| > 0 {
      LessEqAntisymmetric(a[1..], b[1..]);
      assert a == [a[0]] + a[1..] && b == [b[0]] + b[1..];
    }
  }

  lemma {:induction false} LessEqTotal(a: string, b: string)
    ensures LessEq(a, b) || LessEq(b, a)
  {
    if |a| > 0 && |b| > 0 && a[0] == b[0] {
      LessEqTotal(a[1..], b[1..]);
    }
  }

  lemma {:induction false} LessEqTransitive(a: string, b: string, c: string)
    requires LessEq(a, b) && LessEq(b, c)
    ensures LessEq(a, c)
  {
    if |a| > 0 && |b| > 0 && |c| > 0 && a[0] == b[0] && b[0] == c[0] {
      LessEqTransitive(a[1..], b[1..], c[1..]);
    }
  }

  predicate IsLeast(m: string, s: set<string>) {
    m in s && forall y :: y in s ==> LessEq(m, y)
  }

  lemma {:induction false} LeastExists(s: set<string>)
    requires s != {}
    ensures exists m :: IsLeast(m, s)
    decreases |s|
  {
    var x :| x in s;
    if s == {x} {
      LessEqTotal(x, x);
      assert IsLeast(x, s);
    } else {
      LeastExists(s - {x});
      var m :| IsLeast(m, s - {x});
      LessEqTotal(m, x);
      if LessEq(m, x) {
        assert IsLeast(m, s);
      } else {
        forall y | y in s ensures LessEq(x, y) {
          if y != x { LessEqTransitive(x, m, y); } else { LessEqTotal(x, x); }
        }
        assert IsLeast(x, s);
      }
    }
  }

  function Least(s: set<string>): (m: string)
    requires s != {}
    ensures IsLeast(m, s)
  {
    LeastExists(s);
    assert forall a, b :: IsLeast(a, s) && IsLeast(b, s) ==> a == b by {
      forall a, b | IsLeast(a, s) && IsLeast(b, s) ensures a == b {
        LessEqAntisymmetric(a, b);
      }
    }
    var m :| IsLeast(m, s);
    m
  }

  predicate StrictlyAscending(r: seq<string>) {
    forall i, j :: 0 <= i < j < |r| ==> Less(r[i], r[j])
  }

  /** The keys of a dictionary in ascending order: every key exactly once
      (`SortedKeysMembers`, `SortedKeysAscending`). */
  function SortedKeys(s: set<string>): (r: seq<string>)
    ensures |r| == |s|
    ensures forall i :: 0 <= i < |r| ==> r[i] in s
    decreases |s|
  {
    if s == {} then []
    else
      var m := Least(s);
      [m] + SortedKeys(s - {m})
  }

  lemma {:induction false} SortedKeysMembers(s: set<string>)
    ensures forall k :: k in SortedKeys(s) <==> k in s
    decreases |s|
  {
    if s != {} {
      var m := Least(s);
      SortedKeysMembers(s - {m});
      assert SortedKeys(s) == [m] + SortedKeys(s - {m});
    }
  }

  lemma {:induction false} SortedKeysAscending(s: set<string>)
    ensures StrictlyAscending(SortedKeys(s))
    decreases |s|
  {
    if s != {} {
      var m := Least(s);
      var rest := SortedKeys(s - {m});
      SortedKeysAscending(s - {m});
      forall j | 0 <= j < |rest| ensures Less(m, rest[j]) {
        assert rest[j] in s - {m};
      }
      assert SortedKeys(s) == [m] + rest;
    }
  }
}
